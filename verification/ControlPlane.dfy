/** The cloud process as a step system: an API request or a bridge message is one step, a
    desired-state patch takes four that other requests and the bridge may interleave with, and the
    process may stop and start again at any point. */
module ControlPlane {
  import opened Prelude
  import opened Json
  import opened Db
  import opened MqttPub
  import opened Topics
  import opened Bridge
  import Registry
  import Ota

  /** A patch has checked that the device exists, loaded the document, or committed the merge. */
  datatype Stage = Checked | Loaded(base: Dict) | Saved(desired: Dict)

  datatype Request = Request(id: string, delta: Dict, now: int, stage: Stage)

  datatype State = State(tables: Tables, requests: map<nat, Request>)

  datatype Event =
    | PostDevice(id: string, row: DeviceRow)
    | PatchDevice(id: string, groupId: Option<string>, attributes: Option<Dict>)
    | DeleteDevice(id: string)
    | PostGroup(id: string, group: GroupRow)
    | DeleteGroup(id: string)
    | Receive(topic: string, payload: Payload, now: int)
    | PatchBegin(req: nat, id: string, delta: Dict, now: int)
    | PatchRead(req: nat)
    | PatchCommit(req: nat)
    | PatchPublish(req: nat, accepted: bool)
    | DeviceCmd(id: string, cmd: string, params: Dict, accepted: bool)
    | HawkbitCallback(
        id: string, firmwareId: Option<int>, url: Option<string>, checksum: Option<string>, version: Option<string>,
        accepted: bool)
    | Restart(now: int)

  const INITIAL := State(InitialTables(0), map[])

  predicate At(s: State, req: nat, id: string) {
    req in s.requests && s.requests[req].id == id
  }

  predicate LoadedAt(s: State, req: nat) {
    req in s.requests && s.requests[req].stage.Loaded?
  }

  predicate SavedAt(s: State, req: nat) {
    req in s.requests && s.requests[req].stage.Saved?
  }

  /** A step that does not apply leaves the state as it is. */
  function Step(s: State, e: Event): State {
    match e
    case PostDevice(id, row) => s.(tables := Registry.Created(s.tables, id, row))
    case PatchDevice(id, groupId, attributes) => s.(tables := Registry.Patched(s.tables, id, groupId, attributes))
    case DeleteDevice(id) => s.(tables := DeleteDeviceRow(s.tables, id))
    case PostGroup(id, group) => s.(tables := Registry.GroupCreated(s.tables, id, group))
    case DeleteGroup(id) => s.(tables := Registry.GroupDeleted(s.tables, id))
    case Receive(topic, payload, now) => s.(tables := Route(s.tables, topic, payload, now).tables)
    case PatchBegin(req, id, delta, now) =>
      if req in s.requests || id !in s.tables.devices then s
      else s.(requests := s.requests[req := Request(id, delta, now, Checked)])
    case PatchRead(req) =>
      if req !in s.requests || !s.requests[req].stage.Checked? then s
      else s.(requests := s.requests[req := s.requests[req].(stage := Loaded(Desired(s.tables, s.requests[req].id)))])
    case PatchCommit(req) =>
      if !LoadedAt(s, req) then s
      else
        var r := s.requests[req];
        var desired := r.stage.base + r.delta;
        var upserted := UpsertDesired(s.tables, r.id, desired, r.now);
        if upserted.None? then s.(requests := s.requests - {req})
        else State(upserted.value, s.requests[req := r.(stage := Saved(desired))])
    case PatchPublish(req, _) =>
      if !SavedAt(s, req) then s else s.(requests := s.requests - {req})
    case DeviceCmd(_, _, _, _) => s
    case HawkbitCallback(_, _, _, _, _, _) => s
    case Restart(now) => State(Booted(s.tables, now), map[])
  }

  function Run(es: seq<Event>): State {
    if es == [] then INITIAL else Step(Run(es[..|es| - 1]), es[|es| - 1])
  }

  /** The message a step hands to the publisher's queue, if any. */
  function Published(s: State, e: Event): Option<Message> {
    match e
    case PatchPublish(req, accepted) =>
      if SavedAt(s, req) && accepted && Publishable(DesiredTopic(s.requests[req].id))
      then Some(Message(DesiredTopic(s.requests[req].id), s.requests[req].stage.desired, true)) else None
    case DeviceCmd(id, cmd, params, accepted) =>
      if cmd in Ota.VALID_CMDS && id in s.tables.devices && accepted && Publishable(CmdTopic(id))
      then Some(Message(CmdTopic(id), Ota.CmdPayload(cmd, params), false)) else None
    case HawkbitCallback(id, firmwareId, url, checksum, version, accepted) =>
      if accepted && Publishable(CmdTopic(id))
      then Some(Message(CmdTopic(id), Ota.CallbackPayload(firmwareId, url, checksum, version), false)) else None
    case _ => None
  }

  // --- scans of the run ---

  datatype Commitment = Commitment(delta: Dict, desired: Dict)

  /** `e` commits a patch of `id`. */
  predicate Commits(s: State, e: Event, id: string) {
    e.PatchCommit? && LoadedAt(s, e.req) && At(s, e.req, id) && id in s.tables.devices
  }

  function CommitmentOf(s: State, e: Event): Commitment
    requires e.PatchCommit? && LoadedAt(s, e.req)
  {
    var r := s.requests[e.req];
    Commitment(r.delta, r.stage.base + r.delta)
  }

  /** The patches committed for `id` over the whole run, in commit order. */
  function AllCommits(es: seq<Event>, id: string): seq<Commitment> {
    if es == [] then []
    else
      var init, e := es[..|es| - 1], es[|es| - 1];
      if Commits(Run(init), e, id) then AllCommits(init, id) + [CommitmentOf(Run(init), e)] else AllCommits(init, id)
  }

  /** The patches committed in the current life of `id`. */
  function LifeCommits(es: seq<Event>, id: string): seq<Commitment> {
    if es == [] then []
    else
      var init, e := es[..|es| - 1], es[|es| - 1];
      if e == DeleteDevice(id) then []
      else if Commits(Run(init), e, id) then LifeCommits(init, id) + [CommitmentOf(Run(init), e)]
      else LifeCommits(init, id)
  }

  function Deltas(cs: seq<Commitment>): seq<Dict> {
    seq(|cs|, i requires 0 <= i < |cs| => cs[i].delta)
  }

  function Writes(cs: seq<Commitment>): seq<Dict> {
    seq(|cs|, i requires 0 <= i < |cs| => cs[i].desired)
  }

  predicate Accepts(s: State, e: Event, id: string) {
    e.PatchPublish? && e.accepted && SavedAt(s, e.req) && At(s, e.req, id) && Publishable(DesiredTopic(id))
  }

  /** The desired state of `id` in the last publish the client accepted since the process started. */
  function LastAccepted(es: seq<Event>, id: string): Option<Dict> {
    if es == [] then None
    else
      var init, e := es[..|es| - 1], es[|es| - 1];
      if Accepts(Run(init), e, id) then Some(Run(init).requests[e.req].stage.desired)
      else if e.Restart? then None
      else LastAccepted(init, id)
  }

  /** Since the last commit for `id`, its deletion or a restart a publish for it was accepted. */
  predicate Synced(es: seq<Event>, id: string) {
    es != [] &&
    var init, e := es[..|es| - 1], es[|es| - 1];
    if Accepts(Run(init), e, id) then true
    else if e == DeleteDevice(id) || e.Restart? || Commits(Run(init), e, id) then false
    else Synced(init, id)
  }

  // --- patches in order ---

  /** The patch of `id` under `req` has committed and not yet published. */
  predicate PendingAt(s: State, req: nat, id: string) {
    At(s, req, id) && SavedAt(s, req)
  }

  ghost predicate Pending(s: State, id: string) {
    exists req :: PendingAt(s, req, id)
  }

  /** Since the last restart no patch of `id` committed, and `id` was not deleted, while another patch
      of it was committed and unpublished; a deletion with none pending starts afresh. */
  ghost predicate InCommitOrder(es: seq<Event>, id: string) {
    es == [] ||
    var init, e := es[..|es| - 1], es[|es| - 1];
    if e.Restart? then true
    else if e == DeleteDevice(id) then !Pending(Run(init), id)
    else InCommitOrder(init, id) && (Commits(Run(init), e, id) ==> !Pending(Run(init), id))
  }

  ghost predicate Busy(s: State, id: string) {
    exists req :: At(s, req, id) && !s.requests[req].stage.Checked?
  }

  /** In its current life the patches of `id` are serialised: none loads while another is between its
      load and its publish, and none was there when the life before ended. */
  ghost predicate Serialised(es: seq<Event>, id: string) {
    es == [] ||
    var init, e := es[..|es| - 1], es[|es| - 1];
    if e == DeleteDevice(id) then !Busy(Run(init), id)
    else Serialised(init, id) && (e.PatchRead? && At(Run(init), e.req, id) ==> !Busy(Run(init), id))
  }

  // --- the store invariant ---

  lemma StepKeepsConsistent(s: State, e: Event)
    requires Consistent(s.tables)
    ensures Consistent(Step(s, e).tables)
  {
    if e.Receive? { RouteKeepsConsistent(s.tables, e.topic, e.payload, e.now); }
  }

  /** In every reachable state the tables are consistent. */
  lemma {:induction false} AlwaysConsistent(es: seq<Event>)
    ensures Consistent(Run(es).tables)
  {
    if es == [] {
    } else {
      AlwaysConsistent(es[..|es| - 1]);
      StepKeepsConsistent(Run(es[..|es| - 1]), es[|es| - 1]);
    }
  }

  /** In every reachable state the two views of who is online agree, and groups lose no device. */
  lemma ReachableViews(es: seq<Event>)
    ensures var t := Run(es).tables;
            && Registry.CountOnline(Registry.ListDevices(t)) == Registry.DevicesOnline(t)
            && Registry.SumCounts(Registry.ListGroups(t)) + |Registry.Dangling(t)| == |Registry.ListDevices(t)|
  {
    AlwaysConsistent(es);
    Registry.ViewsAgree(Run(es).tables);
    Registry.ListDevicesExact(Run(es).tables);
    Registry.GroupConservation(Run(es).tables);
  }

  /** No step publishes anything the bridge reacts to, and nothing but desired state is retained. */
  lemma NoEcho(s: State, e: Event, t: Tables, payload: Payload, now: int)
    requires Published(s, e).Some?
    ensures Route(t, Published(s, e).value.topic, payload, now) == Outcome(t, [])
    ensures Published(s, e).value.retain <==> exists id :: Published(s, e).value.topic == DesiredTopic(id)
  {
    var m := Published(s, e).value;
    var id := if e.PatchPublish? then s.requests[e.req].id else e.id;
    CloudTopicsInert(t, id, m.topic, payload, now);
    if e.PatchPublish? {
      assert m.topic == DesiredTopic(id);
    } else {
      forall other ensures m.topic != DesiredTopic(other) { CmdIsNotDesired(id, other); }
    }
  }

  // --- redelivery inside a run ---

  predicate IsPatchStep(e: Event) {
    e.PatchBegin? || e.PatchRead? || e.PatchCommit? || e.PatchPublish?
  }

  /** Equal but for the clock columns. */
  ghost predicate SameStateUntimed(a: State, b: State) {
    a.requests == b.requests && SameUntimed(a.tables, b.tables)
  }

  lemma RegistryUntimed(a: State, b: State, e: Event)
    requires SameStateUntimed(a, b) && !IsPatchStep(e) && !e.Receive?
    ensures SameStateUntimed(Step(a, e), Step(b, e))
  {
  }

  lemma PatchUntimed(a: State, b: State, e: Event)
    requires SameStateUntimed(a, b) && IsPatchStep(e)
    ensures SameStateUntimed(Step(a, e), Step(b, e))
  {
    forall id
      ensures Desired(a.tables, id) == Desired(b.tables, id) && Reported(a.tables, id) == Reported(b.tables, id)
    {
      assert id in a.tables.shadows ==> a.tables.shadows[id].(updatedAt := 0) == b.tables.shadows[id].(updatedAt := 0);
    }
  }

  lemma StepUntimed(a: State, b: State, e: Event)
    requires SameStateUntimed(a, b)
    ensures SameStateUntimed(Step(a, e), Step(b, e))
  {
    if e.Receive? {
      RouteUntimed(a.tables, b.tables, e.topic, e.payload, e.now, e.now);
    } else if IsPatchStep(e) {
      PatchUntimed(a, b, e);
    } else {
      RegistryUntimed(a, b, e);
    }
  }

  /** `e` delivers the message of `d` again. */
  predicate Repeats(d: Event, e: Event) {
    d.Receive? && e.Receive? && d.topic == e.topic && d.payload == e.payload
  }

  /** Drops every bridge message that repeats the event before it. */
  function CollapseReceives(es: seq<Event>): seq<Event> {
    if es == [] then []
    else
      var init, e := es[..|es| - 1], es[|es| - 1];
      if init != [] && Repeats(init[|init| - 1], e) then CollapseReceives(init) else CollapseReceives(init) + [e]
  }

  lemma RepeatUntimed(s: State, d: Event, e: Event)
    requires Repeats(d, e)
    ensures SameStateUntimed(Step(Step(s, d), e), Step(s, d))
  {
    RouteIdempotent(s.tables, d.topic, d.payload, d.now, e.now);
  }

  /** A message redelivered right after itself, anywhere in a run of API requests, patch steps, bridge
      messages and restarts, changes no request in flight and no table but for the clock columns. */
  lemma {:induction false} RedeliveryHarmlessInRuns(es: seq<Event>)
    ensures SameStateUntimed(Run(es), Run(CollapseReceives(es)))
  {
    if es == [] {
    } else {
      var init, e := es[..|es| - 1], es[|es| - 1];
      RedeliveryHarmlessInRuns(init);
      if init != [] && Repeats(init[|init| - 1], e) {
        RepeatUntimed(Run(init[..|init| - 1]), init[|init| - 1], e);
      } else {
        assert (CollapseReceives(init) + [e])[..|CollapseReceives(init)|] == CollapseReceives(init);
        StepUntimed(Run(init), Run(CollapseReceives(init)), e);
      }
    }
  }

  // --- which steps write which column ---

  lemma DispatchColumns(t: Tables, to: string, kind: Kind, data: Dict, now: int, id: string)
    ensures var t' := Dispatch(t, to, kind, data, now).tables;
            && t'.devices == t.devices && t'.groups == t.groups
            && Desired(t', id) == Desired(t, id)
            && Reported(t', id) == if kind == Reports && to == id && id in t.devices then data else Reported(t, id)
  {
  }

  predicate ReportFor(t: Tables, topic: string, payload: Payload, id: string) {
    && Parse(topic).Some? && Parse(topic).value.id == id && KindOf(Parse(topic).value.channel) == Reports
    && payload.Parsed? && payload.j.Obj? && id in t.devices
  }

  lemma RouteColumns(t: Tables, topic: string, payload: Payload, now: int, id: string)
    ensures var t' := Route(t, topic, payload, now).tables;
            && t'.devices == t.devices && t'.groups == t.groups
            && Desired(t', id) == Desired(t, id)
            && Reported(t', id) == if ReportFor(t, topic, payload, id) then payload.j.fields else Reported(t, id)
  {
    if Parse(topic).Some? && payload.Parsed? && payload.j.Obj? {
      var to := Parse(topic).value;
      DispatchColumns(t, to.id, KindOf(to.channel), payload.j.fields, now, id);
    }
  }

  lemma DesiredWriters(s: State, e: Event, id: string)
    ensures Desired(Step(s, e).tables, id) ==
            if e == DeleteDevice(id) then map[]
            else if Commits(s, e, id) then CommitmentOf(s, e).desired
            else Desired(s.tables, id)
  {
    if e.Receive? { RouteColumns(s.tables, e.topic, e.payload, e.now, id); }
  }

  lemma ReportedWriters(s: State, e: Event, id: string)
    ensures Reported(Step(s, e).tables, id) ==
            if e == DeleteDevice(id) then map[]
            else if e.Receive? && ReportFor(s.tables, e.topic, e.payload, id) then e.payload.j.fields
            else Reported(s.tables, id)
  {
    if e.Receive? { RouteColumns(s.tables, e.topic, e.payload, e.now, id); }
  }

  /** The device's row after any step: a registration writes it whole, a patch the columns it names, the
      deletion of its group the group; certificate, password hash and creation time never change. */
  lemma RowWriters(s: State, e: Event, id: string)
    requires Consistent(s.tables)
    ensures var was, now := s.tables.devices, Step(s, e).tables.devices;
            id in now ==>
              if id !in was then e.PostDevice? && e.id == id && now[id] == e.row
              else
                && now[id].certCn == was[id].certCn && now[id].passwordHash == was[id].passwordHash
                && now[id].createdAt == was[id].createdAt
                && now[id].attributes ==
                   (if e.PatchDevice? && e.id == id && e.attributes.Some? then e.attributes.value
                    else was[id].attributes)
                && now[id].groupId ==
                   (if e.PatchDevice? && e.id == id && e.groupId.Some? then e.groupId.value
                    else if e.DeleteGroup? && e.id in s.tables.groups && was[id].groupId == e.id then "default"
                    else was[id].groupId)
  {
    if e.Receive? { RouteColumns(s.tables, e.topic, e.payload, e.now, id); }
  }

  /** The request `req` after any step: it begins for a registered device only, loads the document of the
      row, merges its patch into what it loaded, and ends with its publish, with the refusal of its commit
      when the device is gone, or with the process. */
  lemma RequestWriters(s: State, e: Event, req: nat)
    ensures var was, now := s.requests, Step(s, e).requests;
            if e.Restart? then req !in now
            else if e.PatchBegin? && e.req == req && req !in was then
              if e.id in s.tables.devices then req in now && now[req] == Request(e.id, e.delta, e.now, Checked)
              else req !in now
            else if req !in was then req !in now
            else
              var r := was[req];
              if e == PatchRead(req) && r.stage.Checked? then
                req in now && now[req] == r.(stage := Loaded(
                  if r.id in s.tables.shadows then s.tables.shadows[r.id].desired else map[]))
              else if e == PatchCommit(req) && r.stage.Loaded? then
                if r.id in s.tables.devices then req in now && now[req] == r.(stage := Saved(r.stage.base + r.delta))
                else req !in now
              else if e.PatchPublish? && e.req == req && r.stage.Saved? then req !in now
              else req in now && now[req] == r
  {
  }

  /** The groups after any step. */
  lemma GroupWriters(s: State, e: Event)
    ensures Step(s, e).tables.groups ==
            var was := s.tables.groups;
            if e.PostGroup? && e.id !in was then was[e.id := e.group]
            else if e.DeleteGroup? && e.id != "default" then was - {e.id}
            else if e.Restart? && "default" !in was then was["default" := GroupRow(Some("Default group"), e.now)]
            else was
  {
    if e.Receive? { RouteColumns(s.tables, e.topic, e.payload, e.now, ""); }
    if e.DeleteGroup? && e.id !in s.tables.groups { assert s.tables.groups - {e.id} == s.tables.groups; }
  }

  /** The command a step publishes, if any. */
  lemma CmdPublished(s: State, e: Event)
    ensures e.DeviceCmd? ==>
              Published(s, e) ==
              if && e.cmd in {"reboot", "rotate_cert", "ota_check"} && e.id in s.tables.devices
                 && e.accepted && Publishable(e.id)
              then Some(Message("embediq/" + e.id + "/cmd", Ota.CmdPayload(e.cmd, e.params), false)) else None
    ensures e.HawkbitCallback? ==>
              Published(s, e) ==
              if e.accepted && Publishable(e.id)
              then Some(Message("embediq/" + e.id + "/cmd",
                                Ota.CallbackPayload(e.firmwareId, e.url, e.checksum, e.version), false)) else None
  {
    if e.DeviceCmd? || e.HawkbitCallback? {
      PublishableIff(e.id);
      TopicsSpelled(e.id);
    }
  }

  // --- ids that no route takes ---

  /** A path parameter of a route is one nonempty segment. */
  predicate Addressable(id: string) {
    id != "" && '/' !in id
  }

  /** `e` is a step the routes can take: an id comes in the path, except when a device or a group is
      created and when the callback names one. */
  predicate Routed(e: Event) {
    match e
    case PatchDevice(id, _, _) => Addressable(id)
    case DeleteDevice(id) => Addressable(id)
    case DeleteGroup(id) => Addressable(id)
    case PatchBegin(_, id, _, _) => Addressable(id)
    case DeviceCmd(id, _, _, _) => Addressable(id)
    case _ => true
  }

  /** Some step of the run asked for `id` to be registered. */
  predicate Posted(es: seq<Event>, id: string) {
    es != [] && ((es[|es| - 1].PostDevice? && es[|es| - 1].id == id) || Posted(es[..|es| - 1], id))
  }

  lemma RegistrationAfter(s: State, e: Event, id: string)
    requires Consistent(s.tables)
    ensures id in Step(s, e).tables.devices <==>
            e != DeleteDevice(id) && (id in s.tables.devices || (e.PostDevice? && e.id == id))
  {
    if e.Receive? { RouteColumns(s.tables, e.topic, e.payload, e.now, id); }
  }

  lemma UnaddressableStep(s: State, e: Event, id: string)
    requires !Addressable(id) && Routed(e) && forall req :: !At(s, req, id)
    ensures forall req :: !At(Step(s, e), req, id)
    ensures e != DeleteDevice(id) && !Commits(s, e, id)
  {
    forall req ensures !At(Step(s, e), req, id) { assert !At(s, req, id); }
  }

  /** An id with a slash, or an empty one, can be registered but never managed: no patch of it starts, its
      desired document stays empty, and it is there for good from the first request to register it. */
  lemma {:induction false} UnaddressableIdStays(es: seq<Event>, id: string)
    requires !Addressable(id) && forall e | e in es :: Routed(e)
    ensures Desired(Run(es).tables, id) == map[] && forall req :: !At(Run(es), req, id)
    ensures id in Run(es).tables.devices <==> Posted(es, id)
  {
    if es == [] {
    } else {
      var init, e := es[..|es| - 1], es[|es| - 1];
      assert es == init + [e];
      UnaddressableIdStays(init, id);
      AlwaysConsistent(init);
      UnaddressableStep(Run(init), e, id);
      RegistrationAfter(Run(init), e, id);
      DesiredWriters(Run(init), e, id);
    }
  }

  // --- the two writers of a shadow row do not interfere ---

  function Without(es: seq<Event>, drop: Event -> bool): seq<Event> {
    if es == [] then []
    else
      var init, e := es[..|es| - 1], es[|es| - 1];
      if drop(e) then Without(init, drop) else Without(init, drop) + [e]
  }

  predicate IsReceive(e: Event) {
    e.Receive?
  }

  ghost predicate SameDesiredSide(a: State, b: State) {
    && a.requests == b.requests
    && a.tables.devices == b.tables.devices && a.tables.groups == b.tables.groups
    && forall id :: Desired(a.tables, id) == Desired(b.tables, id)
  }

  ghost predicate SameButShadows(a: Tables, b: Tables) {
    a.devices == b.devices && a.groups == b.groups && a.states == b.states
  }

  ghost predicate SameReportedSide(a: State, b: State) {
    && SameButShadows(a.tables, b.tables)
    && forall id :: Reported(a.tables, id) == Reported(b.tables, id)
  }

  lemma RequestsFollow(a: State, b: State, e: Event)
    requires SameDesiredSide(a, b) && Consistent(a.tables) && Consistent(b.tables)
    ensures !e.Receive? ==> Step(a, e).requests == Step(b, e).requests
    ensures e.Receive? ==> Step(a, e).requests == a.requests
  {
    if e.PatchRead? && e.req in a.requests {
      assert Desired(a.tables, a.requests[e.req].id) == Desired(b.tables, a.requests[e.req].id);
    }
  }

  lemma RowsUntouched(s: State, e: Event)
    requires IsPatchStep(e) || e.DeviceCmd? || e.HawkbitCallback?
    ensures Step(s, e).tables.devices == s.tables.devices && Step(s, e).tables.groups == s.tables.groups
  {
  }

  lemma DevicesFollow(a: Tables, b: Tables, e: Event, requests: map<nat, Request>, others: map<nat, Request>)
    requires a.devices == b.devices && a.groups == b.groups && !e.Receive?
    requires a.states.Keys == a.devices.Keys && b.states.Keys == b.devices.Keys
    ensures Step(State(a, requests), e).tables.devices == Step(State(b, others), e).tables.devices
  {
    if IsPatchStep(e) || e.DeviceCmd? || e.HawkbitCallback? {
      RowsUntouched(State(a, requests), e);
      RowsUntouched(State(b, others), e);
    } else if e.DeleteGroup? {
      assert ReassignGroup(a, e.id, "default").devices == ReassignGroup(b, e.id, "default").devices;
    }
  }

  lemma GroupsFollow(a: Tables, b: Tables, e: Event, requests: map<nat, Request>, others: map<nat, Request>)
    requires a.groups == b.groups && !e.Receive?
    ensures Step(State(a, requests), e).tables.groups == Step(State(b, others), e).tables.groups
  {
    if IsPatchStep(e) || e.DeviceCmd? || e.HawkbitCallback? {
      RowsUntouched(State(a, requests), e);
      RowsUntouched(State(b, others), e);
    }
  }

  lemma DesiredSideStep(a: State, b: State, e: Event)
    requires SameDesiredSide(a, b) && Consistent(a.tables) && Consistent(b.tables)
    ensures !e.Receive? ==> SameDesiredSide(Step(a, e), Step(b, e))
    ensures e.Receive? ==> SameDesiredSide(Step(a, e), b)
  {
    RequestsFollow(a, b, e);
    if !e.Receive? {
      DevicesFollow(a.tables, b.tables, e, a.requests, b.requests);
      GroupsFollow(a.tables, b.tables, e, a.requests, b.requests);
    }
    forall id
      ensures !e.Receive? ==> Desired(Step(a, e).tables, id) == Desired(Step(b, e).tables, id)
      ensures e.Receive? ==> Desired(Step(a, e).tables, id) == Desired(a.tables, id)
    {
      DesiredWriters(a, e, id);
      DesiredWriters(b, e, id);
    }
    if e.Receive? { RouteColumns(a.tables, e.topic, e.payload, e.now, ""); }
  }

  lemma DispatchButShadows(a: Tables, b: Tables, id: string, kind: Kind, data: Dict, now: int)
    requires SameButShadows(a, b)
    ensures SameButShadows(Dispatch(a, id, kind, data, now).tables, Dispatch(b, id, kind, data, now).tables)
  {
  }

  lemma RouteButShadows(a: Tables, b: Tables, topic: string, payload: Payload, now: int)
    requires SameButShadows(a, b)
    ensures SameButShadows(Route(a, topic, payload, now).tables, Route(b, topic, payload, now).tables)
  {
    if Parse(topic).Some? && payload.Parsed? && payload.j.Obj? {
      var to := Parse(topic).value;
      DispatchButShadows(a, b, to.id, KindOf(to.channel), payload.j.fields, now);
    }
  }

  lemma StepButShadows(a: State, b: State, e: Event)
    requires SameButShadows(a.tables, b.tables)
    ensures !IsPatchStep(e) ==> SameButShadows(Step(a, e).tables, Step(b, e).tables)
    ensures IsPatchStep(e) ==> SameButShadows(Step(a, e).tables, b.tables)
  {
    if e.Receive? { RouteButShadows(a.tables, b.tables, e.topic, e.payload, e.now); }
  }

  lemma ReportedSideStep(a: State, b: State, e: Event)
    requires SameReportedSide(a, b)
    ensures !IsPatchStep(e) ==> SameReportedSide(Step(a, e), Step(b, e))
    ensures IsPatchStep(e) ==> SameReportedSide(Step(a, e), b)
  {
    StepButShadows(a, b, e);
    forall id
      ensures !IsPatchStep(e) ==> Reported(Step(a, e).tables, id) == Reported(Step(b, e).tables, id)
      ensures IsPatchStep(e) ==> Reported(Step(a, e).tables, id) == Reported(a.tables, id)
    {
      ReportedWriters(a, e, id);
      ReportedWriters(b, e, id);
    }
  }

  /** Erasing every bridge message from any interleaved run changes no desired document and no
      request in flight. */
  lemma {:induction false} BridgeLeavesDesired(es: seq<Event>)
    ensures SameDesiredSide(Run(es), Run(Without(es, IsReceive)))
  {
    if es == [] {
    } else {
      var init, e := es[..|es| - 1], es[|es| - 1];
      BridgeLeavesDesired(init);
      AlwaysConsistent(init);
      AlwaysConsistent(Without(init, IsReceive));
      DesiredSideStep(Run(init), Run(Without(init, IsReceive)), e);
      if !e.Receive? {
        assert Without(es, IsReceive)[..|Without(init, IsReceive)|] == Without(init, IsReceive);
      }
    }
  }

  /** Erasing every patch step changes no reported document and no device state. */
  lemma {:induction false} PatchesLeaveReported(es: seq<Event>)
    ensures SameReportedSide(Run(es), Run(Without(es, IsPatchStep)))
  {
    if es == [] {
    } else {
      var init, e := es[..|es| - 1], es[|es| - 1];
      PatchesLeaveReported(init);
      ReportedSideStep(Run(init), Run(Without(init, IsPatchStep)), e);
      if !IsPatchStep(e) {
        assert Without(es, IsPatchStep)[..|Without(init, IsPatchStep)|] == Without(init, IsPatchStep);
      }
    }
  }
}
