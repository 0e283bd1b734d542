/** The control plane together with the broker and the devices: a FIFO publisher at QoS 1, retained
    messages, devices that disconnect and return, and reports on their way back to the bridge. */
module Fleet {
  import opened Prelude
  import opened Json
  import opened Db
  import opened MqttPub
  import opened Topics
  import opened Bridge
  import opened Shadow
  import opened ControlPlane
  import Order
  import Patches

  /** `queue[..sent]` has reached the broker and waits for its PUBACK. A device is connected when it
      has an inbox; `uplink` holds the reports the broker has and the bridge not yet seen, `told` the
      retained last one of each device. */
  datatype World = World(
    cloud: State, queue: seq<Message>, sent: nat, retained: map<string, Dict>,
    inbox: map<string, seq<Dict>>, uplink: map<string, seq<Dict>>, told: map<string, Dict>)

  datatype Move =
    | Cloud(event: Event)
    | Send
    | Ack
    | Resend
    | Connect(id: string)
    | Disconnect(id: string)
    | Apply(id: string, reported: Dict, retain: bool)
    | Take(id: string, now: int)
    | Resubscribe

  const EMPTY := World(INITIAL, [], 0, map[], map[], map[], map[])

  function Inbox(w: World, id: string): seq<Dict> {
    if id in w.inbox then w.inbox[id] else []
  }

  function Uplink(w: World, id: string): seq<Dict> {
    if id in w.uplink then w.uplink[id] else []
  }

  /** `reported` meets the document `id` is to apply next. */
  predicate Applies(w: World, id: string, reported: Dict) {
    Inbox(w, id) != [] && ComputeDelta(Inbox(w, id)[0], reported) == map[]
  }

  function Report(id: string, reported: Dict, now: int): Event {
    Receive(ReportedTopic(id), Parsed(Obj(reported)), now)
  }

  /** The broker has dropped what waited for the bridge and hands it every retained report. */
  function Resent(told: map<string, Dict>): map<string, seq<Dict>> {
    map id | id in told :: [told[id]]
  }

  /** The broker hands a message to every connected device whose subscription takes it in. */
  function Fanned(inbox: map<string, seq<Dict>>, m: Message): map<string, seq<Dict>> {
    map id | id in inbox :: if Hears(DesiredTopic(id), m.topic) then inbox[id] + [m.payload] else inbox[id]
  }

  /** What a new subscription of `id` is handed: every retained message it takes in, by topic. */
  ghost function HandedOver(retained: map<string, Dict>, id: string): seq<Dict> {
    var topics := Order.Sorted(set topic | topic in retained && Hears(DesiredTopic(id), topic));
    assert forall i | 0 <= i < |topics| :: topics[i] in topics;
    seq(|topics|, i requires 0 <= i < |topics| => retained[topics[i]])
  }

  /** The subscription of an id without wildcards takes in its own topic and no other. */
  lemma HearsOwn(id: string, topic: string)
    requires Publishable(id)
    ensures Hears(DesiredTopic(id), topic) <==> topic == DesiredTopic(id)
  {
    PublishableIff(id);
    PlainHearsItself(DesiredTopic(id), topic);
  }

  lemma HandedOwn(retained: map<string, Dict>, id: string)
    requires Publishable(id)
    ensures HandedOver(retained, id) == if DesiredTopic(id) in retained then [retained[DesiredTopic(id)]] else []
  {
    var own := DesiredTopic(id);
    var heard := set topic | topic in retained && Hears(own, topic);
    forall topic ensures topic in heard <==> topic == own && own in retained { HearsOwn(id, topic); }
    assert heard == if own in retained then {own} else {};
    var topics := Order.Sorted(heard);
    assert forall topic :: topic in topics <==> topic in heard;
    if own in retained {
      assert topics[0] in topics;
    }
  }

  function Answered(w: World, id: string, reported: Dict, retain: bool): World
    requires Inbox(w, id) != []
  {
    w.(inbox := w.inbox[id := w.inbox[id][1..]],
       uplink := w.uplink[id := Uplink(w, id) + [reported]],
       told := if retain then w.told[id := reported] else w.told)
  }

  /** Retain and delivery follow sections 3.3.1.3, 4.3.2 and 4.6 of MQTT 3.1.1: a retained message
      replaces the one before it and is delivered on subscription, unacknowledged messages are sent
      again in order, and a device applies what it receives in order and reports if it has a topic to
      report on. A restart loses the publisher's
      queue and the bridge's session, `Resubscribe` the session alone. */
  ghost function Next(w: World, f: Move): World {
    match f
    case Cloud(e) =>
      var m := Published(w.cloud, e);
      if e.Restart? then w.(cloud := Step(w.cloud, e), queue := [], sent := 0, uplink := Resent(w.told))
      else w.(cloud := Step(w.cloud, e), queue := if m.Some? then w.queue + [m.value] else w.queue)
    case Send =>
      if w.sent >= |w.queue| then w
      else
        var m := w.queue[w.sent];
        w.(sent := w.sent + 1,
           retained := if m.retain then w.retained[m.topic := m.payload] else w.retained,
           inbox := Fanned(w.inbox, m))
    case Ack =>
      if w.sent == 0 || w.queue == [] then w else w.(queue := w.queue[1..], sent := w.sent - 1)
    case Resend => w.(sent := 0)
    case Connect(id) =>
      w.(inbox := w.inbox[id := HandedOver(w.retained, id)])
    case Disconnect(id) => w.(inbox := w.inbox - {id})
    case Apply(id, reported, retain) =>
      if !Applies(w, id, reported) then w
      else if !Publishable(ReportedTopic(id)) then w.(inbox := w.inbox[id := w.inbox[id][1..]])
      else Answered(w, id, reported, retain)
    case Take(id, now) =>
      if Uplink(w, id) == [] then w
      else w.(cloud := Step(w.cloud, Report(id, w.uplink[id][0], now)), uplink := w.uplink[id := w.uplink[id][1..]])
    case Resubscribe => w.(uplink := Resent(w.told))
  }

  predicate IsRestart(f: Move) {
    f.Cloud? && f.event.Restart?
  }

  ghost function Play(fs: seq<Move>): World {
    if fs == [] then EMPTY else Next(Play(fs[..|fs| - 1]), fs[|fs| - 1])
  }

  lemma PlaySnoc(fs: seq<Move>, f: Move)
    ensures Play(fs + [f]) == Next(Play(fs), f)
  {
    assert (fs + [f])[..|fs|] == fs;
  }

  lemma PlayExtended(fs: seq<Move>, ext: seq<Move>)
    requires ext != []
    ensures Play(fs + ext) == Next(Play(fs + ext[..|ext| - 1]), ext[|ext| - 1])
  {
    assert (fs + ext)[..|fs + ext| - 1] == fs + ext[..|ext| - 1];
  }

  /** The events the control plane sees. */
  ghost function CloudEvents(fs: seq<Move>): seq<Event> {
    if fs == [] then []
    else
      var init, f := fs[..|fs| - 1], fs[|fs| - 1];
      if f.Cloud? then CloudEvents(init) + [f.event]
      else if f.Take? && Uplink(Play(init), f.id) != []
      then CloudEvents(init) + [Report(f.id, Play(init).uplink[f.id][0], f.now)]
      else CloudEvents(init)
  }

  lemma CloudAfter(w: World, f: Move)
    ensures Next(w, f).cloud ==
            if f.Cloud? then Step(w.cloud, f.event)
            else if f.Take? && Uplink(w, f.id) != [] then Step(w.cloud, Report(f.id, w.uplink[f.id][0], f.now))
            else w.cloud
  {
  }

  lemma {:induction false} CloudIsRun(fs: seq<Move>)
    ensures Play(fs).cloud == Run(CloudEvents(fs))
  {
    if fs == [] {
    } else {
      var init, f := fs[..|fs| - 1], fs[|fs| - 1];
      CloudIsRun(init);
      CloudAfter(Play(init), f);
      if f.Cloud? {
        Patches.StepLast(CloudEvents(init), f.event, "");
      } else if f.Take? && Uplink(Play(init), f.id) != [] {
        Patches.StepLast(CloudEvents(init), Report(f.id, Play(init).uplink[f.id][0], f.now), "");
      }
    }
  }

  // --- the pipeline ---

  function LastFor(queue: seq<Message>, topic: string): Option<Dict> {
    if queue == [] then None
    else if queue[|queue| - 1].topic == topic then Some(queue[|queue| - 1].payload)
    else LastFor(queue[..|queue| - 1], topic)
  }

  function Retained(w: World, id: string): Option<Dict> {
    if DesiredTopic(id) in w.retained then Some(w.retained[DesiredTopic(id)]) else None
  }

  /** The newest desired document between the publisher and the broker: the last in the queue, else
      the retained one. */
  function Newest(w: World, id: string): Option<Dict> {
    var queued := LastFor(w.queue, DesiredTopic(id));
    if queued.Some? then queued else Retained(w, id)
  }

  /** Desired messages carry the retain flag, and what was sent last for `id` is what is retained. */
  ghost predicate Sound(w: World, id: string) {
    && w.sent <= |w.queue|
    && (forall m | m in w.queue :: m.retain <==> exists d :: m.topic == DesiredTopic(d))
    && (LastFor(w.queue[..w.sent], DesiredTopic(id)).Some? ==>
          Retained(w, id) == LastFor(w.queue[..w.sent], DesiredTopic(id)))
  }

  lemma LastForSnoc(queue: seq<Message>, m: Message, topic: string)
    ensures LastFor(queue + [m], topic) == if m.topic == topic then Some(m.payload) else LastFor(queue, topic)
  {
    assert (queue + [m])[..|queue|] == queue;
  }

  lemma {:induction false} LastForCons(queue: seq<Message>, topic: string)
    requires queue != []
    ensures LastFor(queue, topic) ==
            if LastFor(queue[1..], topic).Some? then LastFor(queue[1..], topic)
            else if queue[0].topic == topic then Some(queue[0].payload) else None
  {
    if |queue| == 1 || queue[|queue| - 1].topic == topic {
    } else {
      LastForCons(queue[..|queue| - 1], topic);
      assert queue[..|queue| - 1][1..] == queue[1..][..|queue| - 2];
    }
  }

  lemma {:induction false} LastForSplit(queue: seq<Message>, n: nat, topic: string)
    requires n <= |queue|
    ensures LastFor(queue, topic) ==
            if LastFor(queue[n..], topic).Some? then LastFor(queue[n..], topic) else LastFor(queue[..n], topic)
  {
    if n == |queue| {
      assert queue[..n] == queue;
    } else {
      LastForSplit(queue[..|queue| - 1], n, topic);
      assert queue[..|queue| - 1][..n] == queue[..n];
      assert queue[..|queue| - 1][n..] == queue[n..][..|queue| - n - 1];
    }
  }

  lemma {:induction false} LastForMember(queue: seq<Message>, m: Message)
    requires m in queue
    ensures LastFor(queue, m.topic).Some?
  {
    var init, last := queue[..|queue| - 1], queue[|queue| - 1];
    assert queue == init + [last];
    if m in init { LastForMember(init, m); }
  }

  lemma PublishedOn(s: State, e: Event, id: string)
    requires Published(s, e).Some?
    ensures Published(s, e).value.topic == DesiredTopic(id) <==> Accepts(s, e, id)
    ensures Accepts(s, e, id) ==> Published(s, e).value.payload == s.requests[e.req].stage.desired
    ensures Published(s, e).value.retain <==> exists d :: Published(s, e).value.topic == DesiredTopic(d)
  {
    NoEcho(s, e, s.tables, Malformed, 0);
    if e.PatchPublish? {
      ChannelTopicInjective(s.requests[e.req].id, id, "state/desired");
    } else {
      CmdIsNotDesired(e.id, id);
    }
  }

  lemma SentMore(queue: seq<Message>, n: nat, topic: string)
    requires n < |queue|
    ensures LastFor(queue[..n + 1], topic) ==
            if queue[n].topic == topic then Some(queue[n].payload) else LastFor(queue[..n], topic)
    ensures queue[n].topic == topic ==> LastFor(queue, topic).Some?
  {
    assert queue[..n + 1] == queue[..n] + [queue[n]];
    LastForSnoc(queue[..n], queue[n], topic);
    LastForSplit(queue, n + 1, topic);
  }

  lemma SendKeeps(w: World, id: string)
    requires Sound(w, id) && w.sent < |w.queue|
    ensures Sound(Next(w, Send), id) && Newest(Next(w, Send), id) == Newest(w, id)
  {
    assert w.queue[w.sent] in w.queue;
    SentMore(w.queue, w.sent, DesiredTopic(id));
  }

  lemma HeadLeaves(queue: seq<Message>, sent: nat, topic: string)
    requires 0 < sent <= |queue|
    ensures var acked, unacked := LastFor(queue[..sent], topic), LastFor(queue[1..][..sent - 1], topic);
            && (unacked.Some? ==> unacked == acked)
            && LastFor(queue, topic) == if LastFor(queue[1..], topic).Some? then LastFor(queue[1..], topic) else acked
  {
    LastForCons(queue, topic);
    LastForCons(queue[..sent], topic);
    LastForSplit(queue[1..], sent - 1, topic);
    assert queue[..sent][1..] == queue[1..][..sent - 1];
  }

  lemma AckKeeps(w: World, id: string)
    requires Sound(w, id) && w.sent > 0
    ensures Sound(Next(w, Ack), id) && Newest(Next(w, Ack), id) == Newest(w, id)
  {
    HeadLeaves(w.queue, w.sent, DesiredTopic(id));
  }

  lemma AppendKeeps(w: World, w': World, m: Message, id: string)
    requires Sound(w, id) && (m.retain <==> exists d :: m.topic == DesiredTopic(d))
    requires w'.queue == w.queue + [m] && w'.sent == w.sent && w'.retained == w.retained
    ensures Sound(w', id)
    ensures Newest(w', id) == if m.topic == DesiredTopic(id) then Some(m.payload) else Newest(w, id)
  {
    LastForSnoc(w.queue, m, DesiredTopic(id));
    assert w'.queue[..w.sent] == w.queue[..w.sent];
  }

  lemma CloudKeeps(w: World, e: Event, id: string)
    requires Sound(w, id) && !e.Restart?
    ensures Sound(Next(w, Cloud(e)), id)
    ensures Newest(Next(w, Cloud(e)), id) ==
            if Accepts(w.cloud, e, id) then Some(w.cloud.requests[e.req].stage.desired) else Newest(w, id)
  {
    var m := Published(w.cloud, e);
    if m.Some? {
      PublishedOn(w.cloud, e, id);
      AppendKeeps(w, Next(w, Cloud(e)), m.value, id);
    }
  }

  lemma OtherFrame(w: World, f: Move)
    requires !f.Cloud? && !f.Send? && !f.Ack?
    ensures Next(w, f).queue == w.queue && Next(w, f).retained == w.retained
    ensures Next(w, f).sent == if f.Resend? then 0 else w.sent
  {
  }

  lemma SameQueueKeeps(w: World, w': World, id: string)
    requires Sound(w, id) && w'.queue == w.queue && w'.retained == w.retained && (w'.sent == w.sent || w'.sent == 0)
    ensures Sound(w', id) && Newest(w', id) == Newest(w, id)
  {
  }

  lemma RestartKeeps(w: World, now: int, id: string)
    requires Sound(w, id)
    ensures var w' := Next(w, Cloud(Restart(now)));
            && Sound(w', id) && Newest(w', id) == Retained(w, id)
            && Desired(w'.cloud.tables, id) == Desired(w.cloud.tables, id)
  {
  }

  lemma MoveKeeps(w: World, f: Move, id: string)
    requires Sound(w, id)
    ensures Sound(Next(w, f), id)
    ensures Newest(Next(w, f), id) ==
            if f.Cloud? && Accepts(w.cloud, f.event, id) then Some(w.cloud.requests[f.event.req].stage.desired)
            else if IsRestart(f) then Retained(w, id)
            else Newest(w, id)
  {
    match f {
      case Cloud(e) => if e.Restart? { RestartKeeps(w, e.now, id); } else { CloudKeeps(w, e, id); }
      case Send => if w.sent < |w.queue| { SendKeeps(w, id); }
      case Ack => if w.sent > 0 { AckKeeps(w, id); }
      case _ =>
        OtherFrame(w, f);
        SameQueueKeeps(w, Next(w, f), id);
    }
  }

  /** Whatever is dropped, sent again, acknowledged or interleaved, the newest document in the pipeline
      of an id is the one in the last publish the client accepted in this process life. */
  lemma {:induction false} PipelineCarriesLastAccepted(fs: seq<Move>, id: string)
    ensures Sound(Play(fs), id)
    ensures LastAccepted(CloudEvents(fs), id).Some? ==> Newest(Play(fs), id) == LastAccepted(CloudEvents(fs), id)
    ensures (forall f | f in fs :: !IsRestart(f)) ==> Newest(Play(fs), id) == LastAccepted(CloudEvents(fs), id)
  {
    if fs == [] {
    } else {
      var init, f := fs[..|fs| - 1], fs[|fs| - 1];
      assert fs == init + [f];
      PipelineCarriesLastAccepted(init, id);
      CloudIsRun(init);
      MoveKeeps(Play(init), f, id);
      if f.Cloud? {
        Patches.StepLast(CloudEvents(init), f.event, id);
      } else if f.Take? && Uplink(Play(init), f.id) != [] {
        Patches.StepLast(CloudEvents(init), Report(f.id, Play(init).uplink[f.id][0], f.now), id);
      }
    }
  }

  /** Healing, seen from the broker: with publishes in commit order, once one is accepted the newest
      document in the pipeline is the stored one, until the next commit, deletion or restart. */
  lemma PipelineHeals(fs: seq<Move>, id: string)
    requires InCommitOrder(CloudEvents(fs), id) && Synced(CloudEvents(fs), id)
    ensures Newest(Play(fs), id) == Some(Desired(Play(fs).cloud.tables, id))
  {
    PipelineCarriesLastAccepted(fs, id);
    CloudIsRun(fs);
    Patches.SyncedHeals(CloudEvents(fs), id);
  }

  function Unsent(w: World, id: string): Option<Dict> {
    if w.sent <= |w.queue| then LastFor(w.queue[w.sent..], DesiredTopic(id)) else None
  }

  lemma Queued(w: World, id: string)
    requires Sound(w, id)
    ensures Newest(w, id) == if Unsent(w, id).Some? then Unsent(w, id) else Retained(w, id)
  {
    LastForSplit(w.queue, w.sent, DesiredTopic(id));
  }

  // --- what is retained ---

  ghost predicate Genuine(w: World, id: string, written: seq<Dict>) {
    && (forall m | m in w.queue && m.topic == DesiredTopic(id) :: m.payload in written)
    && (Retained(w, id).Some? ==> Retained(w, id).value in written)
  }

  ghost predicate DesiredOnly(retained: map<string, Dict>) {
    forall topic | topic in retained :: exists d :: topic == DesiredTopic(d)
  }

  lemma GenuineCloud(w: World, e: Event, id: string, written: seq<Dict>)
    requires Genuine(w, id, written)
    requires Accepts(w.cloud, e, id) ==> w.cloud.requests[e.req].stage.desired in written
    ensures Genuine(Next(w, Cloud(e)), id, written)
  {
    if Published(w.cloud, e).Some? { PublishedOn(w.cloud, e, id); }
  }

  lemma GenuineSend(w: World, id: string, written: seq<Dict>)
    requires Genuine(w, id, written) && DesiredOnly(w.retained) && Sound(w, id) && w.sent < |w.queue|
    ensures Genuine(Next(w, Send), id, written) && DesiredOnly(Next(w, Send).retained)
  {
    assert w.queue[w.sent] in w.queue;
  }

  lemma GenuineAck(w: World, id: string, written: seq<Dict>)
    requires Genuine(w, id, written)
    ensures Genuine(Next(w, Ack), id, written)
  {
  }

  lemma GenuineStep(w: World, f: Move, id: string, written: seq<Dict>)
    requires Genuine(w, id, written) && DesiredOnly(w.retained) && Sound(w, id)
    requires f.Cloud? && Accepts(w.cloud, f.event, id) ==> w.cloud.requests[f.event.req].stage.desired in written
    ensures Genuine(Next(w, f), id, written) && DesiredOnly(Next(w, f).retained)
  {
    match f {
      case Cloud(e) => GenuineCloud(w, e, id, written);
      case Send => if w.sent < |w.queue| { GenuineSend(w, id, written); }
      case Ack => GenuineAck(w, id, written);
      case _ => OtherFrame(w, f);
    }
  }

  lemma GenuineMonotone(w: World, id: string, before: seq<Dict>, after: seq<Dict>)
    requires Genuine(w, id, before) && forall d | d in before :: d in after
    ensures Genuine(w, id, after)
  {
  }

  lemma AcceptedWasCommitted(fs: seq<Move>, e: Event, id: string)
    requires Accepts(Play(fs).cloud, e, id)
    ensures Play(fs).cloud.requests[e.req].stage.desired in Writes(AllCommits(CloudEvents(fs), id))
  {
    CloudIsRun(fs);
    Patches.PublishedWasCommitted(CloudEvents(fs), id);
  }

  lemma CommitsGrow(fs: seq<Move>, f: Move, id: string)
    ensures var before, after := Writes(AllCommits(CloudEvents(fs), id)), Writes(AllCommits(CloudEvents(fs + [f]), id));
            forall d | d in before :: d in after
  {
    var es := CloudEvents(fs);
    assert (fs + [f])[..|fs|] == fs;
    if CloudEvents(fs + [f]) != es {
      var e := CloudEvents(fs + [f])[|es|];
      Patches.StepLast(es, e, id);
      if Commits(Run(es), e, id) { Patches.DeltasSnoc(AllCommits(es, id), CommitmentOf(Run(es), e)); }
    }
  }

  lemma RetainedMove(fs: seq<Move>, f: Move, id: string, written: seq<Dict>)
    requires written == Writes(AllCommits(CloudEvents(fs), id))
    requires Genuine(Play(fs), id, written) && DesiredOnly(Play(fs).retained)
    ensures Genuine(Play(fs + [f]), id, written) && DesiredOnly(Play(fs + [f]).retained)
  {
    PipelineCarriesLastAccepted(fs, id);
    if f.Cloud? && Accepts(Play(fs).cloud, f.event, id) { AcceptedWasCommitted(fs, f.event, id); }
    GenuineStep(Play(fs), f, id, written);
    PlaySnoc(fs, f);
  }

  lemma RetainedStep(fs: seq<Move>, f: Move, id: string)
    requires Genuine(Play(fs), id, Writes(AllCommits(CloudEvents(fs), id))) && DesiredOnly(Play(fs).retained)
    ensures Genuine(Play(fs + [f]), id, Writes(AllCommits(CloudEvents(fs + [f]), id)))
    ensures DesiredOnly(Play(fs + [f]).retained)
  {
    var before, after := Writes(AllCommits(CloudEvents(fs), id)), Writes(AllCommits(CloudEvents(fs + [f]), id));
    RetainedMove(fs, f, id, before);
    CommitsGrow(fs, f, id);
    GenuineMonotone(Play(fs + [f]), id, before, after);
  }

  /** Under any interleaving only documents that were committed for the id wait in its queue or are
      retained for it, and nothing but desired state is retained at all. */
  lemma {:induction false} RetainedWasCommitted(fs: seq<Move>, id: string)
    ensures Genuine(Play(fs), id, Writes(AllCommits(CloudEvents(fs), id)))
    ensures DesiredOnly(Play(fs).retained)
  {
    if fs == [] {
    } else {
      var init, f := fs[..|fs| - 1], fs[|fs| - 1];
      RetainedWasCommitted(init, id);
      assert fs == init + [f];
      RetainedStep(init, f, id);
    }
  }

  /** Deleting a device and creating it again empties its shadow but not the broker: the last document
      published for the old life is still the one its successor will be given. */
  lemma RecreatedKeepsPipeline(fs: seq<Move>, id: string, row: DeviceRow)
    ensures var fs' := fs + [Cloud(DeleteDevice(id))] + [Cloud(PostDevice(id, row))];
            && id in Play(fs').cloud.tables.devices && Desired(Play(fs').cloud.tables, id) == map[]
            && Newest(Play(fs'), id) == Newest(Play(fs), id)
            && (LastAccepted(CloudEvents(fs), id).Some? ==> Newest(Play(fs'), id) == LastAccepted(CloudEvents(fs), id))
  {
    var deleted, created := Cloud(DeleteDevice(id)), Cloud(PostDevice(id, row));
    PipelineCarriesLastAccepted(fs, id);
    PlaySnoc(fs, deleted);
    PlaySnoc(fs + [deleted], created);
    MoveKeeps(Play(fs), deleted, id);
    MoveKeeps(Play(fs + [deleted]), created, id);
    CloudIsRun(fs);
    AlwaysConsistent(CloudEvents(fs));
  }
}
