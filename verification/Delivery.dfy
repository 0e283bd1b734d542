/** What the devices end up with: convergence of a report and a desired document, and delivery runs that
    come to rest. */
module Delivery {
  import opened Prelude
  import opened Json
  import opened Db
  import opened Topics
  import opened Bridge
  import opened Shadow
  import opened ControlPlane
  import opened Fleet
  import DeviceLog
  import Patches

  /** No document and no report of `id` is on its way, whatever else the queue holds. */
  predicate AtRest(w: World, id: string) {
    LastFor(w.queue, DesiredTopic(id)).None? && Inbox(w, id) == [] && Uplink(w, id) == []
  }

  /** Nothing waits for `id` on any leg, and the queue is empty. */
  predicate Quiet(w: World, id: string) {
    w.queue == [] && Inbox(w, id) == [] && Uplink(w, id) == []
  }

  function Told(w: World, id: string): Option<Dict> {
    if id in w.told then Some(w.told[id]) else None
  }

  /** The last report on its way to the row, else the one in it. */
  function NewestReport(w: World, id: string): Dict {
    var uplink := Uplink(w, id);
    if uplink != [] then uplink[|uplink| - 1] else Reported(w.cloud.tables, id)
  }

  /** What matters of the way to the device and back: the retained document, the documents it is still
      to be given, its retained report and its newest one. */
  datatype Legs = Legs(desired: Option<Dict>, inbox: seq<Dict>, told: Option<Dict>, report: Dict)

  function LegsOf(w: World, id: string): Legs {
    Legs(Retained(w, id), Inbox(w, id), Told(w, id), NewestReport(w, id))
  }

  /** The device is still to be given the retained document, or its newest report meets it and, if
      `kept`, is retained. */
  predicate Linked(l: Legs, kept: bool) {
    l.desired.Some? ==>
      if l.inbox != [] then l.inbox[|l.inbox| - 1] == l.desired.value
      else ComputeDelta(l.desired.value, l.report) == map[] && (kept ==> l.told == Some(l.report))
  }

  predicate Chain(w: World, id: string, kept: bool) {
    Linked(LegsOf(w, id), kept)
  }

  /** The device retains its reports, as `kept` says, or else the bridge keeps its session. */
  predicate Safe(f: Move, id: string, kept: bool) {
    if kept then f.Apply? && f.id == id ==> f.retain else f != Resubscribe && !IsRestart(f)
  }

  /** The device stays registered, and nobody else reports in its name. */
  predicate Unspoken(f: Move, id: string) {
    && f != Cloud(DeleteDevice(id))
    && (f.Cloud? && f.event.Receive? ==>
          var to := Parse(f.event.topic);
          to.None? || to.value.id != id || KindOf(to.value.channel) != Reports)
  }

  /** It stays connected as well. */
  predicate Undisturbed(f: Move, id: string) {
    f != Disconnect(id) && Unspoken(f, id)
  }

  /** The bridge takes the reports of `who` for reports of `id` exactly when they are the same id and
      it has no slash. */
  lemma ReportTargets(who: string, id: string)
    ensures var to := Parse(ReportedTopic(who));
            && to.Some?
            && (to.value.id == id && KindOf(to.value.channel) == Reports <==> who == id && '/' !in id)
  {
    RoundTripIffSlashFree(who, "state/reported");
    RebuildAccepted(ReportedTopic(who));
    ChannelTopicInjective(who, id, "state/reported");
  }

  lemma ReportReaches(s: State, who: string, reported: Dict, now: int, id: string)
    requires id in s.tables.devices
    ensures var s' := Step(s, Report(who, reported, now));
            && id in s'.tables.devices
            && Reported(s'.tables, id) == if who == id && '/' !in id then reported else Reported(s.tables, id)
  {
    ReportTargets(who, id);
    RouteColumns(s.tables, ReportedTopic(who), Parsed(Obj(reported)), now, id);
  }

  lemma ReportedAfterCloud(s: State, e: Event, id: string)
    requires Unspoken(Cloud(e), id)
    ensures Reported(Step(s, e).tables, id) == Reported(s.tables, id)
  {
    ReportedWriters(s, e, id);
  }

  lemma StaysRegistered(s: State, e: Event, id: string)
    requires id in s.tables.devices && e != DeleteDevice(id)
    ensures id in Step(s, e).tables.devices
  {
    if e.Receive? { RouteColumns(s.tables, e.topic, e.payload, e.now, id); }
  }

  lemma RegisteredAfter(w: World, f: Move, id: string)
    requires id in w.cloud.tables.devices && Unspoken(f, id)
    ensures id in Next(w, f).cloud.tables.devices
  {
    CloudAfter(w, f);
    if f.Cloud? {
      StaysRegistered(w.cloud, f.event, id);
    } else if f.Take? && Uplink(w, f.id) != [] {
      StaysRegistered(w.cloud, Report(f.id, w.uplink[f.id][0], f.now), id);
    }
  }

  lemma LegsSame(w: World, w': World, id: string)
    requires w'.retained == w.retained && w'.inbox == w.inbox && w'.told == w.told && w'.uplink == w.uplink
    requires Reported(w'.cloud.tables, id) == Reported(w.cloud.tables, id)
    ensures LegsOf(w', id) == LegsOf(w, id)
  {
  }

  lemma LegsAfterCloud(w: World, e: Event, id: string)
    requires Unspoken(Cloud(e), id) && !e.Restart?
    ensures LegsOf(Next(w, Cloud(e)), id) == LegsOf(w, id)
  {
    ReportedAfterCloud(w.cloud, e, id);
    LegsSame(w, Next(w, Cloud(e)), id);
  }

  lemma LegsAfterReset(w: World, f: Move, id: string)
    requires f == Resubscribe || IsRestart(f)
    ensures var l, l' := LegsOf(w, id), LegsOf(Next(w, f), id);
            l' == l.(report := if l.told.Some? then l.told.value else Reported(w.cloud.tables, id))
  {
  }

  lemma InboxAfterSend(w: World, id: string)
    requires id in w.inbox && w.sent < |w.queue|
    ensures var m := w.queue[w.sent];
            Inbox(Next(w, Send), id) == Inbox(w, id) + if Hears(DesiredTopic(id), m.topic) then [m.payload] else []
  {
  }

  lemma RetainedAfterSend(w: World, id: string)
    requires Sound(w, id) && w.sent < |w.queue|
    ensures var m := w.queue[w.sent];
            Retained(Next(w, Send), id) == if m.topic == DesiredTopic(id) then Some(m.payload) else Retained(w, id)
  {
    assert w.queue[w.sent] in w.queue;
  }

  lemma ReportsAfterSend(w: World, id: string)
    ensures Told(Next(w, Send), id) == Told(w, id) && NewestReport(Next(w, Send), id) == NewestReport(w, id)
  {
    CloudAfter(w, Send);
  }

  lemma LegsAfterSend(w: World, id: string)
    requires Sound(w, id) && id in w.inbox && w.sent < |w.queue| && Publishable(id)
    ensures var l, l', m := LegsOf(w, id), LegsOf(Next(w, Send), id), w.queue[w.sent];
            l' == if m.topic == DesiredTopic(id)
                  then l.(desired := Some(m.payload), inbox := l.inbox + [m.payload]) else l
  {
    HearsOwn(id, w.queue[w.sent].topic);
    InboxAfterSend(w, id);
    RetainedAfterSend(w, id);
    ReportsAfterSend(w, id);
  }

  lemma LegsAfterConnect(w: World, id: string)
    requires Publishable(id)
    ensures var l := LegsOf(w, id);
            LegsOf(Next(w, Connect(id)), id) == l.(inbox := if l.desired.Some? then [l.desired.value] else [])
  {
    HandedOwn(w.retained, id);
  }

  lemma LegsAnswered(w: World, id: string, who: string, reported: Dict, retain: bool)
    requires Inbox(w, who) != []
    ensures var l := LegsOf(w, id);
            LegsOf(Answered(w, who, reported, retain), id) ==
            if who == id then Legs(l.desired, l.inbox[1..], if retain then Some(reported) else l.told, reported) else l
  {
  }

  /** A disconnect loses what was queued for the device and nothing else; when it connects again it is handed
      what the broker retains for it. */
  lemma DisconnectLoses(w: World, id: string)
    requires Publishable(id)
    ensures var away := Next(w, Disconnect(id));
            && away == w.(inbox := w.inbox - {id})
            && Inbox(Next(away, Connect(id)), id) ==
               if Retained(w, id).Some? then [Retained(w, id).value] else []
  {
    HandedOwn(w.retained, id);
  }

  lemma LegsAfterApply(w: World, id: string, who: string, reported: Dict, retain: bool)
    requires Publishable(id)
    ensures var l, l' := LegsOf(w, id), LegsOf(Next(w, Apply(who, reported, retain)), id);
            l' == if who == id && l.inbox != [] && ComputeDelta(l.inbox[0], reported) == map[]
                  then Legs(l.desired, l.inbox[1..], if retain then Some(reported) else l.told, reported)
                  else l
  {
    PublishableIff(id);
    if Inbox(w, who) != [] { LegsAnswered(w, id, who, reported, retain); }
  }

  lemma LegsAfterTake(w: World, id: string, who: string, now: int)
    requires id in w.cloud.tables.devices && '/' !in id
    ensures LegsOf(Next(w, Take(who, now)), id) == LegsOf(w, id)
  {
    if Uplink(w, who) != [] { ReportReaches(w.cloud, who, w.uplink[who][0], now, id); }
  }

  lemma LegsAfterOther(w: World, f: Move, id: string)
    requires f.Ack? || f.Resend? || ((f.Connect? || f.Disconnect?) && f.id != id)
    ensures LegsOf(Next(w, f), id) == LegsOf(w, id)
  {
  }

  /** What the moves do to the legs of a connected, registered device that nobody disturbs. */
  predicate Moved(l: Legs, l': Legs, f: Move, id: string) {
    || l' == l
    || (match f
        case Send => l'.desired.Some? && l' == l.(desired := l'.desired, inbox := l.inbox + [l'.desired.value])
        case Apply(who, reported, retain) =>
          && who == id && l.inbox != [] && ComputeDelta(l.inbox[0], reported) == map[]
          && l' == Legs(l.desired, l.inbox[1..], if retain then Some(reported) else l.told, reported)
        case Connect(_) => l' == l.(inbox := if l.desired.Some? then [l.desired.value] else [])
        case _ =>
          && (f == Resubscribe || IsRestart(f))
          && l' == l.(report := l'.report) && (l.told.Some? ==> l'.report == l.told.value))
  }

  lemma LegsMove(w: World, f: Move, id: string)
    requires Sound(w, id) && id in w.inbox && id in w.cloud.tables.devices && Undisturbed(f, id)
    requires '/' !in id && Publishable(id)
    ensures Moved(LegsOf(w, id), LegsOf(Next(w, f), id), f, id)
  {
    match f {
      case Cloud(e) => if e.Restart? { LegsAfterReset(w, f, id); } else { LegsAfterCloud(w, e, id); }
      case Resubscribe => LegsAfterReset(w, f, id);
      case Send => if w.sent < |w.queue| { LegsAfterSend(w, id); }
      case Apply(who, reported, retain) => LegsAfterApply(w, id, who, reported, retain);
      case Take(who, now) => LegsAfterTake(w, id, who, now);
      case Connect(who) => if who == id { LegsAfterConnect(w, id); } else { LegsAfterOther(w, f, id); }
      case _ => LegsAfterOther(w, f, id);
    }
  }

  lemma MovedStaysLinked(l: Legs, l': Legs, f: Move, id: string, kept: bool)
    requires Moved(l, l', f, id) && Linked(l, kept) && Safe(f, id, kept)
    ensures Linked(l', kept)
  {
  }

  lemma ChainFollows(w: World, f: Move, id: string, kept: bool)
    requires Sound(w, id) && id in w.inbox && id in w.cloud.tables.devices && Chain(w, id, kept)
    requires Undisturbed(f, id) && Safe(f, id, kept) && '/' !in id && Publishable(id)
    ensures Chain(Next(w, f), id, kept)
  {
    LegsMove(w, f, id);
    MovedStaysLinked(LegsOf(w, id), LegsOf(Next(w, f), id), f, id, kept);
  }

  lemma UnsentAfterCloud(w: World, e: Event, id: string)
    requires Sound(w, id) && !e.Restart?
    requires Accepts(w.cloud, e, id) || Unsent(w, id).Some?
    ensures Unsent(Next(w, Cloud(e)), id).Some?
  {
    var m := Published(w.cloud, e);
    if m.Some? {
      PublishedOn(w.cloud, e, id);
      assert (w.queue + [m.value])[w.sent..] == w.queue[w.sent..] + [m.value];
      LastForSnoc(w.queue[w.sent..], m.value, DesiredTopic(id));
    }
  }

  lemma UnsentAfterSend(w: World, id: string)
    requires w.sent < |w.queue| && Unsent(w, id).Some?
    ensures Unsent(Next(w, Send), id).Some? || w.queue[w.sent].topic == DesiredTopic(id)
  {
    LastForCons(w.queue[w.sent..], DesiredTopic(id));
    assert w.queue[w.sent..][1..] == w.queue[w.sent + 1..];
  }

  lemma UnsentAfterAck(w: World, id: string)
    requires 0 < w.sent <= |w.queue|
    ensures Unsent(Next(w, Ack), id) == Unsent(w, id)
  {
    assert w.queue[1..][w.sent - 1..] == w.queue[w.sent..];
  }

  lemma UnsentAfterResend(w: World, id: string)
    requires w.sent <= |w.queue| && Unsent(w, id).Some?
    ensures Unsent(Next(w, Resend), id) == Unsent(w, id)
  {
    LastForSplit(w.queue, w.sent, DesiredTopic(id));
    assert w.queue[0..] == w.queue;
  }

  lemma UnsentAfterOther(w: World, f: Move, id: string)
    requires !f.Cloud? && !f.Send? && !f.Ack? && !f.Resend?
    ensures Unsent(Next(w, f), id) == Unsent(w, id)
  {
  }

  /** A document that is still to be sent stays so, or starts the chain. */
  lemma UnsentFollows(w: World, f: Move, id: string, kept: bool)
    requires Sound(w, id) && id in w.inbox && Unsent(w, id).Some? && Undisturbed(f, id) && !IsRestart(f)
    requires Publishable(id)
    ensures Unsent(Next(w, f), id).Some? || Chain(Next(w, f), id, kept)
  {
    match f {
      case Cloud(e) => UnsentAfterCloud(w, e, id);
      case Send =>
        if w.sent < |w.queue| {
          UnsentAfterSend(w, id);
          if w.queue[w.sent].topic == DesiredTopic(id) { LegsAfterSend(w, id); }
        }
      case Ack => if w.sent > 0 { UnsentAfterAck(w, id); }
      case Resend => UnsentAfterResend(w, id);
      case _ => UnsentAfterOther(w, f, id);
    }
  }

  /** Connected and registered with the chain in place, or, if `owed`, with a document still to be sent. */
  ghost predicate OnTrack(w: World, id: string, owed: bool, kept: bool) {
    && Sound(w, id) && id in w.inbox && id in w.cloud.tables.devices
    && (Chain(w, id, kept) || (owed && Unsent(w, id).Some?))
  }

  lemma StaysConnected(w: World, f: Move, id: string)
    requires id in w.inbox && f != Disconnect(id)
    ensures id in Next(w, f).inbox
  {
  }

  lemma OnTrackMove(w: World, f: Move, id: string, owed: bool, kept: bool)
    requires OnTrack(w, id, owed, kept) && '/' !in id && Publishable(id)
    requires Undisturbed(f, id) && Safe(f, id, kept) && (owed ==> !IsRestart(f))
    ensures OnTrack(Next(w, f), id, owed, kept)
  {
    MoveKeeps(w, f, id);
    StaysConnected(w, f, id);
    if Chain(w, id, kept) { ChainFollows(w, f, id, kept); } else { UnsentFollows(w, f, id, kept); }
    RegisteredAfter(w, f, id);
  }

  /** `id` connects, or a publish for it is accepted while it is connected. */
  predicate Engages(w: World, f: Move, id: string) {
    f == Connect(id) || (f.Cloud? && id in w.inbox && Accepts(w.cloud, f.event, id))
  }

  lemma OnTrackOnceEngaged(before: seq<Move>, f: Move, id: string, kept: bool)
    requires id in Play(before).cloud.tables.devices && Engages(Play(before), f, id) && Publishable(id)
    ensures OnTrack(Play(before + [f]), id, f.Cloud?, kept)
  {
    PlaySnoc(before, f);
    PipelineCarriesLastAccepted(before, id);
    MoveKeeps(Play(before), f, id);
    if f.Cloud? { UnsentAfterCloud(Play(before), f.event, id); } else { LegsAfterConnect(Play(before), id); }
  }

  lemma {:induction false} StaysOnTrack(start: seq<Move>, after: seq<Move>, id: string, owed: bool, kept: bool)
    requires OnTrack(Play(start), id, owed, kept) && '/' !in id && Publishable(id)
    requires forall m | m in after :: Undisturbed(m, id) && Safe(m, id, kept) && (owed ==> !IsRestart(m))
    ensures OnTrack(Play(start + after), id, owed, kept)
  {
    if after == [] {
      assert start + after == start;
    } else {
      var init, m := after[..|after| - 1], after[|after| - 1];
      assert after == init + [m];
      StaysOnTrack(start, init, id, owed, kept);
      PlayExtended(start, after);
      OnTrackMove(Play(start + init), m, id, owed, kept);
    }
  }

  lemma OnTrackMeets(w: World, id: string, owed: bool, kept: bool)
    requires OnTrack(w, id, owed, kept) && AtRest(w, id)
    ensures Newest(w, id) == Retained(w, id)
    ensures Retained(w, id).Some? ==> ComputeDelta(Retained(w, id).value, Reported(w.cloud.tables, id)) == map[]
  {
    LastForSplit(w.queue, w.sent, DesiredTopic(id));
  }

  /** No document of `id` is on its way or retained, and no report of it either. */
  ghost predicate Unserved(w: World, id: string) {
    Sound(w, id) && Newest(w, id) == None && Uplink(w, id) == [] && id !in w.told
  }

  lemma UnreportedMove(w: World, f: Move, id: string)
    requires Uplink(w, id) == [] && id !in w.told && !Publishable(ReportedTopic(id))
    ensures Uplink(Next(w, f), id) == [] && id !in Next(w, f).told
  {
  }

  lemma UnservedMove(w: World, f: Move, id: string)
    requires Unserved(w, id) && !Publishable(id)
    ensures Unserved(Next(w, f), id)
  {
    PublishableIff(id);
    MoveKeeps(w, f, id);
    UnreportedMove(w, f, id);
  }

  /** For an id with a wildcard in it no document is ever queued or retained, and whatever its
      subscription takes in, it never reports. */
  lemma {:induction false} WildcardIdUnserved(fs: seq<Move>, id: string)
    requires !Publishable(id)
    ensures Unserved(Play(fs), id)
  {
    if fs == [] {
    } else {
      WildcardIdUnserved(fs[..|fs| - 1], id);
      UnservedMove(Play(fs[..|fs| - 1]), fs[|fs| - 1], id);
    }
  }

  /** Convergence, under any interleaving and any losses: a registered device has connected, or was
      connected when a publish for it was accepted. Once it has stayed undisturbed and nothing of it is
      under way, however busy the rest of the fleet, what it has reported meets what the broker retains
      for it, which is the last document accepted in this process life. If it retains its reports the
      bridge may lose its session in between, and after a connect the whole process may restart. */
  lemma QuietMeetsLastAccepted(before: seq<Move>, f: Move, after: seq<Move>, id: string, kept: bool)
    requires id in Play(before).cloud.tables.devices && '/' !in id && Engages(Play(before), f, id)
    requires forall m | m in after :: Undisturbed(m, id) && Safe(m, id, kept) && (f.Cloud? ==> !IsRestart(m))
    requires AtRest(Play(before + [f] + after), id)
    ensures var fs := before + [f] + after;
            var retained, last := Retained(Play(fs), id), LastAccepted(CloudEvents(fs), id);
            && (retained.Some? ==> ComputeDelta(retained.value, Reported(Play(fs).cloud.tables, id)) == map[])
            && (last.Some? ==> retained == last)
  {
    if Publishable(id) {
      OnTrackOnceEngaged(before, f, id, kept);
      StaysOnTrack(before + [f], after, id, f.Cloud?, kept);
      OnTrackMeets(Play(before + [f] + after), id, f.Cloud?, kept);
    } else {
      WildcardIdUnserved(before + [f] + after, id);
    }
    PipelineCarriesLastAccepted(before + [f] + after, id);
  }

  /** With publishes in commit order and the last of them accepted, the shadow delta is then empty. */
  lemma Convergence(before: seq<Move>, f: Move, after: seq<Move>, id: string, kept: bool)
    requires id in Play(before).cloud.tables.devices && '/' !in id && Engages(Play(before), f, id)
    requires forall m | m in after :: Undisturbed(m, id) && Safe(m, id, kept) && (f.Cloud? ==> !IsRestart(m))
    requires AtRest(Play(before + [f] + after), id)
    requires var es := CloudEvents(before + [f] + after); InCommitOrder(es, id) && Synced(es, id)
    ensures var t := Play(before + [f] + after).cloud.tables;
            ComputeDelta(Desired(t, id), Reported(t, id)) == map[]
  {
    QuietMeetsLastAccepted(before, f, after, id, kept);
    PipelineHeals(before + [f] + after, id);
  }

  // --- ids that cannot be served ---

  /** With a slash in its id a device never converges, unless all it is asked for is null. */
  lemma SlashedIdConvergesIff(fs: seq<Move>, id: string)
    requires '/' in id
    ensures var t := Play(fs).cloud.tables;
            ComputeDelta(Desired(t, id), Reported(t, id)) == map[] <==>
            forall k | k in Desired(t, id) :: Desired(t, id)[k] == Null
  {
    CloudIsRun(fs);
    DeviceLog.SlashedIdUnheard(CloudEvents(fs), id);
    DeltaEmptyIffSatisfied(Desired(Play(fs).cloud.tables, id), map[]);
  }

  /** Who is given the document of a slash-free id `b` when it is sent: its own device and no other,
      except that a device with the id "+" is given everyone's. */
  lemma SendReachesIff(w: World, a: string, b: string)
    requires a in w.inbox && w.sent < |w.queue| && w.queue[w.sent].topic == DesiredTopic(b)
    requires '/' !in b && Publishable(b)
    ensures Inbox(Next(w, Send), a) == Inbox(w, a) + if a == b || a == "+" then [w.queue[w.sent].payload] else []
  {
    DesiredHeardIff(a, b);
    InboxAfterSend(w, a);
  }

  /** The broker passes no message on whose topic holds a wildcard. */
  predicate Brokered(f: Move) {
    f.Cloud? && f.event.Receive? ==> Publishable(f.event.topic)
  }

  lemma {:induction false} EventsBrokered(fs: seq<Move>)
    requires forall f | f in fs :: Brokered(f)
    ensures forall e | e in CloudEvents(fs) :: e.Receive? ==> Publishable(e.topic)
  {
    if fs == [] {
    } else {
      var init, f := fs[..|fs| - 1], fs[|fs| - 1];
      assert fs == init + [f];
      EventsBrokered(init);
      assert Brokered(f);
      if f.Take? {
        PublishableIff(f.id);
        if !Publishable(f.id) { WildcardIdUnserved(init, f.id); }
      }
    }
  }

  /** With a wildcard in its id a device never converges either, unless all it is asked for is null. */
  lemma WildcardIdConvergesIff(fs: seq<Move>, id: string)
    requires !Publishable(id) && forall f | f in fs :: Brokered(f)
    ensures var t := Play(fs).cloud.tables;
            ComputeDelta(Desired(t, id), Reported(t, id)) == map[] <==>
            forall k | k in Desired(t, id) :: Desired(t, id)[k] == Null
  {
    CloudIsRun(fs);
    EventsBrokered(fs);
    DeviceLog.WildcardIdUnheard(CloudEvents(fs), id);
    DeltaEmptyIffSatisfied(Desired(Play(fs).cloud.tables, id), map[]);
  }

  // --- delivery ends ---

  /** `f` moves something along on its way to or from `id`. */
  predicate Delivers(w: World, f: Move, id: string) {
    match f
    case Send => w.sent < |w.queue|
    case Ack => 0 < w.sent <= |w.queue|
    case Apply(who, reported, _) => who == id && Applies(w, id, reported)
    case Take(who, _) => who == id && Uplink(w, id) != []
    case _ => false
  }

  /** Messages not yet sent, sent and unacknowledged, waiting at the device, reports under way. */
  function Measure(w: World, id: string): int {
    4 * (|w.queue| - w.sent) + w.sent + 2 * |Inbox(w, id)| + |Uplink(w, id)|
  }

  lemma DeliveryDecreases(w: World, f: Move, id: string)
    requires w.sent <= |w.queue| && Delivers(w, f, id)
    ensures 0 <= Measure(Next(w, f), id) < Measure(w, id)
  {
  }

  ghost predicate DeliveryRun(fs: seq<Move>, ext: seq<Move>, id: string) {
    ext == [] ||
    var init, f := ext[..|ext| - 1], ext[|ext| - 1];
    DeliveryRun(fs, init, id) && Delivers(Play(fs + init), f, id)
  }

  /** Every run of delivery steps is finite, with a bound known when it starts. */
  lemma {:induction false} DeliveryTerminates(fs: seq<Move>, ext: seq<Move>, id: string)
    requires DeliveryRun(fs, ext, id)
    ensures |ext| + Measure(Play(fs + ext), id) <= Measure(Play(fs), id)
  {
    if ext == [] {
      assert fs + ext == fs;
    } else {
      var init, f := ext[..|ext| - 1], ext[|ext| - 1];
      DeliveryTerminates(fs, init, id);
      PipelineCarriesLastAccepted(fs + init, id);
      PlayExtended(fs, ext);
      DeliveryDecreases(Play(fs + init), f, id);
    }
  }

  lemma SelfSatisfies(doc: Dict)
    ensures ComputeDelta(doc, doc) == map[]
  {
    DeltaEmptyIffSatisfied(doc, doc);
    forall k | k in doc ensures PyEq(doc[k], doc[k]) { PyEqReflexive(doc[k]); }
  }

  /** Delivery never gets stuck: while something is under way some delivery step is possible. */
  lemma DeliveryPossible(w: World, id: string) returns (f: Move)
    requires w.sent <= |w.queue| && !Quiet(w, id)
    ensures Delivers(w, f, id)
  {
    if w.sent < |w.queue| {
      f := Send;
    } else if w.queue != [] {
      f := Ack;
    } else if Inbox(w, id) != [] {
      var doc := Inbox(w, id)[0];
      SelfSatisfies(doc);
      f := Apply(id, doc, true);
    } else {
      f := Take(id, 0);
    }
  }

  lemma DrainStep(fs: seq<Move>, ext: seq<Move>, id: string) returns (more: seq<Move>)
    requires DeliveryRun(fs, ext, id) && !Quiet(Play(fs + ext), id)
    ensures DeliveryRun(fs, more, id) && 0 <= Measure(Play(fs + more), id) < Measure(Play(fs + ext), id)
  {
    PipelineCarriesLastAccepted(fs + ext, id);
    var f := DeliveryPossible(Play(fs + ext), id);
    more := ext + [f];
    assert more[..|ext|] == ext;
    PlayExtended(fs, more);
    DeliveryDecreases(Play(fs + ext), f, id);
  }

  lemma {:induction false} Drain(fs: seq<Move>, ext: seq<Move>, id: string) returns (all: seq<Move>)
    requires DeliveryRun(fs, ext, id)
    ensures DeliveryRun(fs, all, id) && Quiet(Play(fs + all), id)
    decreases Measure(Play(fs + ext), id)
  {
    if Quiet(Play(fs + ext), id) {
      all := ext;
    } else {
      var more := DrainStep(fs, ext, id);
      all := Drain(fs, more, id);
    }
  }

  predicate IsDelivery(f: Move) {
    f.Send? || f.Ack? || f.Apply? || f.Take?
  }

  lemma DeliversIsDelivery(w: World, f: Move, id: string)
    requires Delivers(w, f, id)
    ensures IsDelivery(f)
  {
  }

  lemma {:induction false} DeliveryOnly(fs: seq<Move>, ext: seq<Move>, id: string)
    requires DeliveryRun(fs, ext, id)
    ensures forall f | f in ext :: IsDelivery(f)
  {
    if ext == [] {
    } else {
      var init, f := ext[..|ext| - 1], ext[|ext| - 1];
      assert ext == init + [f];
      DeliveryOnly(fs, init, id);
      DeliversIsDelivery(Play(fs + init), f, id);
    }
  }

  lemma ReceiveKeepsSynced(es: seq<Event>, e: Event, id: string)
    requires e.Receive? && InCommitOrder(es, id) && Synced(es, id)
    ensures InCommitOrder(es + [e], id) && Synced(es + [e], id)
  {
    assert (es + [e])[..|es|] == es;
  }

  lemma OutsideStep(fs: seq<Move>, f: Move, id: string)
    requires !f.Cloud? && InCommitOrder(CloudEvents(fs), id) && Synced(CloudEvents(fs), id)
    ensures InCommitOrder(CloudEvents(fs + [f]), id) && Synced(CloudEvents(fs + [f]), id)
  {
    assert (fs + [f])[..|fs|] == fs;
    if f.Take? && Uplink(Play(fs), f.id) != [] {
      ReceiveKeepsSynced(CloudEvents(fs), Report(f.id, Play(fs).uplink[f.id][0], f.now), id);
    }
  }

  /** Moves outside the control plane leave the patches as they are. */
  lemma {:induction false} OutsideKeepsSynced(fs: seq<Move>, ext: seq<Move>, id: string)
    requires forall f | f in ext :: !f.Cloud?
    requires InCommitOrder(CloudEvents(fs), id) && Synced(CloudEvents(fs), id)
    ensures InCommitOrder(CloudEvents(fs + ext), id) && Synced(CloudEvents(fs + ext), id)
  {
    if ext == [] {
      assert fs + ext == fs;
    } else {
      var init, f := ext[..|ext| - 1], ext[|ext| - 1];
      assert ext == init + [f];
      OutsideKeepsSynced(fs, init, id);
      assert fs + ext == fs + init + [f];
      OutsideStep(fs + init, f, id);
    }
  }

  lemma SyncedAfterDelivery(before: seq<Move>, after: seq<Move>, id: string)
    requires InCommitOrder(CloudEvents(before), id) && Synced(CloudEvents(before), id)
    requires forall f | f in after :: !f.Cloud?
    ensures var es := CloudEvents(before + [Connect(id)] + after); InCommitOrder(es, id) && Synced(es, id)
  {
    var ext := [Connect(id)] + after;
    OutsideKeepsSynced(before, ext, id);
    assert before + ext == before + [Connect(id)] + after;
  }

  /** Configuration survives an offline gap: whatever happened before a device came back, if publishes
      were in commit order and the last one for it was accepted, every run of deliveries to any devices
      that brings it to rest after it reconnects ends with an empty shadow delta. */
  lemma ReconnectConverges(before: seq<Move>, after: seq<Move>, id: string)
    requires id in Play(before).cloud.tables.devices && '/' !in id
    requires InCommitOrder(CloudEvents(before), id) && Synced(CloudEvents(before), id)
    requires (forall m | m in after :: IsDelivery(m)) && AtRest(Play(before + [Connect(id)] + after), id)
    ensures var t := Play(before + [Connect(id)] + after).cloud.tables;
            ComputeDelta(Desired(t, id), Reported(t, id)) == map[]
  {
    SyncedAfterDelivery(before, after, id);
    Convergence(before, Connect(id), after, id, false);
  }

  lemma AcceptedInOrder(es: seq<Event>, e: Event, id: string)
    requires InCommitOrder(es, id) && Accepts(Run(es), e, id)
    ensures InCommitOrder(es + [e], id) && Synced(es + [e], id)
  {
    assert (es + [e])[..|es|] == es;
  }

  /** A device that is connected when a publish for it is accepted: with publishes in commit order every
      run of deliveries to any devices that brings it to rest afterwards ends with an empty shadow delta. */
  lemma PublishConverges(before: seq<Move>, e: Event, after: seq<Move>, id: string)
    requires id in Play(before).cloud.tables.devices && '/' !in id
    requires id in Play(before).inbox && Accepts(Play(before).cloud, e, id) && InCommitOrder(CloudEvents(before), id)
    requires (forall m | m in after :: IsDelivery(m)) && AtRest(Play(before + [Cloud(e)] + after), id)
    ensures var t := Play(before + [Cloud(e)] + after).cloud.tables;
            ComputeDelta(Desired(t, id), Reported(t, id)) == map[]
  {
    CloudIsRun(before);
    assert (before + [Cloud(e)])[..|before|] == before;
    AcceptedInOrder(CloudEvents(before), e, id);
    OutsideKeepsSynced(before + [Cloud(e)], after, id);
    Convergence(before, Cloud(e), after, id, false);
  }

  /** Such a run exists from every state, and none is longer than the measure. */
  lemma DeliveryComesToRest(fs: seq<Move>, id: string) returns (ext: seq<Move>)
    ensures DeliveryRun(fs, ext, id) && Quiet(Play(fs + ext), id)
    ensures |ext| <= Measure(Play(fs), id)
  {
    ext := Drain(fs, [], id);
    DeliveryTerminates(fs, ext, id);
    PipelineCarriesLastAccepted(fs + ext, id);
  }

  lemma DeliveryMoveKeepsDesired(w: World, f: Move, id: string)
    requires Delivers(w, f, id)
    ensures Desired(Next(w, f).cloud.tables, id) == Desired(w.cloud.tables, id)
  {
    CloudAfter(w, f);
    if f.Take? { DesiredWriters(w.cloud, Report(id, w.uplink[id][0], f.now), id); }
  }

  lemma {:induction false} DeliveryKeepsDesired(fs: seq<Move>, ext: seq<Move>, id: string)
    requires DeliveryRun(fs, ext, id)
    ensures Desired(Play(fs + ext).cloud.tables, id) == Desired(Play(fs).cloud.tables, id)
  {
    if ext == [] {
      assert fs + ext == fs;
    } else {
      var init, f := ext[..|ext| - 1], ext[|ext| - 1];
      DeliveryKeepsDesired(fs, init, id);
      PlayExtended(fs, ext);
      DeliveryMoveKeepsDesired(Play(fs + init), f, id);
    }
  }

  function CloudMoves(es: seq<Event>): seq<Move> {
    seq(|es|, i requires 0 <= i < |es| => Cloud(es[i]))
  }

  /** Nothing was ever sent to the broker, and no device was ever there. */
  predicate Untouched(w: World) {
    w.sent == 0 && w.retained == map[] && w.inbox == map[] && w.uplink == map[] && w.told == map[]
  }

  lemma UntouchedAfterCloud(w: World, e: Event)
    requires Untouched(w)
    ensures Untouched(Next(w, Cloud(e)))
  {
  }

  lemma {:induction false} CloudMovesPlay(es: seq<Event>)
    ensures CloudEvents(CloudMoves(es)) == es && Untouched(Play(CloudMoves(es)))
  {
    if es == [] {
    } else {
      var init := es[..|es| - 1];
      CloudMovesPlay(init);
      assert CloudMoves(es)[..|es| - 1] == CloudMoves(init);
      assert es == init + [es[|es| - 1]];
      UntouchedAfterCloud(Play(CloudMoves(init)), es[|es| - 1]);
    }
  }

  /** A run that patches `p` in, with its publish accepted, while the device is away. */
  lemma PatchedWhileAway(p: Dict) returns (before: seq<Move>)
    ensures "d" in Play(before).cloud.tables.devices && Untouched(Play(before))
    ensures InCommitOrder(CloudEvents(before), "d") && Synced(CloudEvents(before), "d")
    ensures Desired(Play(before).cloud.tables, "d") == p && Reported(Play(before).cloud.tables, "d") == map[]
    ensures Deltas(AllCommits(CloudEvents(before), "d")) == [p]
  {
    var es := Patches.OnePatch(p);
    before := CloudMoves(es);
    CloudMovesPlay(es);
    CloudIsRun(before);
    Patches.SerialisedInOrder(es, "d");
  }

  /** The same with the patch committed and not yet published. */
  lemma PendingWhileAway(p: Dict) returns (before: seq<Move>)
    ensures "d" in Play(before).cloud.tables.devices && Untouched(Play(before))
    ensures InCommitOrder(CloudEvents(before), "d") && PendingAt(Play(before).cloud, 0, "d")
    ensures Desired(Play(before).cloud.tables, "d") == p && Play(before).cloud.requests[0].stage.desired == p
    ensures Deltas(AllCommits(CloudEvents(before), "d")) == [p]
  {
    var es := Patches.OnePending(p);
    before := CloudMoves(es);
    CloudMovesPlay(es);
    CloudIsRun(before);
    Patches.SerialisedInOrder(es, "d");
  }

  lemma ConnectKeepsCloud(fs: seq<Move>, id: string)
    ensures Play(fs + [Connect(id)]).cloud == Play(fs).cloud && id in Play(fs + [Connect(id)]).inbox
    ensures CloudEvents(fs + [Connect(id)]) == CloudEvents(fs)
  {
    assert (fs + [Connect(id)])[..|fs|] == fs;
  }

  lemma DeliveredSatisfies(start: seq<Move>, after: seq<Move>, id: string, p: Dict)
    requires DeliveryRun(start, after, id) && Desired(Play(start).cloud.tables, id) == p
    requires var t := Play(start + after).cloud.tables; ComputeDelta(Desired(t, id), Reported(t, id)) == map[]
    ensures var t := Play(start + after).cloud.tables; Desired(t, id) == p && Satisfies(Reported(t, id), p)
  {
    DeliveryKeepsDesired(start, after, id);
    DeltaEmptyIffSatisfied(p, Reported(Play(start + after).cloud.tables, id));
  }

  /** End to end, for every document: a run patches it in while the device is away, the device connects,
      and a delivery run comes to rest with a report that satisfies it. */
  lemma EndToEnd(p: Dict) returns (before: seq<Move>, after: seq<Move>)
    ensures "d" !in Play(before).inbox && Deltas(AllCommits(CloudEvents(before), "d")) == [p]
    ensures InCommitOrder(CloudEvents(before), "d") && Synced(CloudEvents(before), "d")
    ensures DeliveryRun(before + [Connect("d")], after, "d") && Quiet(Play(before + [Connect("d")] + after), "d")
    ensures var t := Play(before + [Connect("d")] + after).cloud.tables;
            Desired(t, "d") == p && Satisfies(Reported(t, "d"), p)
  {
    before := PatchedWhileAway(p);
    after := DeliveryComesToRest(before + [Connect("d")], "d");
    DeliveryOnly(before + [Connect("d")], after, "d");
    ReconnectConverges(before, after, "d");
    ConnectKeepsCloud(before, "d");
    DeliveredSatisfies(before + [Connect("d")], after, "d", p);
  }

  /** The same for a device that is there: it is connected when the publish of the patch is accepted. */
  lemma EndToEndOnline(p: Dict) returns (before: seq<Move>, e: Event, after: seq<Move>)
    ensures "d" in Play(before).inbox && Accepts(Play(before).cloud, e, "d")
    ensures Deltas(AllCommits(CloudEvents(before), "d")) == [p] && InCommitOrder(CloudEvents(before), "d")
    ensures DeliveryRun(before + [Cloud(e)], after, "d") && Quiet(Play(before + [Cloud(e)] + after), "d")
    ensures var t := Play(before + [Cloud(e)] + after).cloud.tables;
            Desired(t, "d") == p && Satisfies(Reported(t, "d"), p)
  {
    var away := PendingWhileAway(p);
    before, e := away + [Connect("d")], PatchPublish(0, true);
    ConnectKeepsCloud(away, "d");
    PublishableIff("d");
    after := DeliveryComesToRest(before + [Cloud(e)], "d");
    DeliveryOnly(before + [Cloud(e)], after, "d");
    PublishConverges(before, e, after, "d");
    PlaySnoc(before, Cloud(e));
    DesiredWriters(Play(before).cloud, e, "d");
    DeliveredSatisfies(before + [Cloud(e)], after, "d", p);
  }
}
