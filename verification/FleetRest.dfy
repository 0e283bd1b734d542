/** The whole fleet at once: deliveries to all devices come to rest together, and with them every device
    converges that nobody disturbs. */
module FleetRest {
  import opened Prelude
  import opened Json
  import opened Db
  import opened Topics
  import opened Shadow
  import opened ControlPlane
  import opened Delivery
  import opened Fleet
  import Order

  /** Nothing is under way to or from any device. */
  predicate AllQuiet(w: World) {
    && w.queue == []
    && (forall id | id in w.inbox :: w.inbox[id] == [])
    && (forall id | id in w.uplink :: w.uplink[id] == [])
  }

  /** `f` moves something along for some device. */
  predicate Advances(w: World, f: Move) {
    Delivers(w, f, if f.Apply? || f.Take? then f.id else "")
  }

  function Stock(w: World, id: string): nat {
    2 * |Inbox(w, id)| + |Uplink(w, id)|
  }

  function Load(w: World, ids: seq<string>): nat {
    if ids == [] then 0 else Load(w, ids[..|ids| - 1]) + Stock(w, ids[|ids| - 1])
  }

  /** A message not yet sent may still reach each of `n` devices, which then answers it. */
  function Weigh(n: nat, unsent: int, rest: int): int {
    if unsent <= 0 then rest else Weigh(n, unsent - 1, rest) + 2 * n + 2
  }

  /** What is under way to and from the devices in `ids`, weighed by the deliveries it takes. */
  function Weight(w: World, ids: seq<string>): int {
    Weigh(|ids|, |w.queue| - w.sent, w.sent + Load(w, ids))
  }

  ghost predicate Distinct(ids: seq<string>) {
    forall i, j | 0 <= i < j < |ids| :: ids[i] != ids[j]
  }

  /** `ids` lists every device that is connected or has reports under way. */
  ghost predicate Lists(ids: seq<string>, w: World) {
    Distinct(ids) && forall id :: id in ids <==> id in w.inbox || id in w.uplink
  }

  lemma ListOf(w: World) returns (ids: seq<string>)
    ensures Lists(ids, w)
  {
    ids := Order.Sorted(w.inbox.Keys + w.uplink.Keys);
    forall i, j | 0 <= i < j < |ids| ensures ids[i] != ids[j] { Order.LessTrichotomy(ids[i], ids[j]); }
  }

  lemma SameKeys(w: World, f: Move)
    requires Advances(w, f)
    ensures forall id :: id in Next(w, f).inbox || id in Next(w, f).uplink <==> id in w.inbox || id in w.uplink
  {
  }

  lemma {:induction false} LoadSame(w: World, w': World, ids: seq<string>)
    requires forall id | id in ids :: Stock(w', id) == Stock(w, id)
    ensures Load(w', ids) == Load(w, ids)
  {
    if ids == [] {
    } else {
      assert ids[|ids| - 1] in ids;
      LoadSame(w, w', ids[..|ids| - 1]);
    }
  }

  lemma {:induction false} LoadDrops(w: World, w': World, ids: seq<string>, who: string)
    requires Distinct(ids) && who in ids && Stock(w', who) < Stock(w, who)
    requires forall id | id != who :: Stock(w', id) == Stock(w, id)
    ensures Load(w', ids) < Load(w, ids)
  {
    var init, last := ids[..|ids| - 1], ids[|ids| - 1];
    assert ids == init + [last];
    if last == who {
      LoadSame(w, w', init);
    } else {
      LoadDrops(w, w', init, who);
    }
  }

  lemma StockAfterSend(w: World, id: string)
    requires w.sent < |w.queue|
    ensures Stock(Next(w, Send), id) <= Stock(w, id) + 2
  {
    if id in w.inbox { InboxAfterSend(w, id); }
  }

  lemma {:induction false} LoadAfterSend(w: World, ids: seq<string>)
    requires w.sent < |w.queue|
    ensures Load(Next(w, Send), ids) <= Load(w, ids) + 2 * |ids|
  {
    if ids == [] {
    } else {
      LoadAfterSend(w, ids[..|ids| - 1]);
      StockAfterSend(w, ids[|ids| - 1]);
    }
  }

  lemma StockAnswered(w: World, who: string, reported: Dict, retain: bool, id: string)
    requires Inbox(w, who) != []
    ensures var w' := Answered(w, who, reported, retain);
            if id == who then Stock(w', id) == Stock(w, id) - 1 else Stock(w', id) == Stock(w, id)
  {
  }

  lemma StockAfterApply(w: World, who: string, reported: Dict, retain: bool, id: string)
    requires Applies(w, who, reported)
    ensures var w' := Next(w, Apply(who, reported, retain));
            && w'.queue == w.queue && w'.sent == w.sent
            && if id == who then Stock(w', id) < Stock(w, id) else Stock(w', id) == Stock(w, id)
  {
    StockAnswered(w, who, reported, retain, id);
  }

  lemma StockAfterTake(w: World, who: string, now: int, id: string)
    requires Uplink(w, who) != []
    ensures var w' := Next(w, Take(who, now));
            && w'.queue == w.queue && w'.sent == w.sent
            && if id == who then Stock(w', id) < Stock(w, id) else Stock(w', id) == Stock(w, id)
  {
  }

  lemma {:induction false} WeighShift(n: nat, unsent: int, rest: int, more: int)
    ensures Weigh(n, unsent, rest + more) == Weigh(n, unsent, rest) + more
    decreases unsent
  {
    if unsent <= 0 {
    } else {
      WeighShift(n, unsent - 1, rest, more);
    }
  }

  lemma StockDrops(w: World, w': World, ids: seq<string>, who: string)
    requires w'.queue == w.queue && w'.sent == w.sent && Lists(ids, w)
    requires Stock(w', who) < Stock(w, who) && forall id | id != who :: Stock(w', id) == Stock(w, id)
    ensures Weight(w', ids) < Weight(w, ids)
  {
    LoadDrops(w, w', ids, who);
    var rest, less := w.sent + Load(w, ids), w.sent + Load(w', ids);
    WeighShift(|ids|, |w.queue| - w.sent, rest, less - rest);
  }

  lemma ApplyDecreases(w: World, ids: seq<string>, who: string, reported: Dict, retain: bool)
    requires Applies(w, who, reported) && Lists(ids, w)
    ensures var w' := Next(w, Apply(who, reported, retain));
            Weight(w', ids) < Weight(w, ids) && w'.queue == w.queue && w'.sent == w.sent
  {
    var w' := Next(w, Apply(who, reported, retain));
    forall id | id != who ensures Stock(w', id) == Stock(w, id) { StockAfterApply(w, who, reported, retain, id); }
    StockAfterApply(w, who, reported, retain, who);
    StockDrops(w, w', ids, who);
  }

  lemma TakeDecreases(w: World, ids: seq<string>, who: string, now: int)
    requires Uplink(w, who) != [] && Lists(ids, w)
    ensures var w' := Next(w, Take(who, now));
            Weight(w', ids) < Weight(w, ids) && w'.queue == w.queue && w'.sent == w.sent
  {
    var w' := Next(w, Take(who, now));
    forall id | id != who ensures Stock(w', id) == Stock(w, id) { StockAfterTake(w, who, now, id); }
    StockAfterTake(w, who, now, who);
    StockDrops(w, w', ids, who);
  }

  lemma AckFrame(w: World)
    requires 0 < w.sent <= |w.queue|
    ensures var w' := Next(w, Ack);
            |w'.queue| == |w.queue| - 1 && w'.sent == w.sent - 1 && w'.inbox == w.inbox && w'.uplink == w.uplink
  {
  }

  lemma AckDecreases(w: World, ids: seq<string>)
    requires 0 < w.sent <= |w.queue|
    ensures Weight(Next(w, Ack), ids) < Weight(w, ids) && Next(w, Ack).sent <= |Next(w, Ack).queue|
  {
    AckFrame(w);
    LoadSame(w, Next(w, Ack), ids);
    WeighShift(|ids|, |w.queue| - w.sent, w.sent + Load(w, ids), -1);
  }

  lemma SendFrame(w: World)
    requires w.sent < |w.queue|
    ensures Next(w, Send).queue == w.queue && Next(w, Send).sent == w.sent + 1
  {
  }

  lemma SendDecreases(w: World, ids: seq<string>)
    requires w.sent < |w.queue|
    ensures Weight(Next(w, Send), ids) < Weight(w, ids) && Next(w, Send).sent <= |Next(w, Send).queue|
  {
    SendFrame(w);
    LoadAfterSend(w, ids);
    var rest, more := w.sent + Load(w, ids), w.sent + 1 + Load(Next(w, Send), ids);
    WeighShift(|ids|, |w.queue| - w.sent - 1, rest, more - rest);
  }

  lemma {:induction false} WeighNotNegative(n: nat, unsent: int, rest: nat)
    ensures Weigh(n, unsent, rest) >= 0
    decreases unsent
  {
    if unsent <= 0 {
    } else {
      WeighNotNegative(n, unsent - 1, rest);
    }
  }

  lemma WeightNotNegative(w: World, ids: seq<string>)
    requires w.sent <= |w.queue|
    ensures Weight(w, ids) >= 0
  {
    WeighNotNegative(|ids|, |w.queue| - w.sent, w.sent + Load(w, ids));
  }

  lemma AdvanceLightens(w: World, f: Move, ids: seq<string>)
    requires w.sent <= |w.queue| && Advances(w, f) && Lists(ids, w)
    ensures Weight(Next(w, f), ids) < Weight(w, ids) && Next(w, f).sent <= |Next(w, f).queue|
  {
    match f {
      case Send => SendDecreases(w, ids);
      case Ack => AckDecreases(w, ids);
      case Apply(who, reported, retain) => ApplyDecreases(w, ids, who, reported, retain);
      case Take(who, now) => TakeDecreases(w, ids, who, now);
    }
  }

  /** Every delivery, to whichever device, lowers the weight of what is under way. */
  lemma AdvanceDecreases(w: World, f: Move, ids: seq<string>)
    requires w.sent <= |w.queue| && Advances(w, f) && Lists(ids, w)
    ensures 0 <= Weight(Next(w, f), ids) < Weight(w, ids) && Lists(ids, Next(w, f))
  {
    AdvanceLightens(w, f, ids);
    WeightNotNegative(Next(w, f), ids);
    SameKeys(w, f);
  }

  /** While anything is under way some delivery is possible. */
  lemma AdvancePossible(w: World) returns (f: Move)
    requires w.sent <= |w.queue| && !AllQuiet(w)
    ensures Advances(w, f)
  {
    if w.queue != [] {
      f := DeliveryPossible(w, "");
      if f.Apply? || f.Take? { assert f.id == ""; }
    } else if id :| id in w.inbox && w.inbox[id] != [] {
      f := DeliveryPossible(w, id);
    } else {
      var id :| id in w.uplink && w.uplink[id] != [];
      f := DeliveryPossible(w, id);
    }
  }

  ghost predicate FleetRun(fs: seq<Move>, ext: seq<Move>) {
    ext == [] ||
    var init, f := ext[..|ext| - 1], ext[|ext| - 1];
    FleetRun(fs, init) && Advances(Play(fs + init), f)
  }

  lemma {:induction false} FleetRunDelivers(fs: seq<Move>, ext: seq<Move>)
    requires FleetRun(fs, ext)
    ensures forall f | f in ext :: IsDelivery(f)
  {
    if ext == [] {
    } else {
      var init, f := ext[..|ext| - 1], ext[|ext| - 1];
      assert ext == init + [f];
      FleetRunDelivers(fs, init);
    }
  }

  lemma SentInQueue(fs: seq<Move>)
    ensures Play(fs).sent <= |Play(fs).queue|
  {
    PipelineCarriesLastAccepted(fs, "");
  }

  /** Every run of deliveries to the fleet is finite, with a bound known when it starts. */
  lemma {:induction false} FleetTerminates(fs: seq<Move>, ext: seq<Move>, ids: seq<string>)
    requires FleetRun(fs, ext) && Lists(ids, Play(fs))
    ensures |ext| + Weight(Play(fs + ext), ids) <= Weight(Play(fs), ids)
    ensures Lists(ids, Play(fs + ext)) && Weight(Play(fs + ext), ids) >= 0
  {
    if ext == [] {
      assert fs + ext == fs;
      SentInQueue(fs);
      WeightNotNegative(Play(fs), ids);
    } else {
      var init, f := ext[..|ext| - 1], ext[|ext| - 1];
      FleetTerminates(fs, init, ids);
      SentInQueue(fs + init);
      PlayExtended(fs, ext);
      AdvanceDecreases(Play(fs + init), f, ids);
    }
  }

  lemma FleetStep(fs: seq<Move>, ext: seq<Move>, ids: seq<string>) returns (more: seq<Move>)
    requires FleetRun(fs, ext) && !AllQuiet(Play(fs + ext)) && Lists(ids, Play(fs + ext))
    ensures FleetRun(fs, more) && Lists(ids, Play(fs + more))
    ensures 0 <= Weight(Play(fs + more), ids) < Weight(Play(fs + ext), ids)
  {
    SentInQueue(fs + ext);
    var f := AdvancePossible(Play(fs + ext));
    more := ext + [f];
    assert more[..|ext|] == ext;
    PlayExtended(fs, more);
    AdvanceDecreases(Play(fs + ext), f, ids);
  }

  lemma {:induction false} FleetDrains(fs: seq<Move>, ext: seq<Move>, ids: seq<string>) returns (all: seq<Move>)
    requires FleetRun(fs, ext) && Lists(ids, Play(fs + ext))
    ensures FleetRun(fs, all) && AllQuiet(Play(fs + all))
    decreases Weight(Play(fs + ext), ids)
  {
    if AllQuiet(Play(fs + ext)) {
      all := ext;
    } else {
      var more := FleetStep(fs, ext, ids);
      all := FleetDrains(fs, more, ids);
    }
  }

  /** From every state some run of deliveries brings the whole fleet to rest at once, within the weight. */
  lemma FleetComesToRest(fs: seq<Move>) returns (ext: seq<Move>, ids: seq<string>)
    ensures FleetRun(fs, ext) && AllQuiet(Play(fs + ext))
    ensures Lists(ids, Play(fs)) && |ext| <= Weight(Play(fs), ids)
  {
    ids := ListOf(Play(fs));
    assert fs + [] == fs;
    ext := FleetDrains(fs, [], ids);
    FleetTerminates(fs, ext, ids);
  }

  /** At some point of the run the registered device connected or, if `owed`, was connected when a publish
      for it was accepted, and since then nobody disturbed it. */
  ghost predicate Engaged(fs: seq<Move>, id: string, owed: bool, kept: bool) {
    fs != [] &&
    var init, f := fs[..|fs| - 1], fs[|fs| - 1];
    || (id in Play(init).cloud.tables.devices && Engages(Play(init), f, id) && (f.Cloud? ==> owed))
    || (Engaged(init, id, owed, kept) && Undisturbed(f, id) && Safe(f, id, kept) && (owed ==> !IsRestart(f)))
  }

  lemma {:induction false} EngagedIsOnTrack(fs: seq<Move>, id: string, owed: bool, kept: bool)
    requires Engaged(fs, id, owed, kept) && '/' !in id && Publishable(id)
    ensures OnTrack(Play(fs), id, owed, kept)
  {
    var init, f := fs[..|fs| - 1], fs[|fs| - 1];
    assert fs == init + [f];
    if id in Play(init).cloud.tables.devices && Engages(Play(init), f, id) && (f.Cloud? ==> owed) {
      OnTrackOnceEngaged(init, f, id, kept);
    } else {
      EngagedIsOnTrack(init, id, owed, kept);
      OnTrackMove(Play(init), f, id, owed, kept);
    }
  }

  lemma SyncedIsPublishable(fs: seq<Move>, id: string)
    requires InCommitOrder(CloudEvents(fs), id) && Synced(CloudEvents(fs), id)
    ensures Publishable(id)
  {
    PipelineHeals(fs, id);
    if !Publishable(id) { WildcardIdUnserved(fs, id); }
  }

  lemma EngagedStaysOnTrack(fs: seq<Move>, ext: seq<Move>, id: string, owed: bool, kept: bool)
    requires Engaged(fs, id, owed, kept) && '/' !in id && Publishable(id)
    requires forall m | m in ext :: IsDelivery(m)
    ensures OnTrack(Play(fs + ext), id, owed, false)
  {
    EngagedIsOnTrack(fs, id, owed, kept);
    StaysOnTrack(fs, ext, id, owed, false);
  }

  /** One device of the fleet: where it is at rest after deliveries to any devices, its delta is empty. */
  lemma EngagedConverges(fs: seq<Move>, ext: seq<Move>, id: string, owed: bool, kept: bool)
    requires Engaged(fs, id, owed, kept) && '/' !in id
    requires InCommitOrder(CloudEvents(fs), id) && Synced(CloudEvents(fs), id)
    requires (forall m | m in ext :: IsDelivery(m)) && AtRest(Play(fs + ext), id)
    ensures var t := Play(fs + ext).cloud.tables; ComputeDelta(Desired(t, id), Reported(t, id)) == map[]
  {
    SyncedIsPublishable(fs, id);
    EngagedStaysOnTrack(fs, ext, id, owed, kept);
    OnTrackMeets(Play(fs + ext), id, owed, false);
    OutsideKeepsSynced(fs, ext, id);
    PipelineHeals(fs + ext, id);
  }

  lemma QuietIsAtRest(w: World, id: string)
    requires AllQuiet(w)
    ensures AtRest(w, id)
  {
  }

  /** The whole fleet converges together: once deliveries have brought it to rest, the shadow delta is
      empty for every undisturbed slash-free device whose publishes were in commit order and whose last
      one was accepted. */
  lemma FleetConverges(fs: seq<Move>, ext: seq<Move>, owed: bool, kept: bool)
    requires FleetRun(fs, ext) && AllQuiet(Play(fs + ext))
    ensures forall id |
              && Engaged(fs, id, owed, kept) && '/' !in id
              && InCommitOrder(CloudEvents(fs), id) && Synced(CloudEvents(fs), id) ::
              var t := Play(fs + ext).cloud.tables; ComputeDelta(Desired(t, id), Reported(t, id)) == map[]
  {
    FleetRunDelivers(fs, ext);
    forall id |
      && Engaged(fs, id, owed, kept) && '/' !in id
      && InCommitOrder(CloudEvents(fs), id) && Synced(CloudEvents(fs), id)
      ensures var t := Play(fs + ext).cloud.tables; ComputeDelta(Desired(t, id), Reported(t, id)) == map[]
    {
      QuietIsAtRest(Play(fs + ext), id);
      EngagedConverges(fs, ext, id, owed, kept);
    }
  }
}
