/** What a restart of the process leaves of the desired documents on their way. */
module Restarts {
  import opened Prelude
  import opened Json
  import opened Db
  import opened Topics
  import opened ControlPlane
  import opened Delivery
  import opened Fleet
  import Patches

  /** No new patch of `id` and no deletion of it. */
  predicate Unpatched(f: Move, id: string) {
    f.Cloud? ==> f.event != DeleteDevice(id) && !(f.event.PatchBegin? && f.event.id == id)
  }

  /** No patch of `id` is in flight, none of its documents is queued, `kept` is retained and `desired`
      stored. */
  ghost predicate Idle(w: World, id: string, kept: Option<Dict>, desired: Dict) {
    && Sound(w, id) && LastFor(w.queue, DesiredTopic(id)).None? && Retained(w, id) == kept
    && Desired(w.cloud.tables, id) == desired
    && forall req :: !At(w.cloud, req, id)
  }

  lemma IdleStep(s: State, e: Event, id: string)
    requires (forall req :: !At(s, req, id)) && Unpatched(Cloud(e), id)
    ensures forall req :: !At(Step(s, e), req, id)
    ensures Desired(Step(s, e).tables, id) == Desired(s.tables, id) && !Accepts(s, e, id)
  {
    DesiredWriters(s, e, id);
    forall req ensures !At(Step(s, e), req, id) { assert !At(s, req, id); }
  }

  lemma IdleQueueAfterCloud(w: World, e: Event, id: string)
    requires LastFor(w.queue, DesiredTopic(id)).None? && !Accepts(w.cloud, e, id)
    ensures LastFor(Next(w, Cloud(e)).queue, DesiredTopic(id)).None?
  {
    var m := Published(w.cloud, e);
    if m.Some? {
      PublishedOn(w.cloud, e, id);
      LastForSnoc(w.queue, m.value, DesiredTopic(id));
    }
  }

  lemma IdleQueue(w: World, f: Move, id: string)
    requires Sound(w, id) && LastFor(w.queue, DesiredTopic(id)).None?
    requires f.Cloud? ==> !Accepts(w.cloud, f.event, id)
    ensures LastFor(Next(w, f).queue, DesiredTopic(id)).None? && Retained(Next(w, f), id) == Retained(w, id)
  {
    match f {
      case Cloud(e) => IdleQueueAfterCloud(w, e, id);
      case Send =>
        if w.sent < |w.queue| { LastForMember(w.queue, w.queue[w.sent]); }
      case Ack =>
        if w.queue != [] { LastForCons(w.queue, DesiredTopic(id)); }
      case _ => OtherFrame(w, f);
    }
  }

  lemma IdleMove(w: World, f: Move, id: string, kept: Option<Dict>, desired: Dict)
    requires Idle(w, id, kept, desired) && Unpatched(f, id)
    ensures Idle(Next(w, f), id, kept, desired)
  {
    MoveKeeps(w, f, id);
    CloudAfter(w, f);
    if f.Cloud? {
      IdleStep(w.cloud, f.event, id);
    } else if f.Take? && Uplink(w, f.id) != [] {
      IdleStep(w.cloud, Report(f.id, w.uplink[f.id][0], f.now), id);
    }
    IdleQueue(w, f, id);
  }

  lemma {:induction false} StaysIdle(start: seq<Move>, ext: seq<Move>, id: string, kept: Option<Dict>, desired: Dict)
    requires Idle(Play(start), id, kept, desired)
    requires forall f | f in ext :: Unpatched(f, id)
    ensures Idle(Play(start + ext), id, kept, desired)
  {
    if ext == [] {
      assert start + ext == start;
    } else {
      var init, f := ext[..|ext| - 1], ext[|ext| - 1];
      assert ext == init + [f];
      StaysIdle(start, init, id, kept, desired);
      PlayExtended(start, ext);
      IdleMove(Play(start + init), f, id, kept, desired);
    }
  }

  lemma RestartIdles(w: World, now: int, id: string)
    requires Sound(w, id)
    ensures Idle(Next(w, Cloud(Restart(now))), id, Retained(w, id), Desired(w.cloud.tables, id))
  {
    RestartKeeps(w, now, id);
  }

  /** A restart keeps the row and what the broker retains and drops the rest; until the next patch or
      deletion nothing changes either. */
  lemma AfterRestart(fs: seq<Move>, now: int, ext: seq<Move>, id: string)
    requires forall f | f in ext :: Unpatched(f, id)
    ensures var w, w' := Play(fs), Play(fs + [Cloud(Restart(now))] + ext);
            && Desired(w'.cloud.tables, id) == Desired(w.cloud.tables, id)
            && Newest(w', id) == Retained(w, id)
  {
    var w := Play(fs);
    PipelineCarriesLastAccepted(fs, id);
    PlaySnoc(fs, Cloud(Restart(now)));
    RestartIdles(w, now, id);
    StaysIdle(fs + [Cloud(Restart(now))], ext, id, Retained(w, id), Desired(w.cloud.tables, id));
  }

  /** With publishes in commit order and the last one accepted, a restart leaves the device with the
      stored document exactly when that document, or the same one before it, had been sent. If not,
      the broker stays stale until the next patch or deletion, whatever else happens. */
  lemma RestartLosesIff(fs: seq<Move>, now: int, ext: seq<Move>, id: string)
    requires InCommitOrder(CloudEvents(fs), id) && Synced(CloudEvents(fs), id)
    requires forall f | f in ext :: Unpatched(f, id)
    ensures var w, w' := Play(fs), Play(fs + [Cloud(Restart(now))] + ext);
            Newest(w', id) == Some(Desired(w'.cloud.tables, id)) <==>
            Unsent(w, id).None? || Unsent(w, id) == Retained(w, id)
  {
    AfterRestart(fs, now, ext, id);
    PipelineHeals(fs, id);
    PipelineCarriesLastAccepted(fs, id);
    Queued(Play(fs), id);
  }

  /** With a patch committed and not yet published, a restart leaves the broker stale, for as long,
      unless it retained the very document of that patch before. */
  lemma RestartDropsPendingIff(fs: seq<Move>, now: int, ext: seq<Move>, req: nat, id: string)
    requires InCommitOrder(CloudEvents(fs), id) && PendingAt(Play(fs).cloud, req, id)
    requires forall f | f in ext :: Unpatched(f, id)
    ensures var w, w' := Play(fs), Play(fs + [Cloud(Restart(now))] + ext);
            Newest(w', id) == Some(Desired(w'.cloud.tables, id)) <==>
            Retained(w, id) == Some(w.cloud.requests[req].stage.desired)
  {
    AfterRestart(fs, now, ext, id);
    CloudIsRun(fs);
    Patches.NoneOvertaken(CloudEvents(fs), req, id);
    Patches.PendingDocument(CloudEvents(fs), req, id);
  }

  lemma RestartLosesUntouched(fs: seq<Move>, now: int)
    requires Untouched(Play(fs)) && "d" in Play(fs).cloud.tables.devices
    ensures var w, w' := Play(fs), Play(fs + [Cloud(Restart(now))]);
            && "d" in w'.cloud.tables.devices && Desired(w'.cloud.tables, "d") == Desired(w.cloud.tables, "d")
            && Newest(w', "d") == None
  {
    PipelineCarriesLastAccepted(fs, "d");
    PlaySnoc(fs, Cloud(Restart(now)));
    RestartKeeps(Play(fs), now, "d");
    RegisteredAfter(Play(fs), Cloud(Restart(now)), "d");
  }

  /** For every document two runs after which a restart leaves the broker without it, while the row has
      it: its publish was accepted and still queued, or it was committed and not yet published. */
  lemma RestartLosesReachable(p: Dict, now: int) returns (queued: seq<Move>, pending: seq<Move>)
    ensures Synced(CloudEvents(queued), "d") && InCommitOrder(CloudEvents(queued), "d")
    ensures Newest(Play(queued), "d") == Some(p) == Some(Desired(Play(queued).cloud.tables, "d"))
    ensures PendingAt(Play(pending).cloud, 0, "d") && InCommitOrder(CloudEvents(pending), "d")
    ensures forall fs | fs == queued || fs == pending ::
              var w := Play(fs + [Cloud(Restart(now))]);
              "d" in w.cloud.tables.devices && Desired(w.cloud.tables, "d") == p && Newest(w, "d") == None
  {
    queued := PatchedWhileAway(p);
    pending := PendingWhileAway(p);
    PipelineHeals(queued, "d");
    RestartLosesUntouched(queued, now);
    RestartLosesUntouched(pending, now);
  }
}
