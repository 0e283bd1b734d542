/** What overlapping and serialised desired-state patches leave behind, in the row and in the
    publishes. */
module Patches {
  import opened Prelude
  import opened Json
  import opened Dicts
  import opened Db
  import opened MqttPub
  import opened Topics
  import opened ControlPlane

  lemma StepLast(es: seq<Event>, e: Event, id: string)
    ensures Run(es + [e]) == Step(Run(es), e)
    ensures LifeCommits(es + [e], id) ==
            if e == DeleteDevice(id) then []
            else if Commits(Run(es), e, id) then LifeCommits(es, id) + [CommitmentOf(Run(es), e)]
            else LifeCommits(es, id)
    ensures AllCommits(es + [e], id) ==
            if Commits(Run(es), e, id) then AllCommits(es, id) + [CommitmentOf(Run(es), e)] else AllCommits(es, id)
    ensures LastAccepted(es + [e], id) ==
            if Accepts(Run(es), e, id) then Some(Run(es).requests[e.req].stage.desired)
            else if e.Restart? then None else LastAccepted(es, id)
  {
    assert (es + [e])[..|es|] == es;
  }

  /** Run on its own, a patch is the whole `patch_desired` request: it merges into the row and
      publishes the merged document. */
  lemma SoloPatch(s: State, req: nat, id: string, delta: Dict, now: int, accepted: bool)
    requires req !in s.requests && id in s.tables.devices
    ensures var loaded := Step(Step(s, PatchBegin(req, id, delta, now)), PatchRead(req));
            var saved := Step(loaded, PatchCommit(req));
            var desired := Desired(s.tables, id) + delta;
            && Published(saved, PatchPublish(req, accepted)) ==
               (if accepted && Publishable(DesiredTopic(id))
                then Some(Message(DesiredTopic(id), desired, true)) else None)
            && Step(saved, PatchPublish(req, accepted)) ==
               s.(tables := s.tables.(
                    shadows := s.tables.shadows[id := ShadowRow(desired, Reported(s.tables, id), now)]))
  {
    var done := Step(Step(Step(Step(s, PatchBegin(req, id, delta, now)), PatchRead(req)), PatchCommit(req)),
                     PatchPublish(req, accepted));
    assert done.requests == s.requests;
  }

  // --- overlapping patches ---

  lemma DeltasSnoc(cs: seq<Commitment>, c: Commitment)
    ensures Deltas(cs + [c]) == Deltas(cs) + [c.delta]
    ensures Writes(cs + [c]) == Writes(cs) + [c.desired]
  {
  }

  predicate Loads(s: State, e: Event, req: nat, id: string) {
    e == PatchRead(req) && At(s, req, id) && s.requests[req].stage.Checked?
  }

  /** The patches the row descends from: the latest commit, the commit whose document that one loaded,
      and so on, oldest first. */
  function Lineage(es: seq<Event>, id: string): seq<Commitment>
    decreases |es|
  {
    if es == [] then []
    else
      var init, e := es[..|es| - 1], es[|es| - 1];
      if e == DeleteDevice(id) then []
      else if Commits(Run(init), e, id) then LoadedLineage(init, e.req, id) + [CommitmentOf(Run(init), e)]
      else Lineage(init, id)
  }

  /** The lineage of the document that the patch of `id` under `req` loaded. */
  function LoadedLineage(es: seq<Event>, req: nat, id: string): seq<Commitment>
    decreases |es|
  {
    if es == [] then []
    else
      var init, e := es[..|es| - 1], es[|es| - 1];
      if Loads(Run(init), e, req, id) then Lineage(init, id) else LoadedLineage(init, req, id)
  }

  /** `m` is the merge of the patches in `cs`, and these are some of `all` in the same order. */
  predicate MergedFrom(m: Dict, cs: seq<Commitment>, all: seq<Commitment>) {
    m == MergeAll(Deltas(cs)) && Subsequence(Deltas(cs), Deltas(all))
  }

  lemma MergedFromGrows(m: Dict, cs: seq<Commitment>, all: seq<Commitment>, c: Commitment)
    requires MergedFrom(m, cs, all)
    ensures MergedFrom(m, cs, all + [c])
    ensures MergedFrom(m + c.delta, cs + [c], all + [c])
  {
    DeltasSnoc(cs, c);
    DeltasSnoc(all, c);
    SubsequenceSnoc(Deltas(cs), Deltas(all), c.delta);
    MergeAllSnoc(Deltas(cs), c.delta);
  }

  lemma LoadedBefore(s: State, e: Event, req: nat, id: string)
    requires At(Step(s, e), req, id) && LoadedAt(Step(s, e), req)
    ensures if Loads(s, e, req, id) then Step(s, e).requests[req].stage.base == Desired(s.tables, id)
            else At(s, req, id) && LoadedAt(s, req) && Step(s, e).requests[req] == s.requests[req]
  {
  }

  lemma {:induction false} LoadedFromLineage(es: seq<Event>, req: nat, id: string)
    requires At(Run(es), req, id) && LoadedAt(Run(es), req)
    ensures MergedFrom(Run(es).requests[req].stage.base, LoadedLineage(es, req, id), AllCommits(es, id))
    decreases |es|
  {
    var init, e := es[..|es| - 1], es[|es| - 1];
    LoadedBefore(Run(init), e, req, id);
    if Loads(Run(init), e, req, id) {
      DesiredFromLineage(init, id);
    } else {
      LoadedFromLineage(init, req, id);
      if Commits(Run(init), e, id) {
        MergedFromGrows(Run(init).requests[req].stage.base, LoadedLineage(init, req, id), AllCommits(init, id),
                        CommitmentOf(Run(init), e));
      }
    }
  }

  lemma {:induction false} DesiredFromLineage(es: seq<Event>, id: string)
    ensures MergedFrom(Desired(Run(es).tables, id), Lineage(es, id), AllCommits(es, id))
    decreases |es|
  {
    if es == [] {
    } else {
      var init, e := es[..|es| - 1], es[|es| - 1];
      DesiredWriters(Run(init), e, id);
      if Commits(Run(init), e, id) {
        LoadedFromLineage(init, e.req, id);
        MergedFromGrows(Run(init).requests[e.req].stage.base, LoadedLineage(init, e.req, id), AllCommits(init, id),
                        CommitmentOf(Run(init), e));
      } else if e != DeleteDevice(id) {
        DesiredFromLineage(init, id);
      }
    }
  }

  lemma {:induction false} LineageEndsLatest(es: seq<Event>, id: string)
    ensures if LifeCommits(es, id) == [] then Lineage(es, id) == []
            else EndsLike(Lineage(es, id), LifeCommits(es, id)) && EndsLike(Lineage(es, id), AllCommits(es, id))
  {
    if es == [] {
    } else {
      LineageEndsLatest(es[..|es| - 1], id);
    }
  }

  /** However read and commit steps interleave, the stored desired document is the merge of exactly the
      patches in its lineage: some of the patches ever committed for the id, in commit order and ending
      in the latest one; before the first patch of a life it is empty. */
  lemma DesiredIsMergeOfSubsequence(es: seq<Event>, id: string)
    ensures var lineage, all := Deltas(Lineage(es, id)), Deltas(AllCommits(es, id));
            && Desired(Run(es).tables, id) == MergeAll(lineage)
            && Subsequence(lineage, all)
            && if LifeCommits(es, id) == [] then lineage == [] else EndsLike(lineage, all)
  {
    DesiredFromLineage(es, id);
    LineageEndsLatest(es, id);
  }

  /** Last write wins: the row holds what the latest commit of this life wrote. */
  lemma {:induction false} DesiredIsLastWrite(es: seq<Event>, id: string)
    ensures var cs := LifeCommits(es, id);
            Desired(Run(es).tables, id) == if cs == [] then map[] else cs[|cs| - 1].desired
  {
    if es == [] {
    } else {
      var init, e := es[..|es| - 1], es[|es| - 1];
      DesiredIsLastWrite(init, id);
      DesiredWriters(Run(init), e, id);
    }
  }

  /** Committing `req` now would drop or revert `k`, which its patch does not mention. */
  predicate LosesKey(s: State, req: nat, k: string)
    requires LoadedAt(s, req)
  {
    && k !in s.requests[req].delta
    && Lookup(s.requests[req].stage.base, k) != Lookup(Desired(s.tables, s.requests[req].id), k)
  }

  ghost predicate Loses(s: State, req: nat)
    requires LoadedAt(s, req)
  {
    exists k :: LosesKey(s, req, k)
  }

  /** A commit treats a key as a merge into the stored document would exactly when the patch names the
      key or the snapshot agrees with the row on it. */
  lemma StaleKeyIff(s: State, req: nat, k: string)
    requires LoadedAt(s, req) && s.requests[req].id in s.tables.devices
    ensures var r := s.requests[req];
            Lookup(Desired(Step(s, PatchCommit(req)).tables, r.id), k) == Lookup(Desired(s.tables, r.id) + r.delta, k)
            <==> !LosesKey(s, req, k)
  {
    var r := s.requests[req];
    assert Desired(Step(s, PatchCommit(req)).tables, r.id) == r.stage.base + r.delta;
  }

  /** A commit merges into the stored document, losing nothing, exactly when its snapshot agrees with
      the row on every key the patch does not name. */
  lemma StaleCommitIff(s: State, req: nat)
    requires LoadedAt(s, req) && s.requests[req].id in s.tables.devices
    ensures var r := s.requests[req];
            Desired(Step(s, PatchCommit(req)).tables, r.id) == Desired(s.tables, r.id) + r.delta <==> !Loses(s, req)
  {
    var r := s.requests[req];
    var written, merged := Desired(Step(s, PatchCommit(req)).tables, r.id), Desired(s.tables, r.id) + r.delta;
    forall k ensures Lookup(written, k) == Lookup(merged, k) <==> !LosesKey(s, req, k) { StaleKeyIff(s, req, k); }
    SameLookups(written, merged);
  }

  /** Every patch committed in this life found its snapshot in agreement with the row. */
  ghost predicate NothingLost(es: seq<Event>, id: string) {
    es == [] ||
    var init, e := es[..|es| - 1], es[|es| - 1];
    if e == DeleteDevice(id) then true
    else NothingLost(init, id) && (Commits(Run(init), e, id) ==> !Loses(Run(init), e.req))
  }

  /** If no commit of this life lost anything, overlapping or not, the row is the merge of every patch
      since the id was created. */
  lemma {:induction false} MergeOfAllIfNothingLost(es: seq<Event>, id: string)
    requires NothingLost(es, id)
    ensures Desired(Run(es).tables, id) == MergeAll(Deltas(LifeCommits(es, id)))
  {
    if es == [] {
    } else {
      var init, e := es[..|es| - 1], es[|es| - 1];
      DesiredWriters(Run(init), e, id);
      if e != DeleteDevice(id) {
        MergeOfAllIfNothingLost(init, id);
        if Commits(Run(init), e, id) {
          var c := CommitmentOf(Run(init), e);
          StaleCommitIff(Run(init), e.req);
          DeltasSnoc(LifeCommits(init, id), c);
          MergeAllSnoc(Deltas(LifeCommits(init, id)), c.delta);
        }
      }
    }
  }

  /** The value of `k` in the latest patch of `cs` that names it. */
  function LastNamed(cs: seq<Commitment>, k: string): Option<Json> {
    if cs == [] then None
    else if k in cs[|cs| - 1].delta then Some(cs[|cs| - 1].delta[k])
    else LastNamed(cs[..|cs| - 1], k)
  }

  /** Since the latest patch of this life that names `k` no commit lost `k`. */
  predicate KeyKept(es: seq<Event>, id: string, k: string) {
    es == [] ||
    var init, e := es[..|es| - 1], es[|es| - 1];
    if e == DeleteDevice(id) then true
    else if Commits(Run(init), e, id)
    then k in Run(init).requests[e.req].delta || (KeyKept(init, id, k) && !LosesKey(Run(init), e.req, k))
    else KeyKept(init, id, k)
  }

  /** Key by key, whatever happened to other keys: the row holds for `k` what the latest patch of this
      life that names `k` said, and nothing if none did. */
  lemma {:induction false} KeyHoldsLatestIfKept(es: seq<Event>, id: string, k: string)
    requires KeyKept(es, id, k)
    ensures Lookup(Desired(Run(es).tables, id), k) == LastNamed(LifeCommits(es, id), k)
  {
    if es == [] {
    } else {
      var init, e := es[..|es| - 1], es[|es| - 1];
      DesiredWriters(Run(init), e, id);
      if Commits(Run(init), e, id) {
        var cs, c := LifeCommits(init, id), CommitmentOf(Run(init), e);
        assert (cs + [c])[..|cs|] == cs;
        if k !in c.delta { KeyHoldsLatestIfKept(init, id, k); }
      } else if e != DeleteDevice(id) {
        KeyHoldsLatestIfKept(init, id, k);
      }
    }
  }

  lemma {:induction false} MergeLookup(cs: seq<Commitment>, k: string)
    ensures Lookup(MergeAll(Deltas(cs)), k) == LastNamed(cs, k)
  {
    if cs == [] {
    } else {
      var init, c := cs[..|cs| - 1], cs[|cs| - 1];
      MergeLookup(init, k);
      assert cs == init + [c];
      DeltasSnoc(init, c);
      MergeAllSnoc(Deltas(init), c.delta);
    }
  }

  /** Key by key, in every run: the row holds what the latest patch of its lineage that names the key
      said, and nothing if none names it. */
  lemma KeyHoldsLatestOfLineage(es: seq<Event>, id: string, k: string)
    ensures Lookup(Desired(Run(es).tables, id), k) == LastNamed(Lineage(es, id), k)
  {
    DesiredFromLineage(es, id);
    MergeLookup(Lineage(es, id), k);
  }

  // --- serialised patches ---

  /** `desired` is the merge of all patches in `cs`, and each of them wrote the merge up to itself. */
  ghost predicate ExactWrites(desired: Dict, cs: seq<Commitment>) {
    && desired == MergeAll(Deltas(cs))
    && forall i | 0 <= i < |cs| :: cs[i].desired == MergeAll(Deltas(cs[..i + 1]))
  }

  /** Every patch of `id` past its load carries the stored document. */
  ghost predicate CurrentRequests(s: State, id: string) {
    && (forall req | At(s, req, id) && LoadedAt(s, req) :: s.requests[req].stage.base == Desired(s.tables, id))
    && (forall req | PendingAt(s, req, id) :: s.requests[req].stage.desired == Desired(s.tables, id))
  }

  /** At most one patch of `id` is past its load. */
  ghost predicate SingleRequest(s: State, id: string) {
    forall p, q |
      && At(s, p, id) && At(s, q, id)
      && !s.requests[p].stage.Checked? && !s.requests[q].stage.Checked? :: p == q
  }

  lemma SingleStep(s: State, e: Event, id: string)
    requires SingleRequest(s, id)
    requires e.PatchRead? && At(s, e.req, id) ==> !Busy(s, id)
    ensures SingleRequest(Step(s, e), id)
  {
  }

  lemma RequestsAfterCommit(s: State, req: nat, id: string)
    requires SingleRequest(s, id) && Commits(s, PatchCommit(req), id)
    ensures CurrentRequests(Step(s, PatchCommit(req)), id)
  {
    DesiredWriters(s, PatchCommit(req), id);
    assert forall q | At(s, q, id) && q != req :: s.requests[q].stage.Checked?;
  }

  lemma RequestsAfterOther(s: State, e: Event, id: string)
    requires CurrentRequests(s, id) && !Commits(s, e, id)
    requires e == DeleteDevice(id) ==> !Busy(s, id)
    ensures CurrentRequests(Step(s, e), id)
  {
    DesiredWriters(s, e, id);
  }

  lemma WritesStep(desired: Dict, cs: seq<Commitment>, c: Commitment)
    requires ExactWrites(desired, cs) && c.desired == desired + c.delta
    ensures ExactWrites(c.desired, cs + [c])
  {
    DeltasSnoc(cs, c);
    MergeAllSnoc(Deltas(cs), c.delta);
    forall i | 0 <= i < |cs| + 1 ensures (cs + [c])[i].desired == MergeAll(Deltas((cs + [c])[..i + 1])) {
      if i < |cs| {
        assert (cs + [c])[..i + 1] == cs[..i + 1];
      } else {
        assert (cs + [c])[..i + 1] == cs + [c];
      }
    }
  }

  /** With serialised patches the row is the merge of every patch since the id was created, and so
      was every document written on the way. */
  lemma {:induction false} SerialisedExact(es: seq<Event>, id: string)
    requires Serialised(es, id)
    ensures ExactWrites(Desired(Run(es).tables, id), LifeCommits(es, id))
    ensures SingleRequest(Run(es), id) && CurrentRequests(Run(es), id)
  {
    if es == [] {
    } else {
      var init, e := es[..|es| - 1], es[|es| - 1];
      if e != DeleteDevice(id) { SerialisedExact(init, id); }
      SingleStep(Run(init), e, id);
      DesiredWriters(Run(init), e, id);
      if Commits(Run(init), e, id) {
        RequestsAfterCommit(Run(init), e.req, id);
        WritesStep(Desired(Run(init).tables, id), LifeCommits(init, id), CommitmentOf(Run(init), e));
      } else {
        RequestsAfterOther(Run(init), e, id);
      }
    }
  }

  lemma {:induction false} PrefixKeys(ps: seq<Dict>, n: nat)
    requires n <= |ps|
    ensures MergeAll(ps[..n]).Keys <= MergeAll(ps).Keys
  {
    if n == |ps| {
      assert ps[..n] == ps;
    } else {
      PrefixKeys(ps[..|ps| - 1], n);
      assert ps[..|ps| - 1][..n] == ps[..n];
    }
  }

  lemma WrittenKeys(desired: Dict, cs: seq<Commitment>, m: Dict)
    requires ExactWrites(desired, cs) && m in Writes(cs)
    ensures m.Keys <= desired.Keys
  {
    var i :| 0 <= i < |cs| && cs[i].desired == m;
    assert Deltas(cs[..i + 1]) == Deltas(cs)[..i + 1];
    PrefixKeys(Deltas(cs), i + 1);
  }

  /** Conflation is safe: with serialised patches, merging any of the documents published in this
      life that include the newest, starting from nothing, yields exactly the stored document. */
  lemma ConflationSafe(es: seq<Event>, id: string, sub: seq<Dict>)
    requires Serialised(es, id)
    requires Subsequence(sub, Writes(LifeCommits(es, id))) && EndsLike(sub, Writes(LifeCommits(es, id)))
    ensures MergeAll(sub) == Desired(Run(es).tables, id)
  {
    SerialisedExact(es, id);
    var cs := LifeCommits(es, id);
    var newest := sub[|sub| - 1];
    assert cs[..|cs| - 1 + 1] == cs;
    assert newest == MergeAll(Deltas(cs));
    forall m | m in sub ensures m.Keys <= newest.Keys {
      SubsequenceMember(sub, Writes(cs), m);
      WrittenKeys(newest, cs, m);
    }
    ConflationIff(sub);
  }

  // --- publishes ---

  /** What the latest step that overtook the pending publish of `req` wrote: a commit of another patch
      of `id`, or its deletion, after `req` committed. */
  function Overtaking(es: seq<Event>, req: nat, id: string): Option<Dict> {
    if es == [] then None
    else
      var init, e := es[..|es| - 1], es[|es| - 1];
      if e == DeleteDevice(id) then Some(map[])
      else if !Commits(Run(init), e, id) then Overtaking(init, req, id)
      else if e.req == req then None
      else Some(CommitmentOf(Run(init), e).desired)
  }

  lemma PendingBefore(s: State, e: Event, req: nat, id: string)
    ensures PendingAt(Step(s, e), req, id) && e != PatchCommit(req) ==>
              PendingAt(s, req, id) && Step(s, e).requests[req] == s.requests[req]
    ensures PendingAt(Step(s, e), req, id) && e == PatchCommit(req) && !PendingAt(s, req, id) ==>
              Commits(s, e, id) && Step(s, e).requests[req].stage.desired == CommitmentOf(s, e).desired
    ensures PendingAt(s, req, id) && (Commits(s, e, id) || e == DeleteDevice(id)) ==>
              PendingAt(Step(s, e), req, id) && e != PatchCommit(req)
  {
  }

  /** A pending publish carries the stored document until it is overtaken; from then on the row holds
      what overtook it. */
  lemma {:induction false} PendingDocument(es: seq<Event>, req: nat, id: string)
    requires PendingAt(Run(es), req, id)
    ensures Desired(Run(es).tables, id) ==
            if Overtaking(es, req, id).Some? then Overtaking(es, req, id).value else Run(es).requests[req].stage.desired
  {
    var init, e := es[..|es| - 1], es[|es| - 1];
    PendingBefore(Run(init), e, req, id);
    DesiredWriters(Run(init), e, id);
    if PendingAt(Run(init), req, id) { PendingDocument(init, req, id); }
  }

  lemma AcceptedLast(es: seq<Event>, e: Event, id: string)
    requires Accepts(Run(es), e, id)
    ensures Synced(es + [e], id)
    ensures LastAccepted(es + [e], id) == Some(Run(es).requests[e.req].stage.desired)
    ensures Desired(Run(es + [e]).tables, id) == Desired(Run(es).tables, id)
  {
    assert (es + [e])[..|es|] == es;
    DesiredWriters(Run(es), e, id);
  }

  /** In every run, an accepted publish leaves the device with the stored document exactly when nothing
      overtook it, or what did wrote the same document. */
  lemma PublishHealsIff(es: seq<Event>, req: nat, id: string)
    requires PendingAt(Run(es), req, id) && Publishable(DesiredTopic(id))
    ensures var after := es + [PatchPublish(req, true)];
            LastAccepted(after, id) == Some(Desired(Run(after).tables, id)) <==>
            Overtaking(es, req, id).None? || Overtaking(es, req, id).value == Run(es).requests[req].stage.desired
  {
    PendingDocument(es, req, id);
    AcceptedLast(es, PatchPublish(req, true), id);
  }

  lemma {:induction false} NoneOvertaken(es: seq<Event>, req: nat, id: string)
    requires InCommitOrder(es, id) && PendingAt(Run(es), req, id)
    ensures Overtaking(es, req, id).None?
  {
    var init, e := es[..|es| - 1], es[|es| - 1];
    PendingBefore(Run(init), e, req, id);
    if PendingAt(Run(init), req, id) { NoneOvertaken(init, req, id); }
  }

  ghost predicate NoPublishOvertaken(es: seq<Event>, id: string) {
    forall req | PendingAt(Run(es), req, id) :: Overtaking(es, req, id).None?
  }

  /** Commit order is exactly what keeps pending publishes from being overtaken. */
  lemma InOrderIffNoneOvertaken(es: seq<Event>, e: Event, id: string)
    requires InCommitOrder(es, id)
    ensures InCommitOrder(es + [e], id) <==> NoPublishOvertaken(es + [e], id)
  {
    assert (es + [e])[..|es|] == es;
    if InCommitOrder(es + [e], id) {
      forall req | PendingAt(Run(es + [e]), req, id) ensures Overtaking(es + [e], req, id).None? {
        NoneOvertaken(es + [e], req, id);
      }
    } else {
      var req :| PendingAt(Run(es), req, id);
      PendingBefore(Run(es), e, req, id);
      assert PendingAt(Run(es + [e]), req, id);
    }
  }

  /** Full-state publishing heals losses: however many publishes were dropped before, with publishes in
      commit order an accepted one carries the stored document, until the next commit, deletion or
      restart. */
  lemma {:induction false} SyncedHeals(es: seq<Event>, id: string)
    requires InCommitOrder(es, id) && Synced(es, id)
    ensures LastAccepted(es, id) == Some(Desired(Run(es).tables, id))
  {
    var init, e := es[..|es| - 1], es[|es| - 1];
    assert e != DeleteDevice(id) && !e.Restart?;
    DesiredWriters(Run(init), e, id);
    if Accepts(Run(init), e, id) {
      NoneOvertaken(init, e.req, id);
      PendingDocument(init, e.req, id);
    } else {
      SyncedHeals(init, id);
    }
  }

  /** Serialised patches publish in commit order. */
  lemma {:induction false} SerialisedInOrder(es: seq<Event>, id: string)
    requires Serialised(es, id)
    ensures InCommitOrder(es, id)
  {
    if es == [] {
    } else {
      var init, e := es[..|es| - 1], es[|es| - 1];
      if e != DeleteDevice(id) {
        SerialisedInOrder(init, id);
        SerialisedExact(init, id);
      }
    }
  }

  ghost predicate SavedIn(s: State, id: string, written: seq<Dict>) {
    forall req | PendingAt(s, req, id) :: s.requests[req].stage.desired in written
  }

  lemma SavedStep(s: State, e: Event, id: string, written: seq<Dict>)
    requires SavedIn(s, id, written)
    ensures SavedIn(Step(s, e), id, if Commits(s, e, id) then written + [CommitmentOf(s, e).desired] else written)
  {
  }

  /** Under any interleaving only documents that were committed are ever published. */
  lemma {:induction false} PublishedWasCommitted(es: seq<Event>, id: string)
    ensures LastAccepted(es, id).Some? ==> LastAccepted(es, id).value in Writes(AllCommits(es, id))
    ensures SavedIn(Run(es), id, Writes(AllCommits(es, id)))
  {
    if es == [] {
    } else {
      var init, e := es[..|es| - 1], es[|es| - 1];
      PublishedWasCommitted(init, id);
      SavedStep(Run(init), e, id, Writes(AllCommits(init, id)));
      if Commits(Run(init), e, id) {
        DeltasSnoc(AllCommits(init, id), CommitmentOf(Run(init), e));
      }
    }
  }

  // --- what overlapping can do ---

  const ROW := DeviceRow(None, None, "default", map[], 0)

  lemma NothingLostLast(es: seq<Event>, e: Event, id: string)
    requires NothingLost(es, id) && (Commits(Run(es), e, id) ==> !Loses(Run(es), e.req))
    ensures NothingLost(es + [e], id)
  {
    assert (es + [e])[..|es|] == es;
  }

  lemma SerialisedLast(es: seq<Event>, e: Event, id: string)
    requires Serialised(es, id) && e != DeleteDevice(id)
    requires e.PatchRead? && At(Run(es), e.req, id) ==> !Busy(Run(es), id)
    ensures Serialised(es + [e], id)
    ensures Accepts(Run(es), e, id) ==> Synced(es + [e], id)
  {
    assert (es + [e])[..|es|] == es;
  }

  /** `es` leaves device "d", which has reported nothing, with this document, these requests in flight
      and these patches committed, and every publish in it was accepted. */
  ghost predicate Reaches(es: seq<Event>, requests: map<nat, Request>, desired: Dict, log: seq<Dict>) {
    && Run(es).requests == requests
    && "d" in Run(es).tables.devices
    && Desired(Run(es).tables, "d") == desired && Reported(Run(es).tables, "d") == map[]
    && Deltas(AllCommits(es, "d")) == log
    && forall e | e in es && e.PatchPublish? :: e.accepted
  }

  lemma Started() returns (es: seq<Event>)
    ensures Reaches(es, map[], map[], []) && Serialised(es, "d") && NothingLost(es, "d")
  {
    StepLast([], PostDevice("d", ROW), "d");
    NothingLostLast([], PostDevice("d", ROW), "d");
    SerialisedLast([], PostDevice("d", ROW), "d");
    es := [] + [PostDevice("d", ROW)];
  }

  lemma Begin(es: seq<Event>, rs: map<nat, Request>, d: Dict, log: seq<Dict>, req: nat, delta: Dict)
    returns (es': seq<Event>)
    requires Reaches(es, rs, d, log) && req !in rs
    ensures Reaches(es', rs[req := Request("d", delta, 0, Checked)], d, log)
    ensures Serialised(es, "d") ==> Serialised(es', "d")
    ensures NothingLost(es, "d") ==> NothingLost(es', "d")
  {
    var e := PatchBegin(req, "d", delta, 0);
    es' := es + [e];
    StepLast(es, e, "d");
    if Serialised(es, "d") { SerialisedLast(es, e, "d"); }
    if NothingLost(es, "d") { NothingLostLast(es, e, "d"); }
  }

  lemma Read(es: seq<Event>, rs: map<nat, Request>, d: Dict, log: seq<Dict>, req: nat, delta: Dict)
    returns (es': seq<Event>)
    requires Reaches(es, rs, d, log) && req in rs && rs[req] == Request("d", delta, 0, Checked)
    ensures Reaches(es', rs[req := Request("d", delta, 0, Loaded(d))], d, log)
    ensures Serialised(es, "d") && (forall r | r in rs :: rs[r].stage.Checked?) ==> Serialised(es', "d")
    ensures NothingLost(es, "d") ==> NothingLost(es', "d")
  {
    var e := PatchRead(req);
    es' := es + [e];
    StepLast(es, e, "d");
    if Serialised(es, "d") && forall r | r in rs :: rs[r].stage.Checked? { SerialisedLast(es, e, "d"); }
    if NothingLost(es, "d") { NothingLostLast(es, e, "d"); }
  }

  lemma Commit(es: seq<Event>, rs: map<nat, Request>, d: Dict, log: seq<Dict>, req: nat, delta: Dict, base: Dict)
    returns (es': seq<Event>)
    requires Reaches(es, rs, d, log) && req in rs && rs[req] == Request("d", delta, 0, Loaded(base))
    ensures Reaches(es', rs[req := Request("d", delta, 0, Saved(base + delta))], base + delta, log + [delta])
    ensures Serialised(es, "d") ==> Serialised(es', "d")
    ensures NothingLost(es, "d") && base == d ==> NothingLost(es', "d")
  {
    var e := PatchCommit(req);
    es' := es + [e];
    StepLast(es, e, "d");
    DesiredWriters(Run(es), e, "d");
    ReportedWriters(Run(es), e, "d");
    DeltasSnoc(AllCommits(es, "d"), CommitmentOf(Run(es), e));
    if Serialised(es, "d") { SerialisedLast(es, e, "d"); }
    if NothingLost(es, "d") && base == d { NothingLostLast(es, e, "d"); }
  }

  lemma Publish(es: seq<Event>, rs: map<nat, Request>, d: Dict, log: seq<Dict>, req: nat) returns (es': seq<Event>)
    requires Reaches(es, rs, d, log) && req in rs && rs[req].id == "d" && rs[req].stage.Saved?
    ensures Reaches(es', rs - {req}, d, log) && Synced(es', "d")
    ensures LastAccepted(es', "d") == Some(rs[req].stage.desired)
    ensures Serialised(es, "d") ==> Serialised(es', "d")
    ensures NothingLost(es, "d") ==> NothingLost(es', "d")
  {
    var e := PatchPublish(req, true);
    es' := es + [e];
    PublishableIff("d");
    StepLast(es, e, "d");
    AcceptedLast(es, e, "d");
    if Serialised(es, "d") { SerialisedLast(es, e, "d"); }
    if NothingLost(es, "d") { NothingLostLast(es, e, "d"); }
  }

  lemma MergeOfTwo(p: Dict, q: Dict)
    ensures MergeAll([p, q]) == p + q && [p] + [q] == [p, q] && [] + [p] == [p]
  {
    MergeAllSnoc([], p);
    MergeAllSnoc([p], q);
    assert [] + [p] == [p] && [p] + [q] == [p, q];
    assert MergeAll([]) + p == p;
  }

  function Two(p: Dict, at: Stage, q: Dict, there: Stage): map<nat, Request> {
    map[0 := Request("d", p, 0, at), 1 := Request("d", q, 0, there)]
  }

  lemma BothBegun(p: Dict, q: Dict) returns (es: seq<Event>)
    ensures Reaches(es, Two(p, Checked, q, Checked), map[], [])
  {
    es := Started();
    es := Begin(es, map[], map[], [], 0, p);
    es := Begin(es, map[0 := Request("d", p, 0, Checked)], map[], [], 1, q);
    assert map[0 := Request("d", p, 0, Checked)][1 := Request("d", q, 0, Checked)] == Two(p, Checked, q, Checked);
  }

  lemma BothLoaded(p: Dict, q: Dict) returns (es: seq<Event>)
    ensures Reaches(es, Two(p, Loaded(map[]), q, Loaded(map[])), map[], [])
  {
    es := BothBegun(p, q);
    es := Read(es, Two(p, Checked, q, Checked), map[], [], 0, p);
    assert Two(p, Checked, q, Checked)[0 := Request("d", p, 0, Loaded(map[]))] == Two(p, Loaded(map[]), q, Checked);
    es := Read(es, Two(p, Loaded(map[]), q, Checked), map[], [], 1, q);
    assert Two(p, Loaded(map[]), q, Checked)[1 := Request("d", q, 0, Loaded(map[]))] ==
           Two(p, Loaded(map[]), q, Loaded(map[]));
  }

  lemma FirstCommits(p: Dict, q: Dict) returns (es: seq<Event>)
    ensures Reaches(es, Two(p, Saved(p), q, Loaded(map[])), p, [p])
  {
    es := BothLoaded(p, q);
    assert map[] + p == p;
    es := Commit(es, Two(p, Loaded(map[]), q, Loaded(map[])), map[], [], 0, p, map[]);
    assert Two(p, Loaded(map[]), q, Loaded(map[]))[0 := Request("d", p, 0, Saved(p))] ==
           Two(p, Saved(p), q, Loaded(map[]));
  }

  /** Two overlapping patches `p` and `q` of an empty shadow: both commit, and the row is `q` alone,
      so the update of `p` is lost unless `q` happens to contain it. */
  lemma LostUpdateReachable(p: Dict, q: Dict) returns (es: seq<Event>)
    ensures Deltas(AllCommits(es, "d")) == [p, q]
    ensures Desired(Run(es).tables, "d") == q
    ensures MergeAll([p, q]) == p + q
  {
    es := FirstCommits(p, q);
    MergeOfTwo(p, q);
    assert map[] + q == q;
    es := Commit(es, Two(p, Saved(p), q, Loaded(map[])), p, [p], 1, q, map[]);
  }

  /** One patch after the other, up to its commit. */
  lemma InTurn(es: seq<Event>, rs: map<nat, Request>, d: Dict, log: seq<Dict>, req: nat, p: Dict)
    returns (es': seq<Event>)
    requires Reaches(es, rs, d, log) && req !in rs && NothingLost(es, "d")
    ensures Reaches(es', rs[req := Request("d", p, 0, Saved(d + p))], d + p, log + [p]) && NothingLost(es', "d")
    ensures Serialised(es, "d") && rs == map[] ==> Serialised(es', "d")
  {
    var checked := rs[req := Request("d", p, 0, Checked)];
    var loaded := rs[req := Request("d", p, 0, Loaded(d))];
    assert checked[req := loaded[req]] == loaded && loaded[req := Request("d", p, 0, Saved(d + p))] ==
           rs[req := Request("d", p, 0, Saved(d + p))];
    es' := Begin(es, rs, d, log, req, p);
    es' := Read(es', checked, d, log, req, p);
    es' := Commit(es', loaded, d, log, req, p, d);
  }

  lemma BothInTurn(p: Dict, q: Dict) returns (es: seq<Event>)
    ensures Reaches(es, Two(p, Saved(p), q, Saved(p + q)), p + q, [p, q]) && NothingLost(es, "d")
  {
    MergeOfTwo(p, q);
    assert map[] + p == p;
    es := Started();
    es := InTurn(es, map[], map[], [], 0, p);
    es := InTurn(es, map[0 := Request("d", p, 0, Saved(p))], p, [p], 1, q);
    assert map[0 := Request("d", p, 0, Saved(p))][1 := Request("d", q, 0, Saved(p + q))] ==
           Two(p, Saved(p), q, Saved(p + q));
  }

  /** Two patches that load and commit in turn, losing nothing, with every publish accepted: published
      in the other order they leave the device with `p` while SQLite holds `p + q`, stale unless `q`
      adds nothing. */
  lemma StalePublishReachable(p: Dict, q: Dict) returns (es: seq<Event>)
    ensures Deltas(AllCommits(es, "d")) == [p, q] && NothingLost(es, "d")
    ensures Desired(Run(es).tables, "d") == p + q
    ensures LastAccepted(es, "d") == Some(p)
    ensures Run(es).requests == map[] && forall e | e in es && e.PatchPublish? :: e.accepted
  {
    es := BothInTurn(p, q);
    var rs := Two(p, Saved(p), q, Saved(p + q));
    es := Publish(es, rs, p + q, [p, q], 1);
    es := Publish(es, rs - {1}, p + q, [p, q], 0);
  }

  /** A run in which one patch is committed and not yet published. */
  lemma OnePending(p: Dict) returns (es: seq<Event>)
    ensures Reaches(es, map[0 := Request("d", p, 0, Saved(p))], p, [p]) && Serialised(es, "d")
  {
    assert map[] + p == p && [] + [p] == [p];
    es := Started();
    es := InTurn(es, map[], map[], [], 0, p);
  }

  /** A run in which one patch is committed and its publish accepted. */
  lemma OnePatch(p: Dict) returns (es: seq<Event>)
    ensures Reaches(es, map[], p, [p]) && Serialised(es, "d") && Synced(es, "d")
  {
    es := OnePending(p);
    es := Publish(es, map[0 := Request("d", p, 0, Saved(p))], p, [p], 0);
  }
}
