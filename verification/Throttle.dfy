/** Runs of interleaved authentication requests against the throttle. Each helper is one atomic
    step; an admitted request is in flight until it is allowed or records its failure. */
module Throttle {
  import opened Auth

  datatype Event =
    | Check(source: string, now: real)
    | Allow(source: string, now: real)
    | Fail(source: string, now: real)

  datatype Limiter = Limiter(failures: Failures, inFlight: map<string, nat>)

  function InFlight(l: Limiter, source: string): nat {
    if source in l.inFlight then l.inFlight[source] else 0
  }

  function Finish(l: Limiter, source: string): Limiter {
    if InFlight(l, source) == 0 then l
    else l.(inFlight := l.inFlight[source := InFlight(l, source) - 1])
  }

  function Step(l: Limiter, e: Event): Limiter {
    match e
    case Check(source, now) =>
      var pruned := l.(failures := Pruned(l.failures, source, now));
      if Throttled(l.failures, source, now) then pruned
      else pruned.(inFlight := l.inFlight[source := InFlight(l, source) + 1])
    case Allow(source, now) => Finish(l, source)
    case Fail(source, now) => Finish(l.(failures := Recorded(l.failures, source, now)), source)
  }

  function Run(es: seq<Event>): Limiter {
    if es == [] then Limiter(map[], map[]) else Step(Run(es[..|es| - 1]), es[|es| - 1])
  }

  ghost predicate Until(es: seq<Event>, now: real) {
    forall e | e in es :: e.now <= now
  }

  /** The clock never steps back and only requests in flight finish. */
  ghost predicate Valid(es: seq<Event>) {
    es == [] ||
    var init, e := es[..|es| - 1], es[|es| - 1];
    && Valid(init)
    && Until(init, e.now)
    && (e.Check? || InFlight(Run(init), e.source) > 0)
  }

  /** At every point of the run at most `k` requests of `source` are in flight. */
  ghost predicate AtMostInFlight(es: seq<Event>, source: string, k: nat) {
    InFlight(Run(es), source) <= k && (es != [] ==> AtMostInFlight(es[..|es| - 1], source, k))
  }

  /** The complete failure log of a source; nothing is ever removed from it. */
  function History(es: seq<Event>, source: string): seq<real> {
    if es == [] then []
    else
      var h, e := History(es[..|es| - 1], source), es[|es| - 1];
      if e.Fail? && e.source == source then h + [e.now] else h
  }

  function CountBetween(ts: seq<real>, from: real, to: real): nat {
    if ts == [] then 0
    else CountBetween(ts[..|ts| - 1], from, to) + if from <= ts[|ts| - 1] <= to then 1 else 0
  }

  // --- the window filter ---

  lemma RecentSnoc(ts: seq<real>, t: real, c: real)
    ensures Recent(ts + [t], c) == Recent(ts, c) + if t >= c then [t] else []
  {
    assert (ts + [t])[..|ts|] == ts;
  }

  lemma {:induction false} RecentOfRecent(ts: seq<real>, c: real, d: real)
    requires c <= d
    ensures Recent(Recent(ts, c), d) == Recent(ts, d)
    ensures |Recent(ts, d)| <= |Recent(ts, c)| <= |ts|
  {
    if ts == [] {
    } else {
      var init := ts[..|ts| - 1];
      RecentOfRecent(init, c, d);
      RecentSnoc(Recent(init, c), ts[|ts| - 1], d);
    }
  }

  lemma {:induction false} CountWithinRecent(ts: seq<real>, from: real, to: real, c: real)
    requires c <= from
    ensures CountBetween(ts, from, to) <= |Recent(ts, c)|
  {
    if ts == [] {
    } else {
      CountWithinRecent(ts[..|ts| - 1], from, to, c);
    }
  }

  ghost predicate Ascending(ts: seq<real>) {
    forall i, j | 0 <= i < j < |ts| :: ts[i] <= ts[j]
  }

  /** The recent entries of an ascending log are its longest suffix inside the window. */
  lemma {:induction false} RecentReaches(ts: seq<real>, c: real, n: nat)
    requires Ascending(ts) && n >= 1
    ensures |Recent(ts, c)| >= n <==> |ts| >= n && ts[|ts| - n] >= c
  {
    if ts == [] {
    } else {
      var init := ts[..|ts| - 1];
      if ts[|ts| - 1] < c {
        if init != [] { RecentReaches(init, c, 1); }
      } else if n > 1 {
        RecentReaches(init, c, n - 1);
      }
    }
  }

  // --- pruning refines the full log ---

  function Logged(h: seq<real>, e: Event, source: string): seq<real> {
    if e.Fail? && e.source == source then h + [e.now] else h
  }

  lemma EntriesAfter(l: Limiter, e: Event, source: string)
    ensures var entries := Entries(l.failures, source);
            Entries(Step(l, e).failures, source) ==
            if e.source != source || e.Allow? then entries
            else if e.Check? then Recent(entries, e.now - RATE_WINDOW_SECONDS)
            else entries + [e.now]
  {
  }

  lemma PrunedStep(l: Limiter, e: Event, source: string, c: real, h: seq<real>)
    requires e.now - RATE_WINDOW_SECONDS <= c
    requires Recent(Entries(l.failures, source), c) == Recent(h, c)
    ensures Recent(Entries(Step(l, e).failures, source), c) == Recent(Logged(h, e, source), c)
  {
    EntriesAfter(l, e, source);
    if e.source == source {
      var entries := Entries(l.failures, source);
      if e.Check? {
        RecentOfRecent(entries, e.now - RATE_WINDOW_SECONDS, c);
      } else if e.Fail? {
        RecentSnoc(entries, e.now, c);
        RecentSnoc(h, e.now, c);
      }
    }
  }

  lemma {:induction false} PrunedKeepsWindow(es: seq<Event>, source: string, c: real)
    requires forall e | e in es :: e.now - RATE_WINDOW_SECONDS <= c
    ensures Recent(Entries(Run(es).failures, source), c) == Recent(History(es, source), c)
  {
    if es == [] {
    } else {
      var init, e := es[..|es| - 1], es[|es| - 1];
      assert es == init + [e];
      PrunedKeepsWindow(init, source, c);
      PrunedStep(Run(init), e, source, c, History(init, source));
    }
  }

  /** The pruned store answers as the complete log would. */
  lemma PruningRefinesHistory(es: seq<Event>, source: string, now: real)
    requires Until(es, now)
    ensures Throttled(Run(es).failures, source, now) <==>
            |Recent(History(es, source), now - RATE_WINDOW_SECONDS)| >= RATE_MAX_FAILURES
  {
    PrunedKeepsWindow(es, source, now - RATE_WINDOW_SECONDS);
  }

  lemma {:induction false} HistoryUntil(es: seq<Event>, source: string, now: real)
    requires Until(es, now)
    ensures forall i | 0 <= i < |History(es, source)| :: History(es, source)[i] <= now
  {
    if es == [] {
    } else {
      var init, e := es[..|es| - 1], es[|es| - 1];
      assert es == init + [e];
      HistoryUntil(init, source, now);
    }
  }

  lemma {:induction false} HistoryAscends(es: seq<Event>, source: string)
    requires Valid(es)
    ensures Ascending(History(es, source))
  {
    if es == [] {
    } else {
      var init, e := es[..|es| - 1], es[|es| - 1];
      HistoryAscends(init, source);
      HistoryUntil(init, source, e.now);
    }
  }

  /** A lockout holds exactly while the tenth latest failure is no more than 60 seconds old. */
  lemma LockedOutIffTenthLatest(es: seq<Event>, source: string, now: real)
    requires Valid(es) && Until(es, now)
    ensures var h := History(es, source);
            Throttled(Run(es).failures, source, now) <==>
            |h| >= 10 && h[|h| - 10] + 60.0 >= now
  {
    PruningRefinesHistory(es, source, now);
    HistoryAscends(es, source);
    RecentReaches(History(es, source), now - RATE_WINDOW_SECONDS, RATE_MAX_FAILURES);
  }

  lemma {:induction false} HistoryWithout(pre: seq<Event>, e: Event, post: seq<Event>, source: string)
    requires !e.Fail?
    ensures History(pre + [e] + post, source) == History(pre + post, source)
  {
    if post == [] {
      assert (pre + [e])[..|pre|] == pre;
      assert pre + [e] + post == pre + [e] && pre + post == pre;
    } else {
      var p, last := post[..|post| - 1], post[|post| - 1];
      HistoryWithout(pre, e, p, source);
      assert (pre + [e] + post)[..|pre + [e] + post| - 1] == pre + [e] + p;
      assert (pre + post)[..|pre + post| - 1] == pre + p;
    }
  }

  lemma SameAnswerWithout(pre: seq<Event>, e: Event, post: seq<Event>, source: string, now: real)
    requires !e.Fail? && Until(pre + [e] + post, now)
    ensures Throttled(Run(pre + [e] + post).failures, source, now) <==> Throttled(Run(pre + post).failures, source, now)
  {
    HistoryWithout(pre, e, post, source);
    PruningRefinesHistory(pre + [e] + post, source, now);
    forall x | x in pre + post ensures x.now <= now { assert x in pre + [e] + post; }
    PruningRefinesHistory(pre + post, source, now);
  }

  lemma SplitLast(pre: seq<Event>, e: Event, post: seq<Event>)
    requires post != []
    ensures var p := post[..|post| - 1];
            && pre + [e] + post == pre + [e] + p + [post[|post| - 1]]
            && pre + post == pre + p + [post[|post| - 1]]
  {
    assert post == post[..|post| - 1] + [post[|post| - 1]];
  }

  lemma RunSnoc(es: seq<Event>, e: Event)
    ensures Run(es + [e]) == Step(Run(es), e)
    ensures Valid(es + [e]) <==> Valid(es) && Until(es, e.now) && (e.Check? || InFlight(Run(es), e.source) > 0)
  {
    assert (es + [e])[..|es|] == es;
  }

  lemma SameLoadStep(a: Limiter, b: Limiter, e: Event, source: string)
    requires InFlight(a, source) == InFlight(b, source)
    requires e.Check? ==> (Throttled(a.failures, e.source, e.now) <==> Throttled(b.failures, e.source, e.now))
    ensures InFlight(Step(a, e), source) == InFlight(Step(b, e), source)
  {
  }

  lemma {:induction false} SameLoadWithout(pre: seq<Event>, e: Event, post: seq<Event>, source: string)
    requires e.Check? && Throttled(Run(pre).failures, e.source, e.now) && Valid(pre + [e] + post)
    ensures InFlight(Run(pre + [e] + post), source) == InFlight(Run(pre + post), source)
  {
    if post == [] {
      RunSnoc(pre, e);
      assert pre + [e] + post == pre + [e] && pre + post == pre;
    } else {
      var p, last := post[..|post| - 1], post[|post| - 1];
      SplitLast(pre, e, post);
      RunSnoc(pre + [e] + p, last);
      RunSnoc(pre + p, last);
      SameLoadWithout(pre, e, p, source);
      SameAnswerWithout(pre, e, p, last.source, last.now);
      SameLoadStep(Run(pre + [e] + p), Run(pre + p), last, source);
    }
  }

  lemma {:induction false} ValidWithout(pre: seq<Event>, e: Event, post: seq<Event>)
    requires e.Check? && Throttled(Run(pre).failures, e.source, e.now) && Valid(pre + [e] + post)
    ensures Valid(pre + post)
  {
    if post == [] {
      RunSnoc(pre, e);
      assert pre + [e] + post == pre + [e] && pre + post == pre;
    } else {
      var p, last := post[..|post| - 1], post[|post| - 1];
      SplitLast(pre, e, post);
      RunSnoc(pre + [e] + p, last);
      RunSnoc(pre + p, last);
      ValidWithout(pre, e, p);
      SameLoadWithout(pre, e, p, last.source);
      forall x | x in pre + p ensures x.now <= last.now { assert x in pre + [e] + p; }
    }
  }

  /** A request answered 429 leaves no trace: without it the run is still valid, every later answer
      and the number of requests in flight are the same, so retrying does not prolong a lockout. */
  lemma RejectedLeavesNoTrace(pre: seq<Event>, e: Event, post: seq<Event>, source: string, now: real)
    requires e.Check? && Throttled(Run(pre).failures, e.source, e.now)
    requires Valid(pre + [e] + post) && Until(pre + [e] + post, now)
    ensures Valid(pre + post)
    ensures Throttled(Run(pre + [e] + post).failures, source, now) <==> Throttled(Run(pre + post).failures, source, now)
    ensures InFlight(Run(pre + [e] + post), source) == InFlight(Run(pre + post), source)
  {
    ValidWithout(pre, e, post);
    SameAnswerWithout(pre, e, post, source, now);
    SameLoadWithout(pre, e, post, source);
  }

  // --- the counting bound ---

  lemma LoadStep(l: Limiter, e: Event, source: string, k: nat, now: real, h: seq<real>)
    requires e.now <= now && InFlight(Step(l, e), source) <= k
    requires e.Fail? && e.source == source ==> InFlight(l, source) > 0
    requires || Throttled(l.failures, e.source, e.now)
             || |Recent(h, e.now - RATE_WINDOW_SECONDS)| <= RATE_MAX_FAILURES - 1
             || e.source != source
    requires |Recent(h, now - RATE_WINDOW_SECONDS)| + InFlight(l, source) <= RATE_MAX_FAILURES - 1 + k
    ensures |Recent(Logged(h, e, source), now - RATE_WINDOW_SECONDS)| + InFlight(Step(l, e), source) <=
            RATE_MAX_FAILURES - 1 + k
  {
    if e.source == source {
      if e.Check? {
        RecentOfRecent(h, e.now - RATE_WINDOW_SECONDS, now - RATE_WINDOW_SECONDS);
      } else if e.Fail? {
        RecentSnoc(h, e.now, now - RATE_WINDOW_SECONDS);
      }
    }
  }

  /** Recent failures plus requests in flight never exceed 9 + k. */
  lemma {:induction false} LoadBound(es: seq<Event>, source: string, k: nat, now: real)
    requires Valid(es) && AtMostInFlight(es, source, k) && Until(es, now)
    ensures |Recent(History(es, source), now - RATE_WINDOW_SECONDS)| + InFlight(Run(es), source) <=
            RATE_MAX_FAILURES - 1 + k
  {
    if es == [] {
    } else {
      var init, e := es[..|es| - 1], es[|es| - 1];
      assert es == init + [e];
      LoadBound(init, source, k, now);
      PruningRefinesHistory(init, e.source, e.now);
      LoadStep(Run(init), e, source, k, now, History(init, source));
    }
  }

  lemma WindowEnding(es: seq<Event>, source: string, k: nat, from: real, now: real)
    requires Valid(es) && AtMostInFlight(es, source, k) && Until(es, now) && now <= from + RATE_WINDOW_SECONDS
    ensures CountBetween(History(es, source), from, from + RATE_WINDOW_SECONDS) <= RATE_MAX_FAILURES - 1 + k
  {
    LoadBound(es, source, k, now);
    CountWithinRecent(History(es, source), from, from + RATE_WINDOW_SECONDS, now - RATE_WINDOW_SECONDS);
  }

  /** Every closed 60-second window of every run holds at most 9 + k recorded failures of a source
      that never has more than k requests between check and record: 10 when requests are sequential. */
  lemma {:induction false} WindowBound(es: seq<Event>, source: string, k: nat, from: real)
    requires Valid(es) && AtMostInFlight(es, source, k)
    ensures CountBetween(History(es, source), from, from + 60.0) <= 9 + k
  {
    if es == [] {
    } else {
      var init, e := es[..|es| - 1], es[|es| - 1];
      assert es == init + [e];
      WindowBound(init, source, k, from);
      if e.Fail? && e.source == source && from <= e.now <= from + RATE_WINDOW_SECONDS {
        WindowEnding(es, source, k, from, e.now);
      }
    }
  }

  /** The memory the throttle keeps for a source is bounded in the same way. */
  lemma {:induction false} StoredBound(es: seq<Event>, source: string, k: nat)
    requires Valid(es) && AtMostInFlight(es, source, k)
    ensures |Entries(Run(es).failures, source)| + InFlight(Run(es), source) <= RATE_MAX_FAILURES - 1 + k
  {
    if es == [] {
    } else {
      var init, e := es[..|es| - 1], es[|es| - 1];
      StoredBound(init, source, k);
      if e.Check? && e.source == source {
        RecentOfRecent(Entries(Run(init).failures, source), e.now - RATE_WINDOW_SECONDS, e.now - RATE_WINDOW_SECONDS);
      }
    }
  }

  // --- requests that do not overlap ---

  datatype Request = Request(source: string, checkedAt: real, endedAt: real, accepted: bool)

  /** One whole request after another: a throttled one ends with its check. */
  function Expand(rs: seq<Request>): seq<Event> {
    if rs == [] then []
    else
      var before, r := Expand(rs[..|rs| - 1]), rs[|rs| - 1];
      var checked := before + [Check(r.source, r.checkedAt)];
      if Throttled(Run(before).failures, r.source, r.checkedAt) then checked
      else checked + [if r.accepted then Allow(r.source, r.endedAt) else Fail(r.source, r.endedAt)]
  }

  /** Each whole request changes the failure store as `InternalAuth` says it does. */
  lemma ExpandIsInternalAuth(rs: seq<Request>, r: Request)
    ensures var failures := Run(Expand(rs)).failures;
            var pruned := Pruned(failures, r.source, r.checkedAt);
            Run(Expand(rs + [r])).failures ==
            if Throttled(failures, r.source, r.checkedAt) || r.accepted then pruned
            else Recorded(pruned, r.source, r.endedAt)
  {
    assert (rs + [r])[..|rs|] == rs;
    var es, e := Expand(rs), Check(r.source, r.checkedAt);
    RunSnoc(es, e);
    RunSnoc(es + [e], if r.accepted then Allow(r.source, r.endedAt) else Fail(r.source, r.endedAt));
  }

  lemma AtMostSnoc(es: seq<Event>, e: Event, source: string, k: nat)
    requires AtMostInFlight(es, source, k) && InFlight(Step(Run(es), e), source) <= k
    ensures AtMostInFlight(es + [e], source, k)
  {
    RunSnoc(es, e);
    assert (es + [e])[..|es|] == es;
  }

  lemma SequentialStep(es: seq<Event>, r: Request, source: string)
    requires InFlight(Run(es), source) == InFlight(Run(es), r.source) == 0 && AtMostInFlight(es, source, 1)
    ensures var checked := es + [Check(r.source, r.checkedAt)];
            var ended := checked + [if r.accepted then Allow(r.source, r.endedAt) else Fail(r.source, r.endedAt)];
            && AtMostInFlight(checked, source, 1) && AtMostInFlight(ended, source, 1)
            && InFlight(Run(ended), source) == 0
            && (Throttled(Run(es).failures, r.source, r.checkedAt) ==> InFlight(Run(checked), source) == 0)
  {
    var e := Check(r.source, r.checkedAt);
    RunSnoc(es, e);
    AtMostSnoc(es, e, source, 1);
    var last := if r.accepted then Allow(r.source, r.endedAt) else Fail(r.source, r.endedAt);
    RunSnoc(es + [e], last);
    AtMostSnoc(es + [e], last, source, 1);
  }

  lemma {:induction false} SequentialAtMostOne(rs: seq<Request>, source: string)
    ensures InFlight(Run(Expand(rs)), source) == 0
    ensures AtMostInFlight(Expand(rs), source, 1)
  {
    if rs == [] {
    } else {
      var init, r := rs[..|rs| - 1], rs[|rs| - 1];
      SequentialAtMostOne(init, source);
      SequentialAtMostOne(init, r.source);
      SequentialStep(Expand(init), r, source);
    }
  }

  /** Requests that do not overlap keep the configured limit: no closed 60-second window holds more
      than ten failures of a source. */
  lemma SequentialBound(rs: seq<Request>, source: string, from: real)
    requires Valid(Expand(rs))
    ensures CountBetween(History(Expand(rs), source), from, from + 60.0) <= 10
  {
    SequentialAtMostOne(rs, source);
    WindowBound(Expand(rs), source, 1, from);
  }

  // --- the bound is attained ---

  /** `es` is a valid run at time 0 that leaves `n` failures, all stored, and `m` in flight. */
  ghost predicate Leaves(es: seq<Event>, source: string, n: nat, m: nat, k: nat) {
    && Valid(es) && Until(es, 0.0) && AtMostInFlight(es, source, k)
    && Entries(Run(es).failures, source) == History(es, source)
    && InFlight(Run(es), source) == m
    && |History(es, source)| == CountBetween(History(es, source), 0.0, RATE_WINDOW_SECONDS) == n
    && (forall t | t in History(es, source) :: t == 0.0)
  }

  lemma {:induction false} AllRecent(ts: seq<real>, c: real)
    requires forall t | t in ts :: t >= c
    ensures Recent(ts, c) == ts
  {
    if ts == [] {
    } else {
      var init := ts[..|ts| - 1];
      forall t | t in init ensures t >= c { assert t in ts; }
      AllRecent(init, c);
      assert ts[|ts| - 1] in ts;
      assert ts == init + [ts[|ts| - 1]];
    }
  }

  lemma LeavesAfterCheck(es: seq<Event>, source: string, n: nat, m: nat, k: nat)
    requires Leaves(es, source, n, m, k) && n < RATE_MAX_FAILURES && m < k
    ensures Leaves(es + [Check(source, 0.0)], source, n, m + 1, k)
  {
    assert (es + [Check(source, 0.0)])[..|es|] == es;
    AllRecent(History(es, source), -60.0);
  }

  lemma LeavesAfterFail(es: seq<Event>, source: string, n: nat, m: nat, k: nat)
    requires Leaves(es, source, n, m, k) && m > 0
    ensures Leaves(es + [Fail(source, 0.0)], source, n + 1, m - 1, k)
  {
    assert (es + [Fail(source, 0.0)])[..|es|] == es;
    var h := History(es, source);
    assert (h + [0.0])[..|h|] == h;
  }

  lemma LeavesAfterPair(es: seq<Event>, source: string, n: nat, k: nat)
    requires Leaves(es, source, n, 0, k) && n < RATE_MAX_FAILURES && k >= 1
    ensures Leaves(es + [Check(source, 0.0)] + [Fail(source, 0.0)], source, n + 1, 0, k)
  {
    LeavesAfterCheck(es, source, n, 0, k);
    LeavesAfterFail(es + [Check(source, 0.0)], source, n, 1, k);
  }

  /** `n` requests one after the other, all failing. */
  lemma {:induction false} FailInTurn(n: nat, source: string, k: nat) returns (es: seq<Event>)
    requires n < RATE_MAX_FAILURES && k >= 1
    ensures Leaves(es, source, n, 0, k)
  {
    if n == 0 {
      es := [];
    } else {
      es := FailInTurn(n - 1, source, k);
      LeavesAfterPair(es, source, n - 1, k);
      es := es + [Check(source, 0.0)] + [Fail(source, 0.0)];
    }
  }

  /** `j` more requests are checked and none of them ends. */
  lemma {:induction false} CheckTogether(es: seq<Event>, j: nat, source: string, n: nat, k: nat)
    returns (es': seq<Event>)
    requires Leaves(es, source, n, 0, k) && n < RATE_MAX_FAILURES && j <= k
    ensures Leaves(es', source, n, j, k)
  {
    if j == 0 {
      es' := es;
    } else {
      es' := CheckTogether(es, j - 1, source, n, k);
      LeavesAfterCheck(es', source, n, j - 1, k);
      es' := es' + [Check(source, 0.0)];
    }
  }

  /** All `m` requests in flight fail. */
  lemma {:induction false} FailTogether(es: seq<Event>, source: string, n: nat, m: nat, k: nat)
    returns (es': seq<Event>)
    requires Leaves(es, source, n, m, k)
    ensures Leaves(es', source, n + m, 0, k)
    decreases m
  {
    if m == 0 {
      es' := es;
    } else {
      LeavesAfterFail(es, source, n, m, k);
      es' := FailTogether(es + [Fail(source, 0.0)], source, n + 1, m - 1, k);
    }
  }

  /** The bound is exact for every k: nine failures, then k requests that are all checked before any
      of them fails, are a valid run with at most k in flight that reaches it. The configured limit
      of 10 failures a minute is therefore exceeded as soon as two overlap. */
  lemma WindowBoundAttained(k: nat, source: string) returns (es: seq<Event>)
    requires k >= 1
    ensures Valid(es) && AtMostInFlight(es, source, k)
    ensures CountBetween(History(es, source), 0.0, 60.0) == 9 + k
  {
    es := FailInTurn(RATE_MAX_FAILURES - 1, source, k);
    es := CheckTogether(es, k, source, RATE_MAX_FAILURES - 1, k);
    es := FailTogether(es, source, RATE_MAX_FAILURES - 1, k, k);
  }
}
