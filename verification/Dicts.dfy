/** Key-level merging of JSON objects (`dict.update`) and subsequences of a log. */
module Dicts {
  import opened Prelude
  import opened Json

  /** The value under `k`, telling a null from an absent key. */
  function Lookup(d: Dict, k: string): Option<Json> {
    if k in d then Some(d[k]) else None
  }

  lemma SameLookups(a: Dict, b: Dict)
    ensures a == b <==> forall k :: Lookup(a, k) == Lookup(b, k)
  {
    if forall k :: Lookup(a, k) == Lookup(b, k) {
      forall k ensures k in a <==> k in b { assert Lookup(a, k) == Lookup(b, k); }
      forall k | k in a && k in b ensures a[k] == b[k] { assert Lookup(a, k) == Lookup(b, k); }
    }
  }

  /** `{}` updated by every element of `ps` in turn. */
  function MergeAll(ps: seq<Dict>): Dict {
    if ps == [] then map[] else MergeAll(ps[..|ps| - 1]) + ps[|ps| - 1]
  }

  /** `sub` can be had from `full` by dropping elements. */
  predicate Subsequence<T(==)>(sub: seq<T>, full: seq<T>)
    decreases |full|
  {
    if sub == [] then true
    else if full == [] then false
    else
      || (sub[|sub| - 1] == full[|full| - 1] && Subsequence(sub[..|sub| - 1], full[..|full| - 1]))
      || Subsequence(sub, full[..|full| - 1])
  }

  predicate EndsLike<T(==)>(sub: seq<T>, full: seq<T>) {
    sub != [] && full != [] && sub[|sub| - 1] == full[|full| - 1]
  }

  lemma MergeAllSnoc(ps: seq<Dict>, p: Dict)
    ensures MergeAll(ps + [p]) == MergeAll(ps) + p
  {
    assert (ps + [p])[..|ps|] == ps;
  }

  lemma SubsequenceSnoc<T>(sub: seq<T>, full: seq<T>, x: T)
    requires Subsequence(sub, full)
    ensures Subsequence(sub, full + [x])
    ensures Subsequence(sub + [x], full + [x])
  {
    assert (full + [x])[..|full|] == full;
    assert (sub + [x])[..|sub|] == sub;
  }

  /** Every element of a subsequence occurs in the full sequence. */
  lemma {:induction false} SubsequenceMember<T>(sub: seq<T>, full: seq<T>, x: T)
    requires Subsequence(sub, full) && x in sub
    ensures x in full
    decreases |full|
  {
    var init, tail := full[..|full| - 1], full[|full| - 1];
    assert full == init + [tail];
    if Subsequence(sub, init) {
      SubsequenceMember(sub, init, x);
    } else if x != tail {
      assert sub == sub[..|sub| - 1] + [tail];
      SubsequenceMember(sub[..|sub| - 1], init, x);
    }
  }

  lemma {:induction false} MergeAllKeys(ps: seq<Dict>, k: string)
    ensures k in MergeAll(ps) <==> exists p :: p in ps && k in p
  {
    if ps == [] {
    } else {
      var init, p := ps[..|ps| - 1], ps[|ps| - 1];
      assert ps == init + [p];
      MergeAllKeys(init, k);
    }
  }

  /** Merging a run of maps gives back the newest one exactly when no map in the run has a key
      the newest one lacks. */
  lemma ConflationIff(ms: seq<Dict>)
    requires ms != []
    ensures MergeAll(ms) == ms[|ms| - 1] <==> forall m :: m in ms ==> m.Keys <= ms[|ms| - 1].Keys
  {
    var newest := ms[|ms| - 1];
    forall k ensures k in MergeAll(ms) <==> exists p :: p in ms && k in p { MergeAllKeys(ms, k); }
    if MergeAll(ms) == newest {
      forall m | m in ms ensures m.Keys <= newest.Keys {
        forall k | k in m.Keys ensures k in newest { assert k in MergeAll(ms); }
      }
    }
    if forall m :: m in ms ==> m.Keys <= newest.Keys {
      assert MergeAll(ms).Keys <= newest.Keys;
    }
  }
}
