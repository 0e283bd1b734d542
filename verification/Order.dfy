/** ORDER BY on TEXT: strings by code point, and the sorted listing of a finite set. */
module Order {

  predicate Less(a: string, b: string) {
    b != "" && (a == "" || a[0] < b[0] || (a[0] == b[0] && Less(a[1..], b[1..])))
  }

  /** `a` and `b` agree up to `i`, where `a` ends or has the smaller code point. */
  predicate Parts(a: string, b: string, i: int) {
    0 <= i <= |a| && i < |b| && a[..i] == b[..i] && (i == |a| || a[i] < b[i])
  }

  /** By code point: the first one that differs decides, and a prefix comes before what it is a prefix of. */
  ghost predicate Precedes(a: string, b: string) {
    exists i :: Parts(a, b, i)
  }

  lemma PartsTail(a: string, b: string, i: int)
    requires a != "" && b != "" && a[0] == b[0] && i > 0
    ensures Parts(a, b, i) <==> Parts(a[1..], b[1..], i - 1)
  {
    if i <= |a| && i <= |b| {
      var s, t := a[1..][..i - 1], b[1..][..i - 1];
      assert a[..i] == [a[0]] + s && b[..i] == [b[0]] + t;
      assert a[..i][1..] == s && b[..i][1..] == t;
      assert i < |a| ==> a[1..][i - 1] == a[i];
      assert i < |b| ==> b[1..][i - 1] == b[i];
    }
  }

  lemma {:induction false} LessIffPrecedes(a: string, b: string)
    ensures Less(a, b) <==> Precedes(a, b)
  {
    if a == "" || b == "" || a[0] != b[0] {
      if Less(a, b) { assert Parts(a, b, 0); }
      if i :| Parts(a, b, i) && i > 0 { assert a[..i][0] == b[..i][0]; }
    } else {
      LessIffPrecedes(a[1..], b[1..]);
      if Less(a, b) {
        var i :| Parts(a[1..], b[1..], i);
        PartsTail(a, b, i + 1);
      }
      if i :| Parts(a, b, i) {
        assert i > 0;
        PartsTail(a, b, i);
      }
    }
  }

  ghost predicate Ascending(ss: seq<string>) {
    forall i, j | 0 <= i < j < |ss| :: Less(ss[i], ss[j])
  }

  lemma {:induction false} LessTrichotomy(a: string, b: string)
    ensures a == b || Less(a, b) || Less(b, a)
    ensures !(Less(a, b) && Less(b, a)) && !Less(a, a)
  {
    if a != "" && b != "" {
      LessTrichotomy(a[1..], b[1..]);
      assert a == [a[0]] + a[1..] && b == [b[0]] + b[1..];
    }
    if a != "" { LessTrichotomy(a[1..], a[1..]); }
  }

  lemma {:induction false} LessTransitive(a: string, b: string, c: string)
    requires Less(a, b) && Less(b, c)
    ensures Less(a, c)
  {
    if a != "" && a[0] == b[0] == c[0] {
      LessTransitive(a[1..], b[1..], c[1..]);
    }
  }

  lemma LeastExists(s: set<string>) returns (m: string)
    requires s != {}
    ensures m in s && forall x | x in s && x != m :: Less(m, x)
  {
    var y :| y in s;
    var rest := s - {y};
    if rest == {} {
      assert s == {y};
      m := y;
    } else {
      var n := LeastExists(rest);
      LessTrichotomy(n, y);
      m := if Less(y, n) then y else n;
      forall x | x in s && x != m ensures Less(m, x) {
        if m == y && x != n { LessTransitive(y, n, x); }
      }
    }
  }

  lemma LeastIsThere(s: set<string>)
    requires s != {}
    ensures exists m :: m in s && forall x | x in s && x != m :: Less(m, x)
  {
    var m := LeastExists(s);
  }

  ghost function Least(s: set<string>): (m: string)
    requires s != {}
    ensures m in s && forall x | x in s && x != m :: Less(m, x)
  {
    LeastIsThere(s);
    var m :| m in s && forall x | x in s && x != m :: Less(m, x);
    m
  }

  ghost function Sorted(s: set<string>): (ss: seq<string>)
    ensures Ascending(ss) && |ss| == |s|
    ensures forall x :: x in ss <==> x in s
  {
    if s == {} then []
    else
      var m := Least(s);
      [m] + Sorted(s - {m})
  }

  lemma NonemptyHasMember(ss: seq<string>)
    requires ss != []
    ensures exists x :: x in ss
  {
    assert ss[0] in ss;
  }

  /** The ascending listing of a set is unique. */
  lemma {:induction false} AscendingUnique(a: seq<string>, b: seq<string>)
    requires Ascending(a) && Ascending(b)
    requires forall x :: x in a <==> x in b
    ensures a == b
  {
    if a == [] {
      if b != [] { NonemptyHasMember(b); assert false; }
    } else {
      assert a[0] in b;
      assert b[0] in a;
      LessTrichotomy(a[0], b[0]);
      var i :| 0 <= i < |b| && b[i] == a[0];
      var j :| 0 <= j < |a| && a[j] == b[0];
      assert i == 0;
      forall x ensures x in a[1..] <==> x in b[1..] {
        LessTrichotomy(a[0], a[0]);
        assert a == [a[0]] + a[1..] && b == [b[0]] + b[1..];
        assert a[0] !in a[1..] && a[0] !in b[1..];
        assert x in a <==> x in b;
      }
      AscendingUnique(a[1..], b[1..]);
    }
  }
}
