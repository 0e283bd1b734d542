/** JSON values as `json.loads` builds them, with Python's `==` and truth value. */
module Json {

  /** `Float` stands for a finite double; NaN and the infinities are not JSON values here. */
  datatype Json =
    | Null
    | Bool(b: bool)
    | Int(n: int)
    | Float(x: real)
    | Str(s: string)
    | Arr(items: seq<Json>)
    | Obj(fields: map<string, Json>)

  type Dict = map<string, Json>

  predicate IsNumber(j: Json) {
    j.Bool? || j.Int? || j.Float?
  }

  /** The numeric value that Python compares: `True` is 1, and 1 equals 1.0. */
  function NumericValue(j: Json): real
    requires IsNumber(j)
  {
    match j
    case Bool(b) => if b then 1.0 else 0.0
    case Int(n) => n as real
    case Float(x) => x
  }

  /** Python's `a == b` on parsed JSON. */
  predicate PyEq(a: Json, b: Json) {
    if IsNumber(a) && IsNumber(b) then
      NumericValue(a) == NumericValue(b)
    else match (a, b)
      case (Null, Null) => true
      case (Str(s), Str(t)) => s == t
      case (Arr(xs), Arr(ys)) =>
        |xs| == |ys| && forall i | 0 <= i < |xs| :: PyEq(xs[i], ys[i])
      case (Obj(f), Obj(g)) =>
        f.Keys == g.Keys && forall k | k in f.Keys :: PyEq(f[k], g[k])
      case _ => false
  }

  /** The form in which equal values are identical: every number a double, `True` and `False` among them. */
  function Canonical(j: Json): Json {
    match j
    case Bool(b) => Float(if b then 1.0 else 0.0)
    case Int(n) => Float(n as real)
    case Arr(xs) => Arr(seq(|xs|, i requires 0 <= i < |xs| => Canonical(xs[i])))
    case Obj(f) => Obj(map k | k in f :: Canonical(f[k]))
    case _ => j
  }

  /** Python's `bool(j)`. */
  predicate Truthy(j: Json) {
    match j
    case Null => false
    case Str(s) => s != ""
    case Arr(xs) => xs != []
    case Obj(f) => f != map[]
    case _ => NumericValue(j) != 0.0
  }

  /** `d.get(k)`: an absent key reads as `None`. */
  function Get(d: Dict, k: string): (j: Json) {
    if k in d then d[k] else Null
  }

  lemma {:induction false} SameItems(xs: seq<Json>, ys: seq<Json>)
    requires forall x, y | x in xs && y in ys :: PyEq(x, y) <==> Canonical(x) == Canonical(y)
    ensures PyEq(Arr(xs), Arr(ys)) <==> Canonical(Arr(xs)) == Canonical(Arr(ys))
  {
    var cs, ds := Canonical(Arr(xs)).items, Canonical(Arr(ys)).items;
    assert |cs| == |xs| && |ds| == |ys|;
    if |xs| == |ys| {
      forall i | 0 <= i < |xs| ensures PyEq(xs[i], ys[i]) <==> cs[i] == ds[i] {
        assert xs[i] in xs && ys[i] in ys;
      }
    }
  }

  lemma {:induction false} SameFields(f: Dict, g: Dict)
    requires forall k | k in f.Keys && k in g.Keys :: PyEq(f[k], g[k]) <==> Canonical(f[k]) == Canonical(g[k])
    ensures PyEq(Obj(f), Obj(g)) <==> Canonical(Obj(f)) == Canonical(Obj(g))
  {
    var c, d := Canonical(Obj(f)).fields, Canonical(Obj(g)).fields;
    assert c.Keys == f.Keys && d.Keys == g.Keys;
    if c == d {
      forall k | k in f.Keys ensures PyEq(f[k], g[k]) { assert c[k] == d[k]; }
    }
  }

  /** Python's equality is identity of canonical forms: numbers compare by value across types, text and
      containers item by item and key by key, and nothing else is equal. */
  lemma {:induction false} PyEqIffSameCanonical(a: Json, b: Json)
    ensures PyEq(a, b) <==> Canonical(a) == Canonical(b)
  {
    match (a, b) {
      case (Arr(xs), Arr(ys)) =>
        forall x, y | x in xs && y in ys ensures PyEq(x, y) <==> Canonical(x) == Canonical(y) {
          PyEqIffSameCanonical(x, y);
        }
        SameItems(xs, ys);
      case (Obj(f), Obj(g)) =>
        forall k | k in f.Keys && k in g.Keys ensures PyEq(f[k], g[k]) <==> Canonical(f[k]) == Canonical(g[k]) {
          PyEqIffSameCanonical(f[k], g[k]);
        }
        SameFields(f, g);
      case _ =>
    }
  }

  /** What Python takes for false: a number equal to `False`, null, and what is empty. */
  predicate Falsy(j: Json) {
    PyEq(j, Bool(false)) || j == Null || j == Str("") || j == Arr([]) || j == Obj(map[])
  }

  lemma TruthyIff(j: Json)
    ensures Truthy(j) <==> !Falsy(j)
  {
  }

  lemma {:induction false} PyEqReflexive(a: Json)
    ensures PyEq(a, a)
  {
    match a {
      case Arr(xs) =>
        forall i | 0 <= i < |xs| ensures PyEq(xs[i], xs[i]) { PyEqReflexive(xs[i]); }
      case Obj(f) =>
        forall k | k in f.Keys ensures PyEq(f[k], f[k]) { PyEqReflexive(f[k]); }
      case _ =>
    }
  }

  lemma {:induction false} PyEqSymmetric(a: Json, b: Json)
    requires PyEq(a, b)
    ensures PyEq(b, a)
  {
    match (a, b) {
      case (Arr(xs), Arr(ys)) =>
        forall i | 0 <= i < |xs| ensures PyEq(ys[i], xs[i]) { PyEqSymmetric(xs[i], ys[i]); }
      case (Obj(f), Obj(g)) =>
        forall k | k in f.Keys ensures PyEq(g[k], f[k]) { PyEqSymmetric(f[k], g[k]); }
      case _ =>
    }
  }

  lemma {:induction false} PyEqTransitive(a: Json, b: Json, c: Json)
    requires PyEq(a, b) && PyEq(b, c)
    ensures PyEq(a, c)
  {
    match (a, b, c) {
      case (Arr(xs), Arr(ys), Arr(zs)) =>
        forall i | 0 <= i < |xs| ensures PyEq(xs[i], zs[i]) { PyEqTransitive(xs[i], ys[i], zs[i]); }
      case (Obj(f), Obj(g), Obj(h)) =>
        forall k | k in f.Keys ensures PyEq(f[k], h[k]) { PyEqTransitive(f[k], g[k], h[k]); }
      case _ =>
    }
  }
}
