/**
 JSON values as Python's json module hands them to tools/codex_schema.py: an
 integer and a float are different values even when they are numerically
 equal, and objects are unordered maps.
 */
module Json {

  /** A finite float is its as_integer_ratio: an odd numerator over a power of
      two, or an integer over one. */
  datatype RawNum = Int(n: int) | Flt(num: int, exp: nat)

  type Num = x: RawNum | x.Flt? ==> x.exp == 0 || x.num % 2 == 1
    witness Int(0)

  datatype Json =
    | Null
    | Bool(b: bool)
    | Number(x: Num)
    | Str(s: string)
    | Arr(items: seq<Json>)
    | Obj(members: map<string, Json>)

  function Pow2(e: nat): (p: nat)
    ensures p >= 1
  {
    if e == 0 then 1 else 2 * Pow2(e - 1)
  }

  /** The exact rational value of a number. */
  function Val(x: Num): real {
    match x
    case Int(n) => n as real
    case Flt(num, exp) => num as real / Pow2(exp) as real
  }

  /** Equality as JSON: numbers by rational value, everything else by shape. */
  predicate SameJson(v: Json, w: Json) {
    match (v, w)
    case (Null, Null) => true
    case (Bool(b), Bool(c)) => b == c
    case (Number(x), Number(y)) => Val(x) == Val(y)
    case (Str(s), Str(t)) => s == t
    case (Arr(s), Arr(t)) => |s| == |t| && forall i :: 0 <= i < |s| ==> SameJson(s[i], t[i])
    case (Obj(m), Obj(n)) => m.Keys == n.Keys && forall k :: k in m ==> SameJson(m[k], n[k])
    case _ => false
  }

  /** A float that is a whole number becomes the integer. */
  function CanonNum(x: Num): Num {
    if x.Flt? && x.exp == 0 then Int(x.num) else x
  }

  /** The representative of a SameJson class; see SameJsonIsCanon. */
  function Canon(v: Json): Json {
    match v
    case Number(x) => Number(CanonNum(x))
    case Arr(s) => Arr(seq(|s|, i requires 0 <= i < |s| => Canon(s[i])))
    case Obj(m) => Obj(map k | k in m :: Canon(m[k]))
    case _ => v
  }

  /** Python's ==, which also identifies True with 1 and False with 0. */
  predicate PyEq(v: Json, w: Json) {
    match (v, w)
    case (Arr(s), Arr(t)) => |s| == |t| && forall i :: 0 <= i < |s| ==> PyEq(s[i], t[i])
    case (Obj(m), Obj(n)) => m.Keys == n.Keys && forall k :: k in m ==> PyEq(m[k], n[k])
    case _ => PyScalar(v) == PyScalar(w)
  }

  function PyScalar(v: Json): Json {
    match v
    case Bool(b) => Number(Int(if b then 1 else 0))
    case Number(x) => Number(CanonNum(x))
    case _ => v
  }

  /** Somewhere v holds a boolean where w holds a number, or the reverse. */
  predicate Confuses(v: Json, w: Json) {
    match (v, w)
    case (Bool(_), Number(_)) => true
    case (Number(_), Bool(_)) => true
    case (Arr(s), Arr(t)) => exists i :: 0 <= i < |s| && i < |t| && Confuses(s[i], t[i])
    case (Obj(m), Obj(n)) => exists k :: k in m && k in n && Confuses(m[k], n[k])
    case _ => false
  }

  /** No float anywhere. */
  predicate Integral(v: Json) {
    match v
    case Number(x) => x.Int?
    case Arr(s) => forall i :: 0 <= i < |s| ==> Integral(s[i])
    case Obj(m) => forall k :: k in m ==> Integral(m[k])
    case _ => true
  }

  // ---------------------------------------------------------------- lemmas

  lemma Twice(n: int, p: int)
    ensures n * (2 * p) == 2 * (n * p)
  {}

  /** A dyadic rational has one normal form. */
  lemma {:induction false} DyadicUnique(n: int, e: nat, m: int, f: nat)
    requires e == 0 || n % 2 == 1
    requires f == 0 || m % 2 == 1
    requires n * Pow2(f) == m * Pow2(e)
    ensures n == m && e == f
  {
    if e > 0 && f > 0 {
      Twice(n, Pow2(f - 1));
      Twice(m, Pow2(e - 1));
      DyadicUnique(n, e - 1, m, f - 1);
    } else if e > 0 {
      Twice(m, Pow2(e - 1));
      OddIsNotTwice(n, m * Pow2(e - 1));
    } else if f > 0 {
      Twice(n, Pow2(f - 1));
      OddIsNotTwice(m, n * Pow2(f - 1));
    }
  }

  lemma OddIsNotTwice(n: int, k: int)
    requires n % 2 == 1
    ensures n != 2 * k
  {}

  lemma CrossMultiply(n: int, p: nat, m: int, q: nat)
    requires p > 0 && q > 0
    ensures n as real / p as real == m as real / q as real <==> n * q == m * p
  {
    var x, y := n as real / p as real, m as real / q as real;
    assert x * p as real == n as real && y * q as real == m as real;
    assert (n * q) as real == n as real * q as real;
    assert (m * p) as real == m as real * p as real;
    assert n as real * q as real == x * (p as real * q as real);
    assert m as real * p as real == y * (p as real * q as real);
    assert p as real * q as real > 0.0;
    if n * q == m * p {
      assert (x - y) * (p as real * q as real) == 0.0;
    }
  }

  function Numerator(x: Num): int { if x.Int? then x.n else x.num }
  function Exponent(x: Num): nat { if x.Int? then 0 else x.exp }

  lemma ValIsRatio(x: Num)
    ensures Val(x) == Numerator(x) as real / Pow2(Exponent(x)) as real
  {
    assert Pow2(0) == 1;
  }

  lemma SameRatio(x: Num, y: Num)
    requires Numerator(x) * Pow2(Exponent(y)) == Numerator(y) * Pow2(Exponent(x))
    ensures CanonNum(x) == CanonNum(y)
  {
    DyadicUnique(Numerator(x), Exponent(x), Numerator(y), Exponent(y));
  }

  lemma NumValueIsCanon(x: Num, y: Num)
    ensures Val(x) == Val(y) <==> CanonNum(x) == CanonNum(y)
  {
    if CanonNum(x) != CanonNum(y) && Val(x) == Val(y) {
      ValIsRatio(x);
      ValIsRatio(y);
      CrossMultiply(Numerator(x), Pow2(Exponent(x)), Numerator(y), Pow2(Exponent(y)));
      SameRatio(x, y);
    }
  }

  lemma {:induction false} SameJsonIsCanon(v: Json, w: Json)
    ensures SameJson(v, w) <==> Canon(v) == Canon(w)
  {
    match (v, w)
    case (Number(x), Number(y)) => NumValueIsCanon(x, y);
    case (Arr(s), Arr(t)) =>
      forall i | 0 <= i < |s| && i < |t| ensures SameJson(s[i], t[i]) <==> Canon(s[i]) == Canon(t[i]) {
        SameJsonIsCanon(s[i], t[i]);
      }
      if Canon(v) == Canon(w) {
        assert |s| == |Canon(v).items| == |Canon(w).items| == |t|;
        forall i | 0 <= i < |s| ensures SameJson(s[i], t[i]) {
          assert Canon(v).items[i] == Canon(w).items[i];
        }
      }
    case (Obj(m), Obj(n)) =>
      forall k | k in m && k in n ensures SameJson(m[k], n[k]) <==> Canon(m[k]) == Canon(n[k]) {
        SameJsonIsCanon(m[k], n[k]);
      }
      if Canon(v) == Canon(w) {
        assert m.Keys == Canon(v).members.Keys == Canon(w).members.Keys == n.Keys;
        forall k | k in m ensures SameJson(m[k], n[k]) {
          assert Canon(v).members[k] == Canon(w).members[k];
        }
      }
    case _ =>
  }

  /** Values Python calls equal are equal as JSON exactly when no boolean
      faces a number. */
  lemma {:induction false} PyEqIsCanon(v: Json, w: Json)
    requires PyEq(v, w)
    ensures Canon(v) == Canon(w) <==> !Confuses(v, w)
  {
    match (v, w)
    case (Arr(s), Arr(t)) =>
      forall i | 0 <= i < |s| ensures Canon(s[i]) == Canon(t[i]) <==> !Confuses(s[i], t[i]) {
        PyEqIsCanon(s[i], t[i]);
      }
      if Canon(v) == Canon(w) {
        forall i | 0 <= i < |s| ensures Canon(s[i]) == Canon(t[i]) {
          assert Canon(v).items[i] == Canon(w).items[i];
        }
      }
    case (Obj(m), Obj(n)) =>
      forall k | k in m ensures Canon(m[k]) == Canon(n[k]) <==> !Confuses(m[k], n[k]) {
        PyEqIsCanon(m[k], n[k]);
      }
      if Canon(v) == Canon(w) {
        forall k | k in m ensures Canon(m[k]) == Canon(n[k]) {
          assert Canon(v).members[k] == Canon(w).members[k];
        }
      }
      if !Confuses(v, w) {
        assert Canon(v).members == Canon(w).members;
      }
    case _ =>
  }
}
