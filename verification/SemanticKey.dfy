/**
 semantic_json_key of tools/codex_schema.py at the level of the text it
 builds, and the proof that the text identifies a JSON value: two keys are
 equal exactly when the values are equal as JSON.
 */
module SemanticKey {
  import opened Json
  import NameOrder

  function HexDigit(d: nat): (c: char)
    requires d < 16
    ensures IsHex(c)
  {
    if d < 10 then ('0' as int + d) as char else ('a' as int + d - 10) as char
  }

  /** format(n, "x") */
  function Hex(n: nat): (s: string)
    ensures s != "" && AllHex(s)
  {
    if n < 16 then [HexDigit(n)] else Hex(n / 16) + [HexDigit(n % 16)]
  }

  predicate IsHex(c: char) { '0' <= c <= '9' || 'a' <= c <= 'f' }
  predicate AllHex(s: string) { forall i :: 0 <= i < |s| ==> IsHex(s[i]) }

  function SignedHex(n: int): string { if n < 0 then "-" + Hex(-n) else Hex(n) }

  /** The last k hex digits of n, zero padded. */
  function Padded(n: nat, k: nat): (s: string)
    ensures |s| == k
  {
    if k == 0 then "" else Padded(n / 16, k - 1) + [HexDigit(n % 16)]
  }

  /** One \u escape. */
  function UnitEscape(u: nat): string { "\\u" + Padded(u, 4) }

  /** One character inside json.dumps(..., ensure_ascii=True). */
  function Escape(c: char): (s: string)
    ensures s != "" && s[0] != '"'
  {
    var n := c as int;
    if c == '"' then "\\\""
    else if c == '\\' then "\\\\"
    else if n == 10 then "\\n"
    else if n == 13 then "\\r"
    else if n == 9 then "\\t"
    else if n == 12 then "\\f"
    else if n == 8 then "\\b"
    else if 32 <= n < 127 then [c]
    else if n < 0x10000 then UnitEscape(n)
    else
      var m := n - 0x10000;
      UnitEscape(0xd800 + m / 0x400) + UnitEscape(0xdc00 + m % 0x400)
  }

  function EscapeAll(s: string): string {
    if s == "" then "" else Escape(s[0]) + EscapeAll(s[1..])
  }

  function Quote(s: string): string { "\"" + (EscapeAll(s) + "\"") }

  /** Numerator and denominator of a number. */
  function Ratio(x: Num): (int, nat) {
    match x case Int(n) => (n, 1) case Flt(n, e) => (n, Pow2(e))
  }

  function NumBody(x: Num): string { SignedHex(Ratio(x).0) + ("/" + Hex(Ratio(x).1)) }

  function ItemKeys(s: seq<Json>): string {
    if s == [] then ""
    else if |s| == 1 then Key(s[0])
    else Key(s[0]) + ("," + ItemKeys(s[1..]))
  }

  /** `"name":key` for each name of the object v, comma separated. */
  function MemberKeys(names: seq<string>, v: Json): string
    requires v.Obj? && forall k :: k in names ==> k in v.members
    decreases v, 0, |names|
  {
    if names == [] then ""
    else
      assert names[0] in names;
      var head := Quote(names[0]) + (":" + Key(v.members[names[0]]));
      if |names| == 1 then head else head + ("," + MemberKeys(names[1..], v))
  }

  function Label(v: Json): string {
    match v
    case Null => "NoneType:" case Bool(_) => "bool:" case Number(_) => "number:"
    case Str(_) => "str:" case Arr(_) => "list:[" case Obj(_) => "object:{"
  }

  function Body(v: Json): string
    decreases v, 1
  {
    match v
    case Null => "null"
    case Bool(b) => if b then "true" else "false"
    case Number(x) => NumBody(x)
    case Str(s) => Quote(s)
    case Arr(s) => ItemKeys(s) + "]"
    case Obj(m) => MemberKeys(NameOrder.Sorted(m.Keys), v) + "}"
  }

  /** semantic_json_key */
  function Key(v: Json): string
    decreases v, 2
  {
    Label(v) + Body(v)
  }

  // ------------------------------------------------------ text, in general

  lemma Assoc(a: string, b: string, c: string)
    ensures (a + b) + c == a + (b + c)
  {}

  lemma DropPrefix(p: string, a: string, b: string)
    requires p + a == p + b
    ensures a == b
  {
    assert a == (p + a)[|p|..] == (p + b)[|p|..] == b;
  }

  lemma DropLabel(p: string, a: string, r: string, b: string, q: string)
    requires (p + a) + r == (p + b) + q
    ensures a + r == b + q
  {
    Assoc(p, a, r);
    Assoc(p, b, q);
    DropPrefix(p, a + r, b + q);
  }

  lemma CharAt(a: string, r: string, i: nat)
    ensures i < |a| ==> (a + r)[i] == a[i]
    ensures i == |a| && r != "" ==> (a + r)[i] == r[0]
  {}

  lemma SameLength(a: string, b: string, r: string, q: string)
    requires |a| == |b| && a + r == b + q
    ensures a == b && r == q
  {
    assert a == (a + r)[..|a|] == (b + q)[..|b|] == b;
    DropPrefix(a, r, q);
  }

  // ------------------------------------------------------------- numbers

  function DigitValue(c: char): nat {
    if '0' <= c <= '9' then c as int - '0' as int
    else if 'a' <= c <= 'f' then 10 + (c as int - 'a' as int) else 0
  }

  function HexValue(s: string): nat {
    if s == "" then 0 else 16 * HexValue(s[..|s| - 1]) + DigitValue(s[|s| - 1])
  }

  lemma DigitRoundTrip(d: nat)
    requires d < 16
    ensures DigitValue(HexDigit(d)) == d
  {}

  lemma {:induction false} HexRoundTrip(n: nat)
    ensures HexValue(Hex(n)) == n
  {
    DigitRoundTrip(n % 16);
    if n >= 16 {
      HexRoundTrip(n / 16);
      assert Hex(n)[..|Hex(n)| - 1] == Hex(n / 16);
    } else {
      assert Hex(n)[..0] == "";
    }
  }

  /** The text after a number starts with something that is not a digit. */
  predicate NoHexAhead(r: string) { r == "" || !IsHex(r[0]) }

  lemma {:induction false} DigitsEnd(a: string, b: string, r: string, q: string)
    requires AllHex(a) && AllHex(b) && NoHexAhead(r) && NoHexAhead(q)
    requires a + r == b + q
    ensures a == b && r == q
  {
    CharAt(a, r, |a|);
    CharAt(b, q, |a|);
    CharAt(a, r, |b|);
    CharAt(b, q, |b|);
    if |a| == |b| { SameLength(a, b, r, q); }
  }

  lemma HexInjective(n: nat, m: nat, r: string, q: string)
    requires NoHexAhead(r) && NoHexAhead(q)
    requires Hex(n) + r == Hex(m) + q
    ensures n == m && r == q
  {
    DigitsEnd(Hex(n), Hex(m), r, q);
    HexRoundTrip(n);
    HexRoundTrip(m);
  }

  lemma SignedHexInjective(n: int, m: int, r: string, q: string)
    requires NoHexAhead(r) && NoHexAhead(q)
    requires SignedHex(n) + r == SignedHex(m) + q
    ensures n == m && r == q
  {
    var a, b := Hex(if n < 0 then -n else n), Hex(if m < 0 then -m else m);
    CharAt(SignedHex(n), r, 0);
    CharAt(SignedHex(m), q, 0);
    assert IsHex(a[0]) && IsHex(b[0]) && !IsHex('-');
    if n < 0 && m < 0 {
      DropLabel("-", a, r, b, q);
      HexInjective(-n, -m, r, q);
    } else if n >= 0 && m >= 0 {
      HexInjective(n, m, r, q);
    }
  }

  lemma {:induction false} PowInjective(e: nat, f: nat)
    requires Pow2(e) == Pow2(f)
    ensures e == f
  {
    if e > 0 && f > 0 { PowInjective(e - 1, f - 1); }
  }

  lemma RatioIsCanon(x: Num, y: Num)
    requires Ratio(x) == Ratio(y)
    ensures CanonNum(x) == CanonNum(y)
  {
    PowInjective(if x.Int? then 0 else x.exp, if y.Int? then 0 else y.exp);
  }

  lemma NumInjective(x: Num, y: Num, r: string, q: string)
    requires NoHexAhead(r) && NoHexAhead(q)
    requires NumBody(x) + r == NumBody(y) + q
    ensures CanonNum(x) == CanonNum(y) && r == q
  {
    var (n, d) := Ratio(x);
    var (m, f) := Ratio(y);
    Assoc(SignedHex(n), "/" + Hex(d), r);
    Assoc(SignedHex(m), "/" + Hex(f), q);
    SignedHexInjective(n, m, ("/" + Hex(d)) + r, ("/" + Hex(f)) + q);
    DropLabel("/", Hex(d), r, Hex(f), q);
    HexInjective(d, f, r, q);
    RatioIsCanon(x, y);
  }

  // ------------------------------------------------------------- strings

  function Pow16(k: nat): nat { if k == 0 then 1 else 16 * Pow16(k - 1) }

  lemma {:induction false} PaddedInjective(n: nat, m: nat, k: nat)
    requires n < Pow16(k) && m < Pow16(k) && Padded(n, k) == Padded(m, k)
    ensures n == m
  {
    if k > 0 {
      var s, t := Padded(n, k), Padded(m, k);
      assert s[k - 1] == HexDigit(n % 16) && t[k - 1] == HexDigit(m % 16);
      assert s[..k - 1] == Padded(n / 16, k - 1) && t[..k - 1] == Padded(m / 16, k - 1);
      DigitRoundTrip(n % 16);
      DigitRoundTrip(m % 16);
      PaddedInjective(n / 16, m / 16, k - 1);
    }
  }

  lemma UnitInjective(u: nat, v: nat, r: string, q: string)
    requires u < 0x10000 && v < 0x10000
    requires UnitEscape(u) + r == UnitEscape(v) + q
    ensures u == v && r == q
  {
    SameLength(UnitEscape(u), UnitEscape(v), r, q);
    DropPrefix("\\u", Padded(u, 4), Padded(v, 4));
    assert Pow16(4) == 0x10000 by { assert Pow16(1) == 16 && Pow16(2) == 256; }
    PaddedInjective(u, v, 4);
  }

  predicate Plain(c: char) { 32 <= c as int < 127 && c != '"' && c != '\\' }
  predicate Short(c: char) { c == '"' || c == '\\' || c as int in {8, 9, 10, 12, 13} }
  predicate Wide(c: char) { !Plain(c) && !Short(c) }

  /** The first code unit of a \u escape. */
  function Unit(c: char): (u: nat)
    requires Wide(c)
    ensures u < 0x10000
    ensures 0xd800 <= u < 0xdc00 <==> c as int >= 0x10000
  {
    if c as int < 0x10000 then c as int else 0xd800 + (c as int - 0x10000) / 0x400
  }

  function Low(c: char): nat { 0xdc00 + (if c as int < 0x10000 then 0 else (c as int - 0x10000) % 0x400) }

  function Tail(c: char): string { if c as int < 0x10000 then "" else UnitEscape(Low(c)) }

  lemma WideEscape(c: char)
    requires Wide(c)
    ensures Escape(c) == UnitEscape(Unit(c)) + Tail(c)
  {}

  lemma WideInjective(c: char, d: char, r: string, q: string)
    requires Wide(c) && Wide(d)
    requires Escape(c) + r == Escape(d) + q
    ensures c == d && r == q
  {
    WideEscape(c);
    WideEscape(d);
    Assoc(UnitEscape(Unit(c)), Tail(c), r);
    Assoc(UnitEscape(Unit(d)), Tail(d), q);
    UnitInjective(Unit(c), Unit(d), Tail(c) + r, Tail(d) + q);
    if c as int >= 0x10000 {
      UnitInjective(Low(c), Low(d), r, q);
    } else {
      assert "" + r == r && "" + q == q;
    }
  }

  lemma EscapeShape(c: char)
    ensures Plain(c) ==> Escape(c) == [c]
    ensures !Plain(c) ==> |Escape(c)| >= 2 && Escape(c)[0] == '\\'
    ensures Short(c) ==> |Escape(c)| == 2 && Escape(c)[1] != 'u'
    ensures Wide(c) ==> Escape(c)[1] == 'u'
  {}

  lemma ShortInjective(c: char, d: char)
    requires Short(c) && Short(d) && Escape(c) == Escape(d)
    ensures c == d
  {
    assert Escape(c)[1] == Escape(d)[1];
  }

  lemma EscapeInjective(c: char, d: char, r: string, q: string)
    requires Escape(c) + r == Escape(d) + q
    ensures c == d && r == q
  {
    EscapeShape(c);
    EscapeShape(d);
    CharAt(Escape(c), r, 0);
    CharAt(Escape(d), q, 0);
    CharAt(Escape(c), r, 1);
    CharAt(Escape(d), q, 1);
    if Wide(c) && Wide(d) {
      WideInjective(c, d, r, q);
    } else if Short(c) && Short(d) {
      SameLength(Escape(c), Escape(d), r, q);
      ShortInjective(c, d);
    } else if Plain(c) && Plain(d) {
      SameLength(Escape(c), Escape(d), r, q);
    }
  }

  lemma {:induction false} EscapesInjective(a: string, b: string, r: string, q: string)
    requires EscapeAll(a) + ("\"" + r) == EscapeAll(b) + ("\"" + q)
    ensures a == b && r == q
  {
    var x, y := "\"" + r, "\"" + q;
    if a != "" { Assoc(Escape(a[0]), EscapeAll(a[1..]), x); }
    if b != "" { Assoc(Escape(b[0]), EscapeAll(b[1..]), y); }
    assert a == "" ==> (EscapeAll(a) + x)[0] == '"';
    assert b == "" ==> (EscapeAll(b) + y)[0] == '"';
    if a == "" && b == "" {
      assert EscapeAll(a) + x == x && EscapeAll(b) + y == y;
      DropPrefix("\"", r, q);
    } else if a != "" && b != "" {
      EscapeInjective(a[0], b[0], EscapeAll(a[1..]) + x, EscapeAll(b[1..]) + y);
      EscapesInjective(a[1..], b[1..], r, q);
      assert a == [a[0]] + a[1..] && b == [b[0]] + b[1..];
    }
  }

  lemma QuoteInjective(a: string, b: string, r: string, q: string)
    requires Quote(a) + r == Quote(b) + q
    ensures a == b && r == q
  {
    DropLabel("\"", EscapeAll(a) + "\"", r, EscapeAll(b) + "\"", q);
    Assoc(EscapeAll(a), "\"", r);
    Assoc(EscapeAll(b), "\"", q);
    EscapesInjective(a, b, r, q);
  }

  // -------------------------------------------------------------- values

  /** What can follow a value inside a key. */
  predicate Stop(r: string) { r == "" || r[0] == ',' || r[0] == ']' || r[0] == '}' }

  lemma StopIsNotHex(r: string)
    requires Stop(r)
    ensures NoHexAhead(r)
  {}

  lemma FirstLetter(v: Json, r: string)
    ensures (Key(v) + r)[0] == Label(v)[0]
    ensures Label(v)[0] != ']' && Label(v)[0] != '}' && Label(v)[0] != '"'
  {
    CharAt(Label(v), Body(v), 0);
    CharAt(Key(v), r, 0);
  }

  lemma LabelsDiffer(v: Json, w: Json)
    requires Label(v)[0] == Label(w)[0]
    ensures Label(v) == Label(w)
    ensures v.Null? == w.Null? && v.Bool? == w.Bool? && v.Number? == w.Number?
    ensures v.Str? == w.Str? && v.Arr? == w.Arr? && v.Obj? == w.Obj?
  {}

  /** The text of a nonempty list: first key, then what follows it. */
  function Follow(more: bool, rest: string, x: string): string { if more then "," + (rest + x) else x }

  lemma ItemsSplit(s: seq<Json>, x: string)
    requires s != []
    ensures ItemKeys(s) + x == Key(s[0]) + Follow(|s| > 1, ItemKeys(s[1..]), x)
  {
    if |s| > 1 {
      Assoc(Key(s[0]), "," + ItemKeys(s[1..]), x);
      Assoc(",", ItemKeys(s[1..]), x);
    }
  }

  lemma FollowAgrees(p: bool, a: string, x: string, q: bool, b: string, y: string)
    requires x != "" && y != "" && x[0] != ',' && y[0] != ','
    requires Follow(p, a, x) == Follow(q, b, y)
    ensures p == q && (p ==> a + x == b + y) && (!p ==> x == y)
  {
    CharAt(",", a + x, 0);
    CharAt(",", b + y, 0);
    if p && q { DropPrefix(",", a + x, b + y); }
  }

  lemma {:induction false} ItemsInjective(s: seq<Json>, t: seq<Json>, x: string, y: string)
    requires x != "" && y != "" && x[0] == ']' && y[0] == ']'
    requires ItemKeys(s) + x == ItemKeys(t) + y
    ensures |s| == |t| && x == y
    ensures forall i :: 0 <= i < |s| ==> Canon(s[i]) == Canon(t[i])
    decreases s
  {
    if s != [] { ItemsSplit(s, x); FirstLetter(s[0], Follow(|s| > 1, ItemKeys(s[1..]), x)); }
    if t != [] { ItemsSplit(t, y); FirstLetter(t[0], Follow(|t| > 1, ItemKeys(t[1..]), y)); }
    assert s == [] ==> ItemKeys(s) + x == x;
    assert t == [] ==> ItemKeys(t) + y == y;
    if s != [] && t != [] {
      var u, v := Follow(|s| > 1, ItemKeys(s[1..]), x), Follow(|t| > 1, ItemKeys(t[1..]), y);
      KeyInjective(s[0], t[0], u, v);
      FollowAgrees(|s| > 1, ItemKeys(s[1..]), x, |t| > 1, ItemKeys(t[1..]), y);
      if |s| > 1 {
        ItemsInjective(s[1..], t[1..], x, y);
        assert forall i :: 1 <= i < |s| ==> s[i] == s[1..][i - 1] && t[i] == t[1..][i - 1];
      }
    }
  }

  lemma MembersSplit(a: seq<string>, v: Json, x: string)
    requires v.Obj? && a != [] && forall k :: k in a ==> k in v.members
    ensures a[0] in v.members
    ensures MemberKeys(a, v) + x ==
            Quote(a[0]) + (":" + (Key(v.members[a[0]]) + Follow(|a| > 1, MemberKeys(a[1..], v), x)))
  {
    assert a[0] in a;
    var key := Key(v.members[a[0]]);
    var head := Quote(a[0]) + (":" + key);
    var f := Follow(|a| > 1, MemberKeys(a[1..], v), x);
    if |a| > 1 {
      Assoc(head, "," + MemberKeys(a[1..], v), x);
      Assoc(",", MemberKeys(a[1..], v), x);
    }
    assert MemberKeys(a, v) + x == head + f;
    Assoc(Quote(a[0]), ":" + key, f);
    Assoc(":", key, f);
  }

  lemma QuoteStarts(a: string, r: string)
    ensures (Quote(a) + r)[0] == '"'
  {}

  lemma HeadAgrees(a: string, k: string, b: string, l: string)
    requires Quote(a) + (":" + k) == Quote(b) + (":" + l)
    ensures a == b && k == l
  {
    QuoteInjective(a, b, ":" + k, ":" + l);
    DropPrefix(":", k, l);
  }

  /** The empty member list is not mistaken for a nonempty one. */
  lemma EmptyMembers(a: seq<string>, v: Json, x: string)
    requires v.Obj? && (forall k :: k in a ==> k in v.members) && x != "" && x[0] == '}'
    ensures (MemberKeys(a, v) + x)[0] == (if a == [] then '}' else '"')
  {
    if a != [] {
      MembersSplit(a, v, x);
      QuoteStarts(a[0], ":" + (Key(v.members[a[0]]) + Follow(|a| > 1, MemberKeys(a[1..], v), x)));
    } else {
      assert MemberKeys(a, v) + x == x;
    }
  }

  lemma {:induction false} MembersInjective(a: seq<string>, v: Json, b: seq<string>, w: Json, x: string, y: string)
    requires v.Obj? && w.Obj?
    requires (forall k :: k in a ==> k in v.members) && (forall k :: k in b ==> k in w.members)
    requires x != "" && y != "" && x[0] == '}' && y[0] == '}'
    requires MemberKeys(a, v) + x == MemberKeys(b, w) + y
    ensures a == b && x == y
    ensures forall k :: k in a ==> Canon(v.members[k]) == Canon(w.members[k])
    decreases v, 0, |a|
  {
    EmptyMembers(a, v, x);
    EmptyMembers(b, w, y);
    if a == [] {
      DropPrefix("", x, y);
    } else {
      var s, t := a[1..], b[1..];
      FirstMember(a, v, b, w, x, y);
      if |a| > 1 {
        MembersInjective(s, v, t, w, x, y);
      }
      assert a == [a[0]] + s && b == [b[0]] + t;
    }
  }

  /** The first members agree, and so does what follows them. */
  lemma {:induction false} FirstMember(a: seq<string>, v: Json, b: seq<string>, w: Json, x: string, y: string)
    requires v.Obj? && w.Obj? && a != [] && b != []
    requires (forall k :: k in a ==> k in v.members) && (forall k :: k in b ==> k in w.members)
    requires x != "" && y != "" && x[0] == '}' && y[0] == '}'
    requires MemberKeys(a, v) + x == MemberKeys(b, w) + y
    ensures a[0] == b[0] && a[0] in a && b[0] in b && Canon(v.members[a[0]]) == Canon(w.members[b[0]])
    ensures |a| > 1 <==> |b| > 1
    ensures |a| > 1 ==> MemberKeys(a[1..], v) + x == MemberKeys(b[1..], w) + y
    ensures |a| == 1 ==> x == y
    decreases v, 0, 0
  {
    MembersSplit(a, v, x);
    MembersSplit(b, w, y);
    assert a[0] in a && b[0] in b;
    var p, q := v.members[a[0]], w.members[b[0]];
    var d, e := MemberKeys(a[1..], v), MemberKeys(b[1..], w);
    var f, g := Follow(|a| > 1, d, x), Follow(|b| > 1, e, y);
    HeadAgrees(a[0], Key(p) + f, b[0], Key(q) + g);
    KeyInjective(p, q, f, g);
    FollowAgrees(|a| > 1, d, x, |b| > 1, e, y);
  }

  lemma CanonObj(v: Json, w: Json, a: seq<string>)
    requires v.Obj? && w.Obj?
    requires (forall k :: k in a <==> k in v.members) && (forall k :: k in a <==> k in w.members)
    requires forall k :: k in a ==> Canon(v.members[k]) == Canon(w.members[k])
    ensures Canon(v) == Canon(w)
  {
    assert v.members.Keys == w.members.Keys;
    assert Canon(v).members == Canon(w).members;
  }

  lemma {:induction false} ObjInjective(v: Json, w: Json, r: string, q: string)
    requires v.Obj? && w.Obj?
    requires Body(v) + r == Body(w) + q
    ensures Canon(v) == Canon(w) && r == q
    decreases v, 1
  {
    var a, b := NameOrder.Sorted(v.members.Keys), NameOrder.Sorted(w.members.Keys);
    Assoc(MemberKeys(a, v), "}", r);
    Assoc(MemberKeys(b, w), "}", q);
    MembersInjective(a, v, b, w, "}" + r, "}" + q);
    DropPrefix("}", r, q);
    CanonObj(v, w, a);
  }

  lemma BoolInjective(b: bool, c: bool, r: string, q: string)
    requires Body(Bool(b)) + r == Body(Bool(c)) + q
    ensures b == c && r == q
  {
    CharAt(Body(Bool(b)), r, 0);
    CharAt(Body(Bool(c)), q, 0);
    SameLength(Body(Bool(b)), Body(Bool(c)), r, q);
  }

  /** A key read off the front of a text determines the value and the rest. */
  lemma {:induction false} KeyInjective(v: Json, w: Json, r: string, q: string)
    requires Stop(r) && Stop(q)
    requires Key(v) + r == Key(w) + q
    ensures Canon(v) == Canon(w) && r == q
    decreases v, 2
  {
    FirstLetter(v, r);
    FirstLetter(w, q);
    LabelsDiffer(v, w);
    StopIsNotHex(r);
    StopIsNotHex(q);
    DropLabel(Label(v), Body(v), r, Body(w), q);
    match v
    case Null => SameLength(Body(v), Body(w), r, q);
    case Bool(b) => BoolInjective(b, w.b, r, q);
    case Number(x) => NumInjective(x, w.x, r, q);
    case Str(s) => QuoteInjective(s, w.s, r, q);
    case Arr(s) =>
      Assoc(ItemKeys(s), "]", r);
      Assoc(ItemKeys(w.items), "]", q);
      ItemsInjective(s, w.items, "]" + r, "]" + q);
      DropPrefix("]", r, q);
    case Obj(_) => ObjInjective(v, w, r, q);
  }

  // ----------------------------------------------------------- converse

  lemma {:induction false} ItemsCongruent(s: seq<Json>, t: seq<Json>)
    requires |s| == |t| && forall i :: 0 <= i < |s| ==> Canon(s[i]) == Canon(t[i])
    ensures ItemKeys(s) == ItemKeys(t)
    decreases s
  {
    if s != [] {
      KeyCongruent(s[0], t[0]);
      ItemsCongruent(s[1..], t[1..]);
    }
  }

  lemma {:induction false} MembersCongruent(names: seq<string>, v: Json, w: Json)
    requires v.Obj? && w.Obj?
    requires forall k :: k in names ==> k in v.members && k in w.members && Canon(v.members[k]) == Canon(w.members[k])
    ensures MemberKeys(names, v) == MemberKeys(names, w)
    decreases v, 0, |names|
  {
    if names != [] {
      assert names[0] in names;
      KeyCongruent(v.members[names[0]], w.members[names[0]]);
      MembersCongruent(names[1..], v, w);
    }
  }

  lemma NumCongruent(x: Num, y: Num)
    requires CanonNum(x) == CanonNum(y)
    ensures NumBody(x) == NumBody(y)
  {
    assert Ratio(x) == Ratio(CanonNum(x)) && Ratio(y) == Ratio(CanonNum(y));
  }

  lemma {:induction false} KeyCongruent(v: Json, w: Json)
    requires Canon(v) == Canon(w)
    ensures Key(v) == Key(w)
    decreases v, 1
  {
    match (v, w)
    case (Number(x), Number(y)) => NumCongruent(x, y);
    case (Arr(s), Arr(t)) =>
      assert |s| == |Canon(v).items| == |Canon(w).items| == |t|;
      forall i | 0 <= i < |s| ensures Canon(s[i]) == Canon(t[i]) {
        assert Canon(v).items[i] == Canon(w).items[i];
      }
      ItemsCongruent(s, t);
    case (Obj(m), Obj(n)) =>
      assert m.Keys == Canon(v).members.Keys == Canon(w).members.Keys == n.Keys;
      forall k | k in m ensures Canon(m[k]) == Canon(n[k]) {
        assert Canon(v).members[k] == Canon(w).members[k];
      }
      MembersCongruent(NameOrder.Sorted(m.Keys), v, w);
    case _ =>
  }

  /** Two keys are equal exactly when the values are equal as JSON. */
  lemma KeysAreFaithful(v: Json, w: Json)
    ensures Key(v) == Key(w) <==> SameJson(v, w)
  {
    SameJsonIsCanon(v, w);
    if Key(v) == Key(w) {
      KeyInjective(v, w, "", "");
    } else if SameJson(v, w) {
      KeyCongruent(v, w);
    }
  }
}
