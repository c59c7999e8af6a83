/**
 JSON Pointer escaping and resolution in tools/codex_schema.py, on text
 (RFC 6901, sections 3 and 4).
 */
module JsonPointer {
  import opened Wrappers
  import opened Json

  datatype PointerError = NotASchema | External | Unresolved

  /** s.replace(c, t) for a single character c. */
  function ReplaceChar(s: string, c: char, t: string): string {
    if s == "" then "" else (if s[0] == c then t else [s[0]]) + ReplaceChar(s[1..], c, t)
  }

  /** s.replace(ab, t) for a two-character ab, scanning left to right. */
  function ReplacePair(s: string, a: char, b: char, t: string): string {
    if |s| < 2 then s
    else if s[0] == a && s[1] == b then t + ReplacePair(s[2..], a, b, t)
    else [s[0]] + ReplacePair(s[1..], a, b, t)
  }

  /** s.split(c) */
  function Split(s: string, c: char): (parts: seq<string>)
    ensures |parts| > 0
  {
    if s == "" then [""]
    else
      var rest := Split(s[1..], c);
      if s[0] == c then [""] + rest else [[s[0]] + rest[0]] + rest[1..]
  }

  function Join(parts: seq<string>): string
    requires |parts| > 0
  {
    if |parts| == 1 then parts[0] else parts[0] + "/" + Join(parts[1..])
  }

  /** json_pointer_token */
  function Token(key: string): string { ReplaceChar(ReplaceChar(key, '~', "~0"), '/', "~1") }

  function Untoken(encoded: string): string {
    ReplacePair(ReplacePair(encoded, '~', '1', "/"), '~', '0', "~")
  }

  function Tokens(path: seq<string>): seq<string> { seq(|path|, i requires 0 <= i < |path| => Token(path[i])) }

  /** The pointer fragment for a path of keys. */
  function Pointer(path: seq<string>): string
    requires |path| > 0
  {
    "#/" + Join(Tokens(path))
  }

  predicate IsSchema(v: Json) { v.Obj? || v.Bool? }

  /** The value at a path of object keys. */
  function Lookup(v: Json, path: seq<string>): Option<Json> {
    if path == [] then Some(v)
    else if v.Obj? && path[0] in v.members then Lookup(v.members[path[0]], path[1..])
    else None
  }

  /** resolve_pointer: the loop walks one encoded part at a time. */
  method ResolvePointer(root: Json, reference: string) returns (r: Result<Json, PointerError>)
    ensures reference == "#" ==> r == if IsSchema(root) then Ok(root) else Err(NotASchema)
    ensures reference != "#" && !("#/" <= reference) ==> r == Err(External)
    ensures "#/" <= reference ==>
              match Lookup(root, Untokens(Split(reference[2..], '/')))
              case None => r == Err(Unresolved)
              case Some(v) => r == if IsSchema(v) then Ok(v) else Err(NotASchema)
    ensures forall path :: |path| > 0 && reference == Pointer(path) ==>
              match Lookup(root, path)
              case None => r == Err(Unresolved)
              case Some(v) => r == if IsSchema(v) then Ok(v) else Err(NotASchema)
  {
    if reference == "#" {
      PointerIsLong();
      return if IsSchema(root) then Ok(root) else Err(NotASchema);
    }
    if !("#/" <= reference) {
      return Err(External);
    }
    var parts := Split(reference[2..], '/');
    forall path | |path| > 0 && reference == Pointer(path) ensures Untokens(parts) == path {
      assert reference[2..] == Join(Tokens(path));
      RoundTrip(path);
    }
    var current := root;
    var i := 0;
    while i < |parts|
      invariant 0 <= i <= |parts|
      invariant Lookup(root, Untokens(parts)) == Lookup(current, Untokens(parts)[i..])
    {
      var key := Untoken(parts[i]);
      assert Untokens(parts)[i..][0] == key && Untokens(parts)[i..][1..] == Untokens(parts)[i + 1..];
      if !current.Obj? || key !in current.members {
        return Err(Unresolved);
      }
      current := current.members[key];
      i := i + 1;
    }
    assert Untokens(parts)[i..] == [];
    return if IsSchema(current) then Ok(current) else Err(NotASchema);
  }

  function Untokens(parts: seq<string>): seq<string> {
    seq(|parts|, i requires 0 <= i < |parts| => Untoken(parts[i]))
  }

  lemma PointerIsLong()
    ensures forall path :: |path| > 0 ==> |Pointer(path)| >= 2
  {}

  // ------------------------------------------------------------ escaping

  /** Token, one character at a time. */
  function Escape(key: string): string {
    if key == "" then ""
    else (if key[0] == '~' then "~0" else if key[0] == '/' then "~1" else [key[0]]) + Escape(key[1..])
  }

  /** Escape with the slashes restored. */
  function HalfEscape(key: string): string {
    if key == "" then "" else (if key[0] == '~' then "~0" else [key[0]]) + HalfEscape(key[1..])
  }

  lemma {:induction false} ReplaceAppend(a: string, b: string, c: char, t: string)
    ensures ReplaceChar(a + b, c, t) == ReplaceChar(a, c, t) + ReplaceChar(b, c, t)
  {
    if a == "" {
      assert a + b == b;
    } else {
      assert (a + b)[1..] == a[1..] + b;
      ReplaceAppend(a[1..], b, c, t);
    }
  }

  lemma {:induction false} TokenIsEscape(key: string)
    ensures Token(key) == Escape(key)
  {
    if key != "" {
      var head := if key[0] == '~' then "~0" else [key[0]];
      ReplaceAppend(head, ReplaceChar(key[1..], '~', "~0"), '/', "~1");
      TokenIsEscape(key[1..]);
      assert ReplaceChar(head, '/', "~1") ==
             (if key[0] == '~' then "~0" else if key[0] == '/' then "~1" else [key[0]]) by {
        assert head[1..] == "" || (head[1..] == "0" && head[1..][1..] == "");
      }
    }
  }

  lemma SlashesBack(key: string)
    ensures ReplacePair(Escape(key), '~', '1', "/") == HalfEscape(key)
  {
    if key != "" {
      var rest := Escape(key[1..]);
      SlashesBack(key[1..]);
      if key[0] == '~' {
        var s := "~0" + rest;
        assert Escape(key) == s && s[1..] == "0" + rest && s[1..][1..] == rest;
        Skip('0', rest, '~', '1', "/");
      } else if key[0] == '/' {
        var s := "~1" + rest;
        assert Escape(key) == s && s[2..] == rest;
      } else {
        Skip(key[0], rest, '~', '1', "/");
      }
    }
  }

  /** A character that does not open the pair is copied. */
  lemma Skip(c: char, rest: string, a: char, b: char, t: string)
    requires c != a
    ensures ReplacePair([c] + rest, a, b, t) == [c] + ReplacePair(rest, a, b, t)
  {
    assert ([c] + rest)[1..] == rest;
    if rest == "" { assert [c] + rest == [c] + ReplacePair(rest, a, b, t); }
  }

  lemma TildesBack(key: string)
    ensures ReplacePair(HalfEscape(key), '~', '0', "~") == key
  {
    if key != "" {
      var rest := HalfEscape(key[1..]);
      TildesBack(key[1..]);
      if key[0] == '~' {
        var s := "~0" + rest;
        assert HalfEscape(key) == s && s[2..] == rest;
      } else {
        Skip(key[0], rest, '~', '0', "~");
      }
      assert key == [key[0]] + key[1..];
    }
  }

  /** Unescaping undoes escaping for every key. */
  lemma TokenRoundTrip(key: string)
    ensures Untoken(Token(key)) == key
  {
    TokenIsEscape(key);
    SlashesBack(key);
    TildesBack(key);
  }

  lemma {:induction false} NoSlash(key: string)
    ensures '/' !in Escape(key)
  {
    if key != "" { NoSlash(key[1..]); }
  }

  lemma {:induction false} SplitWhole(s: string)
    requires '/' !in s
    ensures Split(s, '/') == [s]
  {
    if s != "" {
      SplitWhole(s[1..]);
      assert [s[0]] + s[1..] == s;
    }
  }

  lemma {:induction false} SplitFirst(s: string, t: string)
    requires '/' !in s
    ensures Split(s + ("/" + t), '/') == [s] + Split(t, '/')
  {
    var x := "/" + t;
    if s == "" {
      assert s + x == x && x[1..] == t;
    } else {
      assert (s + x)[1..] == s[1..] + x && (s + x)[0] == s[0];
      SplitFirst(s[1..], t);
      assert [s[0]] + s[1..] == s;
    }
  }

  lemma {:induction false} SplitJoin(parts: seq<string>)
    requires |parts| > 0 && forall i :: 0 <= i < |parts| ==> '/' !in parts[i]
    ensures Split(Join(parts), '/') == parts
  {
    if |parts| == 1 {
      SplitWhole(parts[0]);
    } else {
      var t := Join(parts[1..]);
      assert parts[0] + "/" + t == parts[0] + ("/" + t);
      SplitFirst(parts[0], t);
      SplitJoin(parts[1..]);
    }
  }

  /** Splitting and unescaping a pointer gives back the path it was made of. */
  lemma RoundTrip(path: seq<string>)
    requires |path| > 0
    ensures Untokens(Split(Join(Tokens(path)), '/')) == path
  {
    var ts := Tokens(path);
    forall i | 0 <= i < |ts| ensures '/' !in ts[i] && Untoken(ts[i]) == path[i] {
      TokenIsEscape(path[i]);
      NoSlash(path[i]);
      TokenRoundTrip(path[i]);
    }
    SplitJoin(ts);
  }
}
