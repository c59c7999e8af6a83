/**
 validate_instance as the tool runs it: loops over branches, members,
 patterns and items that stop at the first failure, and counters for anyOf and
 oneOf. Each is proved to decide the corresponding predicate of Schema.
 */
module Validator {
  import opened Wrappers
  import opened Json
  import opened Schema

  /** validate_instance; `ok` is false where it raises ValidationFailure. */
  method ValidateInstance(x: Json, s: Schema, re: Regex) returns (ok: bool)
    ensures ok == Valid(s, x, re)
    decreases s
  {
    if s.Flag? {
      return s.allow;
    }
    if !ScalarsOk(s, x, re) {
      return false;
    }
    ok := CheckLogic(x, s.logic, re);
    if !ok {
      return;
    }
    ok := CheckObject(x, s.objects, re);
    if !ok {
      return;
    }
    ok := CheckArray(x, s.arrays, re);
  }

  method CheckMaybe(x: Json, m: MaybeSchema, re: Regex) returns (ok: bool)
    ensures ok == ValidMaybe(m, x, re)
    decreases m
  {
    ok := true;
    if m.ASchema? {
      ok := ValidateInstance(x, m.schema, re);
    }
  }

  /** The match counter of anyOf and oneOf. */
  method CountMatches(x: Json, variants: seq<Schema>, re: Regex) returns (matches: nat)
    ensures matches == Count(variants, x, re)
    decreases variants
  {
    matches := 0;
    for i := 0 to |variants|
      invariant matches == Count(variants[..i], x, re)
    {
      var ok := ValidateInstance(x, variants[i], re);
      assert variants[..i + 1][..i] == variants[..i];
      if ok {
        matches := matches + 1;
      }
    }
    assert variants[..|variants|] == variants;
  }

  method CheckAll(x: Json, variants: SchemaList, re: Regex) returns (ok: bool)
    ensures ok == AllOfOk(variants, x, re)
    decreases variants
  {
    if variants.AList? {
      for i := 0 to |variants.list|
        invariant forall j :: 0 <= j < i ==> Valid(variants.list[j], x, re)
      {
        ok := ValidateInstance(x, variants.list[i], re);
        if !ok {
          return;
        }
      }
    }
    ok := true;
  }

  method CheckLogic(x: Json, l: Logic, re: Regex) returns (ok: bool)
    ensures ok == LogicOk(l, x, re)
    decreases l
  {
    ok := CheckAll(x, l.allOf, re);
    if !ok {
      return;
    }
    if l.anyOf.AList? {
      var matches := CountMatches(x, l.anyOf.list, re);
      if matches == 0 {
        return false;
      }
    }
    if l.oneOf.AList? {
      var matches := CountMatches(x, l.oneOf.list, re);
      if matches != 1 {
        return false;
      }
    }
    if l.negation.ASchema? {
      var refuted := ValidateInstance(x, l.negation.schema, re);
      if refuted {
        return false;
      }
    }
    if l.condition.ASchema? {
      var holds := ValidateInstance(x, l.condition.schema, re);
      ok := CheckMaybe(x, if holds then l.consequent else l.alternative, re);
    }
  }

  /** patternProperties for one member. */
  method CheckPatterns(key: string, v: Json, patterns: SchemaMap, re: Regex) returns (matched: bool, ok: bool)
    ensures ok <==> (patterns.AMap? ==>
              forall p :: p in patterns.map_ && re(p, key) ==> Valid(patterns.map_[p], v, re))
    ensures ok ==> matched == MatchesPattern(patterns, key, re)
    decreases patterns
  {
    matched, ok := false, true;
    if patterns.AMap? {
      var todo := patterns.map_.Keys;
      while todo != {}
        invariant todo <= patterns.map_.Keys
        invariant forall p :: p in patterns.map_.Keys - todo && re(p, key) ==> Valid(patterns.map_[p], v, re)
        invariant matched <==> exists p :: p in patterns.map_.Keys - todo && re(p, key)
        decreases todo
      {
        var p :| p in todo;
        ghost var done := patterns.map_.Keys - todo;
        todo := todo - {p};
        assert patterns.map_.Keys - todo == done + {p};
        if re(p, key) {
          matched := true;
          ok := ValidateInstance(v, patterns.map_[p], re);
          if !ok {
            return;
          }
        }
      }
      assert patterns.map_.Keys - todo == patterns.map_.Keys;
    }
    ok := true;
  }

  method CheckMember(key: string, v: Json, o: ObjectRules, re: Regex) returns (ok: bool)
    ensures ok == MemberOk(o, key, v, re)
    decreases o, 0
  {
    var declared := o.properties.AMap? && key in o.properties.map_;
    if declared {
      ok := ValidateInstance(v, o.properties.map_[key], re);
      if !ok {
        return;
      }
    }
    var matched;
    matched, ok := CheckPatterns(key, v, o.patterns, re);
    if ok && !declared && !matched {
      ok := CheckMaybe(v, o.additional, re);
    }
  }

  method CheckDependencies(x: Json, d: Dependencies, re: Regex) returns (ok: bool)
    requires x.Obj?
    ensures ok == DependenciesOk(d, x, re)
    decreases d
  {
    if d.SomeDependencies? {
      var todo := d.map_.Keys;
      while todo != {}
        invariant todo <= d.map_.Keys
        invariant forall k :: k in d.map_.Keys - todo && k in x.members ==> DependencyOk(d.map_[k], x, re)
        decreases todo
      {
        var k :| k in todo;
        ghost var done := d.map_.Keys - todo;
        todo := todo - {k};
        assert d.map_.Keys - todo == done + {k};
        if k in x.members {
          match d.map_[k]
          case NeedsNames(names) =>
            if exists i :: 0 <= i < |names| && names[i] !in x.members {
              return false;
            }
          case NeedsSchema(s) =>
            ok := ValidateInstance(x, s, re);
            if !ok {
              return;
            }
        }
      }
    }
    ok := true;
  }

  method CheckObject(x: Json, o: ObjectRules, re: Regex) returns (ok: bool)
    ensures ok == ObjectOk(o, x, re)
    decreases o, 1
  {
    if !x.Obj? {
      return true;
    }
    if !(Names(o.required) <= x.members.Keys) {
      return false;
    }
    var todo := x.members.Keys;
    while todo != {}
      invariant todo <= x.members.Keys
      invariant forall key :: key in x.members.Keys - todo ==> MemberOk(o, key, x.members[key], re)
      decreases todo
    {
      var key :| key in todo;
      ghost var done := x.members.Keys - todo;
      todo := todo - {key};
      assert x.members.Keys - todo == done + {key};
      ok := CheckMember(key, x.members[key], o, re);
      if !ok {
        return;
      }
    }
    ok := CheckDependencies(x, o.dependencies, re);
  }

  method CheckItems(xs: seq<Json>, a: ArrayRules, re: Regex) returns (ok: bool)
    ensures ok == ItemsOk(a, xs, re)
    decreases a, 0
  {
    for i := 0 to |xs|
      invariant a.items.Each? ==> forall j :: 0 <= j < i ==> Valid(a.items.schema, xs[j], re)
      invariant a.items.Tuple? ==> forall j :: 0 <= j < i ==>
                  if j < |a.items.list| then Valid(a.items.list[j], xs[j], re)
                  else ValidMaybe(a.additionalItems, xs[j], re)
    {
      match a.items {
        case NoItems => ok := true;
        case Each(s) => ok := ValidateInstance(xs[i], s, re);
        case Tuple(l) =>
          if i < |l| {
            ok := ValidateInstance(xs[i], l[i], re);
          } else {
            ok := CheckMaybe(xs[i], a.additionalItems, re);
          }
      }
      if !ok {
        return;
      }
    }
    ok := true;
  }

  method CheckArray(x: Json, a: ArrayRules, re: Regex) returns (ok: bool)
    ensures ok == ArrayOk(a, x, re)
    decreases a, 1
  {
    if !x.Arr? {
      return true;
    }
    ok := CheckItems(x.items, a, re);
    if !ok || a.contains.NoSchema? {
      return;
    }
    for i := 0 to |x.items|
      invariant forall j :: 0 <= j < i ==> !Valid(a.contains.schema, x.items[j], re)
    {
      ok := ValidateInstance(x.items[i], a.contains.schema, re);
      if ok {
        return;
      }
    }
    ok := false;
  }
}
