/**
 The comparison as the tool runs it: one list of changes, appended to while
 the two schemas are walked, and hardened in place on an incoming boundary.
 */
module Comparison {
  import opened Wrappers
  import opened Json
  import opened Schema
  import opened SchemaDiff
  import NameOrder
  import BM = BranchMatching

  class ChangeLog {
    var changes: seq<Change>

    constructor ()
      ensures changes == []
    {
      changes := [];
    }

    method Append(cs: seq<Change>)
      modifies this
      ensures changes == old(changes) + cs
    {
      changes := changes + cs;
    }

    /** Reclassify, in place, the changes from index `first` on. */
    method HardenFrom(first: nat)
      requires first <= |changes|
      modifies this
      ensures changes == old(changes[..first]) + Harden(old(changes[first..]), true)
    {
      ghost var was := changes;
      var i := first;
      while i < |changes|
        invariant first <= i <= |changes| == |was|
        invariant forall j :: 0 <= j < |was| ==>
                    changes[j] == if first <= j < i then HardenOne(was[j]) else was[j]
      {
        var c := changes[i];
        if !(c.breaking || c.kind == OptionalPropertyAdded || c.evidence) {
          changes := changes[i := c.(breaking := true, hardened := true)];
        }
        i := i + 1;
      }
    }
  }

  /** compare_named_schemas */
  method CompareNamedSchemas(b: Schema, a: Schema, p: Path, ctx: Context, log: ChangeLog)
    modifies log
    ensures log.changes == old(log.changes) + Diff(b, a, p, ctx)
    decreases b, 1
  {
    if b.Flag? || a.Flag? {
      log.Append(FlagDiff(b, a, p, ctx));
      return;
    }
    var first := |log.changes|;
    CompareDicts(b, a, p, ctx, log);
    assert log.changes[..first] == old(log.changes) && log.changes[first..] == DictDiff(b, a, p, ctx);
    if ctx.incoming {
      log.HardenFrom(first);
    }
  }

  method CompareDicts(b: Schema, a: Schema, p: Path, ctx: Context, log: ChangeLog)
    requires b.Dict? && a.Dict?
    modifies log
    ensures log.changes == old(log.changes) + DictDiff(b, a, p, ctx)
    decreases b, 0
  {
    ghost var prior := log.changes;
    ghost var d1, d2 := ValuesDiff(b, a, p, ctx), AdditionalDiff(b.objects, a.objects, p, ctx);
    ghost var d3, d4 := ScalarsDiff(b, a, p, ctx), PropertiesDiff(b.objects, a.objects, p, ctx);
    ghost var d5, d6 := ItemsDiff(b.arrays, a.arrays, p, ctx), LogicDiff(b.logic, a.logic, p, ctx);
    log.Append(ValuesDiff(b, a, p, ctx));
    CompareAdditional(b.objects, a.objects, p, ctx, log);
    Assoc(prior, d1, d2);
    log.Append(ScalarsDiff(b, a, p, ctx));
    Assoc(prior, d1 + d2, d3);
    CompareProperties(b.objects, a.objects, p, ctx, log);
    Assoc(prior, d1 + d2 + d3, d4);
    CompareItems(b.arrays, a.arrays, p, ctx, log);
    Assoc(prior, d1 + d2 + d3 + d4, d5);
    CompareLogic(b.logic, a.logic, p, ctx, log);
    Assoc(prior, d1 + d2 + d3 + d4 + d5, d6);
    log.Append(UnknownDiff(b, a, p, ctx));
    Assoc(prior, d1 + d2 + d3 + d4 + d5 + d6, UnknownDiff(b, a, p, ctx));
  }

  method CompareAdditional(b: ObjectRules, a: ObjectRules, p: Path, ctx: Context, log: ChangeLog)
    modifies log
    ensures log.changes == old(log.changes) + AdditionalDiff(b, a, p, ctx)
    decreases b, 0
  {
    var prev, next := Effective(b.additional), Effective(a.additional);
    if !EqSchema(ctx.keyed, prev, next) {
      if prev == Flag(true) {
        log.Append([Breaking(AdditionalPropertiesNarrowed, p)]);
      } else if next == Flag(true) || prev == Flag(false) {
        log.Append([Additive(AdditionalPropertiesWidened, p)]);
      } else if next == Flag(false) {
        log.Append([Breaking(AdditionalPropertiesNarrowed, p)]);
      } else {
        CompareNamedSchemas(b.additional.schema, next, p + [Name("additionalProperties")], ctx, log);
      }
    }
  }

  method CompareProperties(b: ObjectRules, a: ObjectRules, p: Path, ctx: Context, log: ChangeLog)
    modifies log
    ensures log.changes == old(log.changes) + PropertiesDiff(b, a, p, ctx)
    decreases b, 1
  {
    var prev, next := Props(b.properties).Keys, Props(a.properties).Keys;
    var added, shared := NameOrder.Sorted(next - prev), SharedNames(b, a);
    ghost var prior := log.changes;
    ghost var d1 := ForNames(NameOrder.Sorted(prev - next), true, PropertyRemoved, p);
    ghost var d2, d3 := AddedProperties(b, a, added, p, ctx), SharedProperties(b, a, shared, p, ctx);
    log.Append(ForNames(NameOrder.Sorted(prev - next), true, PropertyRemoved, p));
    CompareAdded(b, a, added, p, ctx, log);
    Assoc(prior, d1, d2);
    CompareShared(b, a, shared, p, ctx, log);
    Assoc(prior, d1 + d2, d3);
    log.Append(RequiredDiff(b, a, p));
    Assoc(prior, d1 + d2 + d3, RequiredDiff(b, a, p));
  }

  method CompareAdded(b: ObjectRules, a: ObjectRules, names: seq<string>, p: Path, ctx: Context, log: ChangeLog)
    requires forall k :: k in names ==> k in Props(a.properties)
    modifies log
    ensures log.changes == old(log.changes) + AddedProperties(b, a, names, p, ctx)
  {
    ghost var prior, all := log.changes, AddedProperties(b, a, names, p, ctx);
    for i := 0 to |names|
      invariant log.changes == prior + all[..i]
    {
      assert names[i] in names;
      log.Append([AddedProperty(b, a, names[i], p, ctx)]);
      assert all[..i + 1] == all[..i] + [all[i]];
      Assoc(prior, all[..i], [all[i]]);
    }
    assert all[..|names|] == all;
  }

  method CompareShared(b: ObjectRules, a: ObjectRules, names: seq<string>, p: Path, ctx: Context, log: ChangeLog)
    requires forall k :: k in names ==> k in Props(b.properties) && k in Props(a.properties)
    modifies log
    ensures log.changes == old(log.changes) + SharedProperties(b, a, names, p, ctx)
    decreases b, 0
  {
    ghost var target := log.changes + SharedProperties(b, a, names, p, ctx);
    var i := 0;
    while i < |names|
      invariant 0 <= i <= |names|
      invariant target == log.changes + SharedProperties(b, a, names[i..], p, ctx)
    {
      var name := names[i];
      assert names[i..][0] == name && names[i..][1..] == names[i + 1..];
      assert name in names && name in Props(b.properties) && name in Props(a.properties);
      var s, t := b.properties.map_[name], a.properties.map_[name];
      Assoc(log.changes, Diff(s, t, At(p, "properties", name), ctx), SharedProperties(b, a, names[i + 1..], p, ctx));
      CompareNamedSchemas(s, t, At(p, "properties", name), ctx, log);
      i := i + 1;
    }
  }

  method CompareItems(b: ArrayRules, a: ArrayRules, p: Path, ctx: Context, log: ChangeLog)
    modifies log
    ensures log.changes == old(log.changes) + ItemsDiff(b, a, p, ctx)
    decreases b, 1
  {
    var at := p + [Name("items")];
    match (b.items, a.items)
    case (NoItems, NoItems) =>
    case (Each(s), Each(t)) => CompareNamedSchemas(s, t, at, ctx, log);
    case (Tuple(prev), Tuple(next)) =>
      var shared := if |prev| <= |next| then |prev| else |next|;
      ghost var prior, d1 := log.changes, TupleDiff(prev, next, shared, p, ctx);
      CompareTuples(prev, next, shared, p, ctx, log);
      var d2 := If_(|prev| > shared,
                    if Unrestricted(a.additionalItems) then Additive(TupleConstraintsRemoved, at)
                    else Breaking(TupleShortened, at));
      log.Append(d2);
      Assoc(prior, d1, d2);
      var d3 := If_(|next| > shared, Breaking(TupleConstraintsAdded, at));
      log.Append(d3);
      Assoc(prior, d1 + d2, d3);
    case (NoItems, _) => log.Append([Breaking(ItemsConstraintAdded, at)]);
    case (_, NoItems) => log.Append([Additive(ItemsConstraintRemoved, at)]);
    case _ => log.Append([Breaking(ItemsShapeChanged, at)]);
  }

  method CompareTuples(prev: seq<Schema>, next: seq<Schema>, n: nat, p: Path, ctx: Context, log: ChangeLog)
    requires n <= |prev| && n <= |next|
    modifies log
    ensures log.changes == old(log.changes) + TupleDiff(prev, next, n, p, ctx)
    decreases prev
  {
    ghost var prior := log.changes;
    for i := 0 to n
      invariant log.changes == prior + TupleDiff(prev, next, i, p, ctx)
    {
      var at := p + [Name("items"), Index(i)];
      CompareNamedSchemas(prev[i], next[i], at, ctx, log);
      Assoc(prior, TupleDiff(prev, next, i, p, ctx), Diff(prev[i], next[i], at, ctx));
    }
  }

  method CompareLogic(b: Logic, a: Logic, p: Path, ctx: Context, log: ChangeLog)
    modifies log
    ensures log.changes == old(log.changes) + LogicDiff(b, a, p, ctx)
    decreases b
  {
    ghost var prior := log.changes;
    ghost var d1 := CombinatorDiff(AnyOf, b.anyOf, a.anyOf, p, ctx);
    ghost var d2 := CombinatorDiff(OneOf, b.oneOf, a.oneOf, p, ctx);
    ghost var d3 := CombinatorDiff(AllOf, b.allOf, a.allOf, p, ctx);
    CompareCombinator(AnyOf, b.anyOf, a.anyOf, p, ctx, log);
    CompareCombinator(OneOf, b.oneOf, a.oneOf, p, ctx, log);
    Assoc(prior, d1, d2);
    CompareCombinator(AllOf, b.allOf, a.allOf, p, ctx, log);
    Assoc(prior, d1 + d2, d3);
    var d4, d5 := WholeDiff(b.negation, a.negation, p, Not, ctx), WholeDiff(b.condition, a.condition, p, If, ctx);
    var d6 := WholeDiff(b.consequent, a.consequent, p, Then, ctx);
    var d7 := WholeDiff(b.alternative, a.alternative, p, Else, ctx);
    log.Append(d4);
    Assoc(prior, d1 + d2 + d3, d4);
    log.Append(d5);
    Assoc(prior, d1 + d2 + d3 + d4, d5);
    log.Append(d6);
    Assoc(prior, d1 + d2 + d3 + d4 + d5, d6);
    log.Append(d7);
    Assoc(prior, d1 + d2 + d3 + d4 + d5 + d6, d7);
  }

  /** compare_combinator */
  method CompareCombinator(c: Combinator, b: SchemaList, a: SchemaList, p: Path, ctx: Context, log: ChangeLog)
    modifies log
    ensures log.changes == old(log.changes) + CombinatorDiff(c, b, a, p, ctx)
    decreases b
  {
    if b.NoList? && a.NoList? {
      return;
    }
    if b.NoList? {
      log.Append([Breaking(CombinatorAdded(c), p)]);
      return;
    }
    if a.NoList? {
      log.Append([Additive(CombinatorRemoved(c), p)]);
      return;
    }
    CompareVariants(c, b.list, a.list, p, ctx, log);
  }

  method ComparePairs(
      prev: seq<Schema>, next: seq<Schema>, pairs: seq<(nat, nat)>, p: Path, ctx: Context, log: ChangeLog)
    requires BM.InRange(pairs, |prev|, |next|)
    modifies log
    ensures log.changes == old(log.changes) + PairsDiff(prev, next, pairs, p, ctx)
    decreases prev, 0
  {
    ghost var prior := log.changes;
    for k := 0 to |pairs|
      invariant log.changes == prior + PairsDiff(prev, next, pairs[..k], p, ctx)
    {
      assert pairs[..k + 1][..k] == pairs[..k] && pairs[..k + 1][k] == pairs[k];
      var (i, j) := pairs[k];
      CompareNamedSchemas(prev[i], next[j], p + [Index(j)], ctx, log);
      Assoc(prior, PairsDiff(prev, next, pairs[..k], p, ctx), Diff(prev[i], next[j], p + [Index(j)], ctx));
    }
    assert pairs[..|pairs|] == pairs;
  }

  method CompareVariants(c: Combinator, prev: seq<Schema>, next: seq<Schema>, p: Path, ctx: Context, log: ChangeLog)
    modifies log
    ensures log.changes == old(log.changes) + VariantsDiff(c, prev, next, p, ctx)
    decreases prev, 1
  {
    var first := |log.changes|;
    ghost var prior := log.changes;
    var oldLeft, newLeft, pairs := BM.MatchBranches(prev, next, KeysOf(prev), KeysOf(next));
    ghost var m := Match(prev, next);
    assert m == BM.Matching(oldLeft, newLeft, pairs);
    var at := p + [Name(CombinatorName(c))];
    ghost var d1 := PairsDiff(prev, next, pairs, at, ctx);
    ComparePairs(prev, next, pairs, at, ctx, log);
    var d2 := If_(oldLeft != {}, Change(c != AllOf, VariantsRemoved(c), p, false, false));
    log.Append(d2);
    Assoc(prior, d1, d2);
    var d3 := If_(newLeft != {}, AddedVariants(c, prev, next, newLeft, p, ctx));
    log.Append(d3);
    Assoc(prior, d1 + d2, d3);
    assert log.changes[first..] == d1 + d2 + d3;
    var d4 := If_(c == OneOf && !SameOrPureAddition(prev, next) && Clean(log.changes[first..]),
                  Breaking(OneOfExclusivityUnproven, p));
    log.Append(d4);
    Assoc(prior, d1 + d2 + d3, d4);
  }
}
