/**
 How compare_combinator pairs the branches of two unions: identical branches
 first, then branches whose discriminating key has one counterpart, then
 branches left at the same position. The branches and their keys are opaque.
 */
module BranchMatching {
  import opened Wrappers

  /** The index sets and the pair list the matching loops update. */
  datatype Matching = Matching(oldLeft: set<nat>, newLeft: set<nat>, pairs: seq<(nat, nat)>)

  function Upto(n: nat): (s: set<nat>)
    ensures forall i: nat :: i in s <==> i < n
  {
    if n == 0 then {} else Upto(n - 1) + {n - 1}
  }

  /** The first index at or after j still free and equal to the target. */
  function Candidate<T(==)>(next: seq<T>, target: T, free: set<nat>, j: nat): (c: Option<nat>)
    requires j <= |next|
    ensures c.Some? ==> c.value < |next| && c.value in free && next[c.value] == target
    ensures c.None? ==> forall k :: j <= k < |next| && k in free ==> next[k] != target
    decreases |next| - j
  {
    if j == |next| then None
    else if j in free && next[j] == target then Some(j)
    else Candidate(next, target, free, j + 1)
  }

  function ExactStep<T(==)>(prev: seq<T>, next: seq<T>, i: nat, m: Matching): Matching
    requires i < |prev|
  {
    var c := Candidate(next, prev[i], m.newLeft, 0);
    if c.None? then m else m.(oldLeft := m.oldLeft - {i}, newLeft := m.newLeft - {c.value})
  }

  /** Identical branches are matched greedily and never compared. */
  function MatchExact<T(==)>(prev: seq<T>, next: seq<T>, n: nat): Matching
    requires n <= |prev|
  {
    if n == 0 then Matching(Upto(|prev|), Upto(|next|), [])
    else ExactStep(prev, next, n - 1, MatchExact(prev, next, n - 1))
  }

  /** The free indices carrying a given key. */
  function WithKey<K(==)>(keys: seq<Option<K>>, free: set<nat>, key: Option<K>): set<nat> {
    set j | j in free && j < |keys| && keys[j] == key
  }

  function Only(s: set<nat>): (j: nat)
    requires |s| == 1
    ensures s == {j}
  {
    SingletonUnique(s);
    var j :| j in s;
    assert s == {j};
    j
  }

  lemma SingletonUnique<T>(s: set<T>)
    requires |s| == 1
    ensures forall x, y :: x in s && y in s ==> x == y
    ensures exists x :: x in s
  {
    forall x, y | x in s && y in s ensures x == y {
      assert |s - {x}| == 0;
    }
  }

  function KeyStep<K(==)>(pk: seq<Option<K>>, nk: seq<Option<K>>, i: nat, m: Matching): Matching
    requires i < |pk|
  {
    var c := WithKey(nk, m.newLeft, pk[i]);
    if i in m.oldLeft && pk[i].Some? && |c| == 1 then
      Matching(m.oldLeft - {i}, m.newLeft - {Only(c)}, m.pairs + [(i, Only(c))])
    else m
  }

  function MatchKeys<K(==)>(pk: seq<Option<K>>, nk: seq<Option<K>>, n: nat, start: Matching): Matching
    requires n <= |pk|
  {
    if n == 0 then start else KeyStep(pk, nk, n - 1, MatchKeys(pk, nk, n - 1, start))
  }

  function PositionStep(i: nat, m: Matching): Matching {
    if i in m.oldLeft && i in m.newLeft
    then Matching(m.oldLeft - {i}, m.newLeft - {i}, m.pairs + [(i, i)]) else m
  }

  function MatchPositions(n: nat, start: Matching): Matching {
    if n == 0 then start else PositionStep(n - 1, MatchPositions(n - 1, start))
  }

  /** The matching compare_combinator reaches. */
  function Match<T(==), K(==)>(prev: seq<T>, next: seq<T>, pk: seq<Option<K>>, nk: seq<Option<K>>): Matching
    requires |pk| == |prev| && |nk| == |next|
  {
    MatchPositions(|prev|, MatchKeys(pk, nk, |prev|, MatchExact(prev, next, |prev|)))
  }

  /** The matching loops of compare_combinator over mutable index sets. */
  method MatchBranches<T(==), K(==)>(prev: seq<T>, next: seq<T>, pk: seq<Option<K>>, nk: seq<Option<K>>)
    returns (oldLeft: set<nat>, newLeft: set<nat>, pairs: seq<(nat, nat)>)
    requires |pk| == |prev| && |nk| == |next|
    ensures Matching(oldLeft, newLeft, pairs) == Match(prev, next, pk, nk)
  {
    oldLeft, newLeft, pairs := Upto(|prev|), Upto(|next|), [];
    for i := 0 to |prev|
      invariant Matching(oldLeft, newLeft, pairs) == MatchExact(prev, next, i)
    {
      var j := 0;
      while j < |next| && !(j in newLeft && next[j] == prev[i])
        invariant j <= |next|
        invariant Candidate(next, prev[i], newLeft, 0) == Candidate(next, prev[i], newLeft, j)
      {
        j := j + 1;
      }
      if j < |next| {
        oldLeft, newLeft := oldLeft - {i}, newLeft - {j};
      }
    }
    ghost var exact := MatchExact(prev, next, |prev|);
    for i := 0 to |prev|
      invariant Matching(oldLeft, newLeft, pairs) == MatchKeys(pk, nk, i, exact)
    {
      var candidates: set<nat> := {};
      for j := 0 to |next|
        invariant candidates == set k | k in WithKey(nk, newLeft, pk[i]) && k < j
      {
        if j in newLeft && nk[j] == pk[i] {
          candidates := candidates + {j};
        }
      }
      assert candidates == WithKey(nk, newLeft, pk[i]);
      if i in oldLeft && pk[i].Some? && |candidates| == 1 {
        var j := Only(candidates);
        oldLeft, newLeft, pairs := oldLeft - {i}, newLeft - {j}, pairs + [(i, j)];
      }
    }
    ghost var keyed := MatchKeys(pk, nk, |prev|, exact);
    for i := 0 to |prev|
      invariant Matching(oldLeft, newLeft, pairs) == MatchPositions(i, keyed)
    {
      if i in oldLeft && i in newLeft {
        oldLeft, newLeft, pairs := oldLeft - {i}, newLeft - {i}, pairs + [(i, i)];
      }
    }
  }

  // ------------------------------------------------ nothing is overlooked

  predicate OldPaired(m: Matching, i: nat) { exists k :: 0 <= k < |m.pairs| && m.pairs[k].0 == i }
  predicate NewPaired(m: Matching, j: nat) { exists k :: 0 <= k < |m.pairs| && m.pairs[k].1 == j }

  predicate InRange(pairs: seq<(nat, nat)>, p: nat, n: nat) {
    forall k :: 0 <= k < |pairs| ==> pairs[k].0 < p && pairs[k].1 < n
  }

  /** Every branch of either side is left over, paired for comparison, or
      present unchanged on the other side. */
  ghost predicate Accounted<T>(m: Matching, prev: seq<T>, next: seq<T>) {
    && m.oldLeft <= Upto(|prev|) && m.newLeft <= Upto(|next|)
    && InRange(m.pairs, |prev|, |next|)
    && (forall i :: 0 <= i < |prev| && i !in m.oldLeft ==> OldPaired(m, i) || prev[i] in next)
    && (forall j :: 0 <= j < |next| && j !in m.newLeft ==> NewPaired(m, j) || next[j] in prev)
  }

  lemma AppendPair(m: Matching, i: nat, j: nat)
    ensures var p := m.(pairs := m.pairs + [(i, j)]);
            && OldPaired(p, i) && NewPaired(p, j)
            && (forall k: nat :: OldPaired(m, k) ==> OldPaired(p, k))
            && (forall k: nat :: NewPaired(m, k) ==> NewPaired(p, k))
  {
    var p := m.(pairs := m.pairs + [(i, j)]);
    assert p.pairs[|m.pairs|] == (i, j);
    forall k: nat | OldPaired(m, k) ensures OldPaired(p, k) {
      var w :| 0 <= w < |m.pairs| && m.pairs[w].0 == k;
      assert p.pairs[w] == m.pairs[w];
    }
    forall k: nat | NewPaired(m, k) ensures NewPaired(p, k) {
      var w :| 0 <= w < |m.pairs| && m.pairs[w].1 == k;
      assert p.pairs[w] == m.pairs[w];
    }
  }

  lemma PairStep<T>(m: Matching, prev: seq<T>, next: seq<T>, i: nat, j: nat)
    requires Accounted(m, prev, next)
    requires i < |prev| && j < |next|
    ensures Accounted(Matching(m.oldLeft - {i}, m.newLeft - {j}, m.pairs + [(i, j)]), prev, next)
  {
    AppendPair(m, i, j);
    var r := Matching(m.oldLeft - {i}, m.newLeft - {j}, m.pairs + [(i, j)]);
    var p := m.(pairs := m.pairs + [(i, j)]);
    assert forall k: nat :: OldPaired(p, k) ==> OldPaired(r, k);
    assert forall k: nat :: NewPaired(p, k) ==> NewPaired(r, k);
  }

  lemma {:induction false} ExactAccounted<T>(prev: seq<T>, next: seq<T>, n: nat)
    requires n <= |prev|
    ensures Accounted(MatchExact(prev, next, n), prev, next)
    ensures MatchExact(prev, next, n).pairs == []
  {
    if n > 0 {
      ExactAccounted(prev, next, n - 1);
      var m := MatchExact(prev, next, n - 1);
      var r := MatchExact(prev, next, n);
      assert forall k: nat :: !OldPaired(m, k) && !NewPaired(m, k);
      var c := Candidate(next, prev[n - 1], m.newLeft, 0);
      if c.Some? {
        assert prev[n - 1] == next[c.value];
      }
    }
  }

  lemma {:induction false} KeysAccounted<T, K>(
      prev: seq<T>, next: seq<T>, pk: seq<Option<K>>, nk: seq<Option<K>>, n: nat, start: Matching)
    requires n <= |pk| == |prev| && |nk| == |next|
    requires Accounted(start, prev, next)
    ensures Accounted(MatchKeys(pk, nk, n, start), prev, next)
    ensures |MatchKeys(pk, nk, n, start).pairs| <= |start.pairs| + n
  {
    if n > 0 {
      KeysAccounted(prev, next, pk, nk, n - 1, start);
      var m := MatchKeys(pk, nk, n - 1, start);
      var c := WithKey(nk, m.newLeft, pk[n - 1]);
      if |c| == 1 {
        assert Only(c) in c;
        PairStep(m, prev, next, n - 1, Only(c));
      }
    }
  }

  lemma {:induction false} PositionsAccounted<T>(prev: seq<T>, next: seq<T>, n: nat, start: Matching)
    requires n <= |prev|
    requires Accounted(start, prev, next)
    ensures Accounted(MatchPositions(n, start), prev, next)
    ensures |MatchPositions(n, start).pairs| <= |start.pairs| + n
  {
    if n > 0 {
      PositionsAccounted(prev, next, n - 1, start);
      var m := MatchPositions(n - 1, start);
      if n - 1 in m.oldLeft && n - 1 in m.newLeft {
        PairStep(m, prev, next, n - 1, n - 1);
      }
    }
  }

  /** No branch of either union escapes the comparison. */
  lemma MatchAccounted<T, K>(prev: seq<T>, next: seq<T>, pk: seq<Option<K>>, nk: seq<Option<K>>)
    requires |pk| == |prev| && |nk| == |next|
    ensures Accounted(Match(prev, next, pk, nk), prev, next)
    ensures |Match(prev, next, pk, nk).pairs| <= 2 * |prev|
  {
    ExactAccounted(prev, next, |prev|);
    var e := MatchExact(prev, next, |prev|);
    KeysAccounted(prev, next, pk, nk, |prev|, e);
    PositionsAccounted(prev, next, |prev|, MatchKeys(pk, nk, |prev|, e));
  }

  // ------------------------------------------------------- counting

  /** How many of the first n elements have an index in s and satisfy ok. */
  function CountIn<T>(l: seq<T>, s: set<nat>, n: nat, ok: T -> bool): nat
    requires n <= |l|
  {
    if n == 0 then 0
    else CountIn(l, s, n - 1, ok) + if n - 1 in s && ok(l[n - 1]) then 1 else 0
  }

  function Total<T>(l: seq<T>, ok: T -> bool): nat { CountIn(l, Upto(|l|), |l|, ok) }

  lemma {:induction false} CountWithout<T>(l: seq<T>, s: set<nat>, n: nat, ok: T -> bool, j: nat)
    requires n <= |l|
    requires j in s
    ensures CountIn(l, s - {j}, n, ok) == CountIn(l, s, n, ok) - if j < n && ok(l[j]) then 1 else 0
  {
    if n > 0 { CountWithout(l, s, n - 1, ok, j); }
  }

  lemma {:induction false} CountZero<T>(l: seq<T>, s: set<nat>, n: nat, ok: T -> bool)
    requires n <= |l|
    ensures CountIn(l, s, n, ok) == 0 <==> forall i :: 0 <= i < n && i in s ==> !ok(l[i])
  {
    if n > 0 { CountZero(l, s, n - 1, ok); }
  }

  /** Matching identical branches removes the same count from both sides. */
  lemma {:induction false} ExactBalance<T>(prev: seq<T>, next: seq<T>, n: nat, ok: T -> bool)
    requires n <= |prev|
    ensures var m := MatchExact(prev, next, n);
            CountIn(prev, m.oldLeft, |prev|, ok) + Total(next, ok) ==
            CountIn(next, m.newLeft, |next|, ok) + Total(prev, ok)
  {
    if n > 0 {
      ExactBalance(prev, next, n - 1, ok);
      ExactKeeps(prev, next, n - 1, n - 1);
      var m := MatchExact(prev, next, n - 1);
      var c := Candidate(next, prev[n - 1], m.newLeft, 0);
      if c.Some? {
        CountWithout(prev, m.oldLeft, |prev|, ok, n - 1);
        CountWithout(next, m.newLeft, |next|, ok, c.value);
      }
    }
  }

  /** Steps before n leave index i >= n alone. */
  lemma {:induction false} ExactKeeps<T>(prev: seq<T>, next: seq<T>, n: nat, i: nat)
    requires n <= i < |prev|
    ensures i in MatchExact(prev, next, n).oldLeft
  {
    if n > 0 { ExactKeeps(prev, next, n - 1, i); }
  }

  /** A branch left unmatched has no free identical counterpart. */
  lemma {:induction false} ExactExhausted<T>(prev: seq<T>, next: seq<T>, n: nat, i: nat, j: nat)
    requires i < n <= |prev| && j < |next|
    requires i in MatchExact(prev, next, n).oldLeft && j in MatchExact(prev, next, n).newLeft
    ensures next[j] != prev[i]
  {
    if i < n - 1 { ExactExhausted(prev, next, n - 1, i, j); }
  }

  lemma {:induction false} TotalIsMultiplicity<T>(l: seq<T>, v: T)
    ensures Total(l, (x: T) => x == v) == multiset(l)[v]
  {
    PrefixMultiplicity(l, |l|, v);
    assert l[..|l|] == l;
  }

  lemma {:induction false} PrefixMultiplicity<T>(l: seq<T>, n: nat, v: T)
    requires n <= |l|
    ensures CountIn(l, Upto(|l|), n, (x: T) => x == v) == multiset(l[..n])[v]
  {
    if n > 0 {
      PrefixMultiplicity(l, n - 1, v);
      assert l[..n] == l[..n - 1] + [l[n - 1]];
    }
  }

  /** When the old branches survive as a multiset, greedy exact matching
      leaves none of them over, so nothing is ever paired. */
  lemma PureAdditionMatchesAll<T, K>(prev: seq<T>, next: seq<T>, pk: seq<Option<K>>, nk: seq<Option<K>>)
    requires |pk| == |prev| && |nk| == |next|
    requires multiset(prev) <= multiset(next)
    ensures MatchExact(prev, next, |prev|).oldLeft == {}
    ensures Match(prev, next, pk, nk) == MatchExact(prev, next, |prev|)
  {
    var m := MatchExact(prev, next, |prev|);
    ExactAccounted(prev, next, |prev|);
    forall i | i in m.oldLeft ensures false {
      var v := prev[i];
      var ok := (x: T) => x == v;
      ExactBalance(prev, next, |prev|, ok);
      TotalIsMultiplicity(prev, v);
      TotalIsMultiplicity(next, v);
      forall j | 0 <= j < |next| && j in m.newLeft ensures !ok(next[j]) {
        ExactExhausted(prev, next, |prev|, i, j);
      }
      CountZero(next, m.newLeft, |next|, ok);
      CountZero(prev, m.oldLeft, |prev|, ok);
    }
    IdleKeys(pk, nk, |prev|, m);
    IdlePositions(|prev|, m);
  }

  lemma {:induction false} IdleKeys<K>(pk: seq<Option<K>>, nk: seq<Option<K>>, n: nat, m: Matching)
    requires n <= |pk| && m.oldLeft == {}
    ensures MatchKeys(pk, nk, n, m) == m
  {
    if n > 0 { IdleKeys(pk, nk, n - 1, m); }
  }

  lemma {:induction false} IdlePositions(n: nat, m: Matching)
    requires m.oldLeft == {}
    ensures MatchPositions(n, m) == m
  {
    if n > 0 { IdlePositions(n - 1, m); }
  }
}
