/**
 Which branches get paired: those whose key has one counterpart on each side,
 and then those left at the same position. Nothing that could still be paired
 is left over.
 */
module MatchingLaws {
  import opened Wrappers
  import opened BranchMatching

  /** The only free index with this key. */
  predicate OnlyWith<K(==)>(keys: seq<Option<K>>, free: set<nat>, i: nat) {
    i < |keys| && i in free && keys[i].Some? &&
    forall j :: j in free && j < |keys| && keys[j] == keys[i] ==> j == i
  }

  lemma {:induction false} KeysOnlyRemove<K>(pk: seq<Option<K>>, nk: seq<Option<K>>, n: nat, start: Matching)
    requires n <= |pk|
    ensures var m := MatchKeys(pk, nk, n, start);
            m.oldLeft <= start.oldLeft && m.newLeft <= start.newLeft && start.pairs <= m.pairs
  {
    if n > 0 { KeysOnlyRemove(pk, nk, n - 1, start); }
  }

  lemma {:induction false} KeysGrow<K>(pk: seq<Option<K>>, nk: seq<Option<K>>, m: nat, n: nat, start: Matching)
    requires m <= n <= |pk|
    ensures MatchKeys(pk, nk, m, start).pairs <= MatchKeys(pk, nk, n, start).pairs
    decreases n
  {
    if m < n { KeysGrow(pk, nk, m, n - 1, start); }
  }

  lemma {:induction false} PositionsGrow(n: nat, start: Matching)
    ensures var m := MatchPositions(n, start);
            m.oldLeft <= start.oldLeft && m.newLeft <= start.newLeft && start.pairs <= m.pairs
  {
    if n > 0 { PositionsGrow(n - 1, start); }
  }

  /** Until its turn comes, such a pair stays free. */
  lemma {:induction false} StaysFree<K>(pk: seq<Option<K>>, nk: seq<Option<K>>, n: nat, start: Matching, i: nat, j: nat)
    requires n <= i < |pk| && OnlyWith(pk, start.oldLeft, i) && OnlyWith(nk, start.newLeft, j) && pk[i] == nk[j]
    ensures var m := MatchKeys(pk, nk, n, start); i in m.oldLeft && j in m.newLeft
  {
    if n > 0 {
      StaysFree(pk, nk, n - 1, start, i, j);
      KeysOnlyRemove(pk, nk, n - 1, start);
      var m := MatchKeys(pk, nk, n - 1, start);
      var c := WithKey(nk, m.newLeft, pk[n - 1]);
      if n - 1 in m.oldLeft && pk[n - 1].Some? && |c| == 1 {
        assert Only(c) in c;
        assert pk[n - 1] == nk[Only(c)];
        assert n - 1 in start.oldLeft;
      }
    }
  }

  /** Two branches are compared with each other when, among those without an
      identical counterpart, each is the only one on its side with that key. */
  lemma SameKeyIsPaired<T, K>(
      prev: seq<T>, next: seq<T>, pk: seq<Option<K>>, nk: seq<Option<K>>, i: nat, j: nat)
    requires |pk| == |prev| && |nk| == |next|
    requires var e := MatchExact(prev, next, |prev|);
             OnlyWith(pk, e.oldLeft, i) && OnlyWith(nk, e.newLeft, j) && pk[i] == nk[j]
    ensures (i, j) in Match(prev, next, pk, nk).pairs
  {
    var e := MatchExact(prev, next, |prev|);
    StaysFree(pk, nk, i, e, i, j);
    KeysOnlyRemove(pk, nk, i, e);
    var m := MatchKeys(pk, nk, i, e);
    assert WithKey(nk, m.newLeft, pk[i]) == {j};
    var after := MatchKeys(pk, nk, i + 1, e);
    assert after.pairs[|m.pairs|] == (i, j);
    KeysGrow(pk, nk, i + 1, |pk|, e);
    PositionsGrow(|prev|, MatchKeys(pk, nk, |pk|, e));
  }

  lemma {:induction false} PositionPaired(n: nat, start: Matching, i: nat)
    requires i < n && i in start.oldLeft && i in start.newLeft
    ensures var m := MatchPositions(n, start);
            (i, i) in m.pairs && i !in m.oldLeft && i !in m.newLeft
  {
    if i < n - 1 {
      PositionPaired(n - 1, start, i);
    } else {
      PositionFree(n - 1, start, i);
      var m := MatchPositions(n, start);
      assert m.pairs[|m.pairs| - 1] == (i, i);
    }
  }

  lemma {:induction false} PositionFree(n: nat, start: Matching, i: nat)
    requires n <= i && i in start.oldLeft && i in start.newLeft
    ensures i in MatchPositions(n, start).oldLeft && i in MatchPositions(n, start).newLeft
  {
    if n > 0 { PositionFree(n - 1, start, i); }
  }

  /** Branches that neither an identical one nor a key has matched are compared
      with the one at their position, if that is unmatched too. */
  lemma SamePositionIsPaired<T, K>(prev: seq<T>, next: seq<T>, pk: seq<Option<K>>, nk: seq<Option<K>>, i: nat)
    requires |pk| == |prev| && |nk| == |next| && i < |prev|
    requires var m := MatchKeys(pk, nk, |prev|, MatchExact(prev, next, |prev|));
             i in m.oldLeft && i in m.newLeft
    ensures (i, i) in Match(prev, next, pk, nk).pairs
  {
    PositionPaired(|prev|, MatchKeys(pk, nk, |prev|, MatchExact(prev, next, |prev|)), i);
  }

  /** Nothing is left over at the same position on both sides, and no identical
      branches are left over or compared. */
  lemma LeftoversDiffer<T, K>(prev: seq<T>, next: seq<T>, pk: seq<Option<K>>, nk: seq<Option<K>>, i: nat, j: nat)
    requires |pk| == |prev| && |nk| == |next| && i < |prev| && j < |next|
    requires i in Match(prev, next, pk, nk).oldLeft && j in Match(prev, next, pk, nk).newLeft
    ensures i != j && prev[i] != next[j]
  {
    var e := MatchExact(prev, next, |prev|);
    var m := MatchKeys(pk, nk, |prev|, e);
    KeysOnlyRemove(pk, nk, |prev|, e);
    PositionsGrow(|prev|, m);
    ExactExhausted(prev, next, |prev|, i, j);
    if i == j { PositionPaired(|prev|, m, i); }
  }
}
