/**
 The retained turn outcomes of one thread: four tables and a byte total that
 an eviction loop keeps within bounds (src/codex/client.rs,
 `route_turn_completed`).
 */
module Ledger {
  import opened ClientEvents

  datatype Ledger = Ledger(
    outcomes: map<TurnId, Outcome>,
    fingerprints: map<TurnId, nat>,
    order: seq<TurnId>,
    weights: map<TurnId, nat>,
    bytes: nat)

  const EMPTY: Ledger := Ledger(map[], map[], [], map[], 0)

  /** Forget the oldest outcome. */
  function PopOldest(l: Ledger): Ledger
    requires l.order != []
  {
    var oldest := l.order[0];
    Ledger(l.outcomes - {oldest}, l.fingerprints - {oldest}, l.order[1..], l.weights - {oldest},
           if oldest in l.weights then Minus(l.bytes, l.weights[oldest]) else l.bytes)
  }

  predicate Crowded(l: Ledger, weight: nat) {
    |l.outcomes| >= THREAD_OUTCOME_CAPACITY || l.bytes + weight > THREAD_PROJECTION_BYTE_BUDGET
  }

  /** The eviction loop that makes room for one more outcome. */
  function Evict(l: Ledger, weight: nat): Ledger
    decreases |l.order|
  {
    if Crowded(l, weight) && l.order != [] then Evict(PopOldest(l), weight) else l
  }

  /** Record an outcome as the newest. */
  function Append(l: Ledger, o: Outcome): Ledger {
    Ledger(l.outcomes[o.turn.id := o], l.fingerprints[o.turn.id := o.turn.fingerprint],
           l.order + [o.turn.id], l.weights[o.turn.id := OutcomeWeight(o)], l.bytes + OutcomeWeight(o))
  }

  function Retain(l: Ledger, o: Outcome): Ledger {
    Append(Evict(l, OutcomeWeight(o)), o)
  }

  // ------------------------------------------------ what the tables mean

  predicate Distinct(os: seq<Outcome>) {
    forall i, j :: 0 <= i < j < |os| ==> os[i].turn.id != os[j].turn.id
  }

  function Ids(os: seq<Outcome>): seq<TurnId> {
    seq(|os|, i requires 0 <= i < |os| => os[i].turn.id)
  }

  function OutcomeMap(os: seq<Outcome>): map<TurnId, Outcome> {
    if os == [] then map[] else OutcomeMap(os[..|os| - 1])[os[|os| - 1].turn.id := os[|os| - 1]]
  }

  function FingerprintMap(m: map<TurnId, Outcome>): map<TurnId, nat> {
    map t | t in m :: m[t].turn.fingerprint
  }

  function WeightMap(m: map<TurnId, Outcome>): map<TurnId, nat> {
    map t | t in m :: OutcomeWeight(m[t])
  }

  function Size(os: seq<Outcome>): nat {
    if os == [] then 0 else Size(os[..|os| - 1]) + OutcomeWeight(os[|os| - 1])
  }

  /** The tables that list exactly the outcomes `os`, oldest first. */
  function TablesOf(os: seq<Outcome>): Ledger {
    Ledger(OutcomeMap(os), FingerprintMap(OutcomeMap(os)), Ids(os), WeightMap(OutcomeMap(os)), Size(os))
  }

  predicate Fits(os: seq<Outcome>) {
    |os| <= THREAD_OUTCOME_CAPACITY && Size(os) <= THREAD_PROJECTION_BYTE_BUDGET
  }

  lemma {:induction false} SizeFront(os: seq<Outcome>)
    requires os != []
    ensures Size(os) == OutcomeWeight(os[0]) + Size(os[1..])
  {
    var n := |os| - 1;
    if n > 0 {
      SizeFront(os[..n]);
      assert os[..n][1..] == os[1..][..n - 1];
    }
  }

  lemma {:induction false} MapKeys(os: seq<Outcome>, t: TurnId)
    ensures t in OutcomeMap(os) <==> exists i :: 0 <= i < |os| && os[i].turn.id == t
  {
    if os != [] {
      var n := |os| - 1;
      MapKeys(os[..n], t);
      if i :| 0 <= i < n && os[i].turn.id == t { assert os[..n][i].turn.id == t; }
    }
  }

  lemma {:induction false} MapSize(os: seq<Outcome>)
    requires Distinct(os)
    ensures |OutcomeMap(os)| == |os|
  {
    if os != [] {
      var n := |os| - 1;
      MapSize(os[..n]);
      MapKeys(os[..n], os[n].turn.id);
      assert OutcomeMap(os).Keys == OutcomeMap(os[..n]).Keys + {os[n].turn.id};
    }
  }

  lemma {:induction false} MapFront(os: seq<Outcome>)
    requires Distinct(os) && os != []
    ensures OutcomeMap(os) - {os[0].turn.id} == OutcomeMap(os[1..])
    ensures os[0].turn.id in OutcomeMap(os) && OutcomeMap(os)[os[0].turn.id] == os[0]
  {
    var n := |os| - 1;
    if n > 0 {
      MapFront(os[..n]);
      assert os[..n][1..] == os[1..][..n - 1];
      assert os[1..][n - 1] == os[n];
    }
  }

  /** Popping the oldest entry of the tables drops the oldest outcome. */
  lemma PopIsTail(os: seq<Outcome>)
    requires Distinct(os) && os != []
    ensures PopOldest(TablesOf(os)) == TablesOf(os[1..])
  {
    var l := TablesOf(os);
    var id := os[0].turn.id;
    MapFront(os);
    SizeFront(os);
    assert FingerprintMap(OutcomeMap(os)) - {id} == FingerprintMap(OutcomeMap(os[1..]));
    assert WeightMap(OutcomeMap(os)) - {id} == WeightMap(OutcomeMap(os[1..]));
    assert Ids(os)[1..] == Ids(os[1..]);
  }

  lemma AppendIsSnoc(os: seq<Outcome>, o: Outcome)
    ensures Append(TablesOf(os), o) == TablesOf(os + [o])
  {
    assert (os + [o])[..|os|] == os;
    var m := OutcomeMap(os);
    var n := OutcomeMap(os + [o]);
    assert n == m[o.turn.id := o];
    assert FingerprintMap(m)[o.turn.id := o.turn.fingerprint] == FingerprintMap(n);
    assert WeightMap(m)[o.turn.id := OutcomeWeight(o)] == WeightMap(n);
    assert Ids(os) + [o.turn.id] == Ids(os + [o]);
  }

  // ------------------------------------- eviction keeps the longest suffix

  /** The longest suffix within the count and byte limits. */
  function LongestFit(os: seq<Outcome>): seq<Outcome> {
    if os == [] || Fits(os) then os else LongestFit(os[1..])
  }

  /** It is a suffix, it fits, and every suffix that fits is no longer. */
  lemma {:induction false} LongestFitIsLongest(os: seq<Outcome>, k: nat)
    requires k <= |os|
    ensures Fits(LongestFit(os))
    ensures |LongestFit(os)| <= |os| && LongestFit(os) == os[|os| - |LongestFit(os)|..]
    ensures Fits(os[k..]) ==> |os| - k <= |LongestFit(os)|
  {
    if os != [] && !Fits(os) {
      LongestFitIsLongest(os[1..], if k == 0 then 0 else k - 1);
      assert os[0..] == os;
      if k > 0 { assert os[1..][k - 1..] == os[k..]; }
    }
  }

  /** A list that already lost entries that do not fit loses the same ones later. */
  lemma {:induction false} FitTwice(os: seq<Outcome>, o: Outcome)
    ensures LongestFit(LongestFit(os) + [o]) == LongestFit(os + [o])
  {
    if os != [] && !Fits(os) {
      assert (os + [o])[..|os|] == os;
      assert (os + [o])[1..] == os[1..] + [o];
      FitTwice(os[1..], o);
    }
  }

  /** What eviction leaves in front of a new outcome. */
  function Room(os: seq<Outcome>, o: Outcome): seq<Outcome> {
    if os == [] || Fits(os + [o]) then os else Room(os[1..], o)
  }

  lemma SingleFits(o: Outcome)
    requires OutcomeWeight(o) <= THREAD_PROJECTION_BYTE_BUDGET
    ensures Fits([o])
  {
    assert [o][..0] == [];
    assert Size([o]) == Size([o][..0]) + OutcomeWeight(o);
  }

  lemma {:induction false} RoomIsFit(os: seq<Outcome>, o: Outcome)
    requires OutcomeWeight(o) <= THREAD_PROJECTION_BYTE_BUDGET
    ensures Room(os, o) + [o] == LongestFit(os + [o])
  {
    if os == [] {
      SingleFits(o);
      assert os + [o] == [o];
    } else if !Fits(os + [o]) {
      assert (os + [o])[1..] == os[1..] + [o];
      RoomIsFit(os[1..], o);
    }
  }

  lemma CrowdedIsUnfit(os: seq<Outcome>, o: Outcome)
    requires Distinct(os)
    ensures Crowded(TablesOf(os), OutcomeWeight(o)) <==> !Fits(os + [o])
  {
    MapSize(os);
    assert (os + [o])[..|os|] == os;
  }

  lemma {:induction false} EvictIsRoom(os: seq<Outcome>, o: Outcome)
    requires Distinct(os)
    ensures Evict(TablesOf(os), OutcomeWeight(o)) == TablesOf(Room(os, o))
  {
    CrowdedIsUnfit(os, o);
    if os != [] && !Fits(os + [o]) {
      PopIsTail(os);
      EvictIsRoom(os[1..], o);
    }
  }

  /** Recording an outcome turns the tables of a list into the tables of the
      longest suffix, of that list and the new outcome, that fits. */
  lemma RetainIsLongestFit(os: seq<Outcome>, o: Outcome)
    requires Distinct(os) && OutcomeWeight(o) <= THREAD_PROJECTION_BYTE_BUDGET
    ensures Retain(TablesOf(os), o) == TablesOf(LongestFit(os + [o]))
  {
    EvictIsRoom(os, o);
    RoomIsFit(os, o);
    AppendIsSnoc(Room(os, o), o);
  }

  /** The suffix stays free of repeated turns when the new turn is not in it. */
  lemma FitDistinct(os: seq<Outcome>, o: Outcome)
    requires Distinct(os) && o.turn.id !in OutcomeMap(os)
    ensures Distinct(LongestFit(os + [o]))
  {
    forall i | 0 <= i < |os| ensures os[i].turn.id != o.turn.id { MapKeys(os, os[i].turn.id); }
    LongestFitIsLongest(os + [o], 0);
  }
}
