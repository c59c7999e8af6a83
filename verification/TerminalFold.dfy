/**
 Folding what a reconciliation pass learned about one thread into its terminal
 turns and items (src/codex/external_recovery.rs, `TerminalProjection`).
 */
module TerminalFold {
  import opened Wrappers
  import Sets

  const ENTRY_CAPACITY: nat := 3200

  datatype Terminal = Completed | Failed | Interrupted

  datatype TurnStatus = Ended(how: Terminal) | InProgress | OtherStatus

  datatype Reason = ProtocolViolation | ConflictingTerminal | PageLimit | BufferOverflow

  datatype EpochFailure = StoreFailed | ConnectionLost | RequestTimeout | Violation

  /** The thread becomes uncertain, or the whole connection epoch is lost. */
  datatype Failure = Uncertain(reason: Reason) | Epoch(failure: EpochFailure)

  type TurnId = string

  /** A turn snapshot with the ids of its items, a listed item, a completion
      event, an event without a terminal, or one that has no place here. */
  datatype Fact =
    | Snapshot(turn: TurnId, status: TurnStatus, members: seq<Option<string>>)
    | Listing(turn: TurnId, item: Option<string>)
    | TurnEvent(turn: TurnId, status: TurnStatus)
    | ItemEvent(turn: TurnId, item: Option<string>)
    | QuietEvent
    | ForeignEvent

  datatype State = State(turns: map<TurnId, Terminal>, all: set<TurnId>, items: set<(TurnId, string)>,
                         listed: set<(TurnId, string)>)

  const EMPTY: State := State(map[], {}, {}, {})

  /** ensure_entry_bounds */
  predicate InBounds(s: State) {
    |s.turns| <= ENTRY_CAPACITY && |s.all| <= ENTRY_CAPACITY && |s.items| <= ENTRY_CAPACITY &&
    |s.listed| <= ENTRY_CAPACITY
  }

  function Checked(s: State): Result<State, Failure> { if InBounds(s) then Ok(s) else Err(Uncertain(PageLimit)) }

  /** add_item */
  function AddItem(s: State, turn: TurnId, item: Option<string>): Result<State, Failure> {
    if item.None? then Err(Uncertain(ProtocolViolation)) else Checked(s.(items := s.items + {(turn, item.value)}))
  }

  function AddMembers(s: State, turn: TurnId, members: seq<Option<string>>): Result<State, Failure> {
    if members == [] then Ok(s)
    else
      var n := |members| - 1;
      match AddMembers(s, turn, members[..n])
      case Err(e) => Err(e)
      case Ok(r) => AddItem(r, turn, members[n])
  }

  function PutTurn(s: State, turn: TurnId, how: Terminal): Result<State, Failure> {
    if turn in s.turns && s.turns[turn] != how then Err(Uncertain(ConflictingTerminal))
    else Checked(s.(turns := s.turns[turn := how]))
  }

  function Add(s: State, f: Fact): Result<State, Failure> {
    match f
    case Snapshot(turn, status, members) =>
      var seen := s.(all := s.all + {turn});
      (match status
       case OtherStatus => Err(Uncertain(ProtocolViolation))
       case InProgress => Checked(seen)
       case Ended(how) =>
         match AddMembers(seen, turn, members)
         case Err(e) => Err(e)
         case Ok(r) => PutTurn(r, turn, how))
    case Listing(turn, item) =>
      if item.None? then Err(Uncertain(ProtocolViolation)) else Checked(s.(listed := s.listed + {(turn, item.value)}))
    case TurnEvent(turn, status) => if status.Ended? then PutTurn(s, turn, status.how) else Err(Epoch(Violation))
    case ItemEvent(turn, item) => if item.None? then Err(Epoch(Violation)) else AddItem(s, turn, item)
    case QuietEvent => Checked(s)
    case ForeignEvent => Err(Epoch(Violation))
  }

  function AddAll(s: State, fs: seq<Fact>): Result<State, Failure> {
    if fs == [] then Ok(s)
    else
      match AddAll(s, fs[..|fs| - 1])
      case Err(e) => Err(e)
      case Ok(r) => Add(r, fs[|fs| - 1])
  }

  /** Listed items of turns that turned out terminal. */
  function Surviving(listed: set<(TurnId, string)>, turns: map<TurnId, Terminal>): set<(TurnId, string)> {
    set k | k in listed && k.0 in turns
  }

  /** fold_listed_items */
  function Fold(s: State): Result<State, Failure> {
    Checked(s.(items := s.items + Surviving(s.listed, s.turns), listed := {}))
  }

  function Project(fs: seq<Fact>): Result<State, Failure> {
    match AddAll(EMPTY, fs)
    case Err(e) => Err(e)
    case Ok(s) => Fold(s)
  }

  // ----------------------------------- the same, without regard to order

  predicate WellFormed(f: Fact) {
    match f
    case Snapshot(_, status, members) =>
      !status.OtherStatus? && (status.Ended? ==> forall i :: 0 <= i < |members| ==> members[i].Some?)
    case Listing(_, item) => item.Some?
    case TurnEvent(_, status) => status.Ended?
    case ItemEvent(_, item) => item.Some?
    case QuietEvent => true
    case ForeignEvent => false
  }

  /** The fact says the turn ended this way. */
  predicate Says(f: Fact, turn: TurnId, how: Terminal) {
    (f.Snapshot? || f.TurnEvent?) && f.turn == turn && f.status == Ended(how)
  }

  /** The fact observes the item: in a terminal snapshot or a completion event. */
  predicate Observes(f: Fact, turn: TurnId, item: string) {
    || (f.Snapshot? && f.status.Ended? && f.turn == turn && Some(item) in f.members)
    || (f.ItemEvent? && f.turn == turn && f.item == Some(item))
  }

  predicate Mentions(f: Fact, turn: TurnId) { f.Snapshot? && f.turn == turn }

  predicate Lists(f: Fact, turn: TurnId, item: string) { f.Listing? && f.turn == turn && f.item == Some(item) }

  /** Two facts about one turn never disagree on how it ended. */
  predicate Compatible(f: Fact, g: Fact) {
    !((f.Snapshot? || f.TurnEvent?) && (g.Snapshot? || g.TurnEvent?) && f.turn == g.turn &&
      f.status.Ended? && g.status.Ended?) || f.status == g.status
  }

  predicate Consistent(fs: seq<Fact>) {
    forall f, g :: f in fs && g in fs ==> Compatible(f, g)
  }

  function TurnsOf(f: Fact): map<TurnId, Terminal> {
    if (f.Snapshot? || f.TurnEvent?) && f.status.Ended? then map[f.turn := f.status.how] else map[]
  }

  function MembersOf(turn: TurnId, members: seq<Option<string>>): set<(TurnId, string)> {
    if members == [] then {}
    else
      var n := |members| - 1;
      MembersOf(turn, members[..n]) + if members[n].Some? then {(turn, members[n].value)} else {}
  }

  function ItemsOf(f: Fact): set<(TurnId, string)> {
    if f.Snapshot? && f.status.Ended? then MembersOf(f.turn, f.members)
    else if f.ItemEvent? && f.item.Some? then {(f.turn, f.item.value)}
    else {}
  }

  /** s with everything f says, checked or not. */
  function Plus(s: State, f: Fact): State {
    State(s.turns + TurnsOf(f), s.all + (if f.Snapshot? then {f.turn} else {}), s.items + ItemsOf(f),
          s.listed + if f.Listing? && f.item.Some? then {(f.turn, f.item.value)} else {})
  }

  function Collect(fs: seq<Fact>): State {
    if fs == [] then EMPTY else Plus(Collect(fs[..|fs| - 1]), fs[|fs| - 1])
  }

  predicate Agrees(s: State, f: Fact) {
    forall t :: t in TurnsOf(f) && t in s.turns ==> s.turns[t] == TurnsOf(f)[t]
  }

  // ------------------------------------------------- one fact at a time

  /** Growing never brings a state back within bounds. */
  lemma BoundsShrink(s: State, r: State)
    requires s.turns.Keys <= r.turns.Keys && s.all <= r.all && s.items <= r.items && s.listed <= r.listed
    ensures InBounds(r) ==> InBounds(s)
  {
    Sets.Smaller(s.turns.Keys, r.turns.Keys);
    Sets.Smaller(s.all, r.all);
    Sets.Smaller(s.items, r.items);
    Sets.Smaller(s.listed, r.listed);
  }

  lemma {:induction false} MembersAre(turn: TurnId, members: seq<Option<string>>, t: TurnId, k: string)
    ensures (t, k) in MembersOf(turn, members) <==> t == turn && Some(k) in members
  {
    if members != [] {
      var n := |members| - 1;
      MembersAre(turn, members[..n], t, k);
      assert members == members[..n] + [members[n]];
    }
  }

  function WithItems(s: State, more: set<(TurnId, string)>): State { s.(items := s.items + more) }

  lemma WithMore(s: State, a: set<(TurnId, string)>, b: set<(TurnId, string)>)
    ensures WithItems(WithItems(s, a), b) == WithItems(s, a + b)
    ensures WithItems(s, {}) == s
  {
    assert s.items + a + b == s.items + (a + b);
  }

  lemma {:induction false} MembersIs(s: State, turn: TurnId, members: seq<Option<string>>)
    requires InBounds(WithItems(s, MembersOf(turn, members)))
    requires forall i :: 0 <= i < |members| ==> members[i].Some?
    ensures AddMembers(s, turn, members) == Ok(WithItems(s, MembersOf(turn, members)))
  {
    if members == [] {
      WithMore(s, {}, {});
    } else {
      var n := |members| - 1;
      WithMore(s, MembersOf(turn, members[..n]), {(turn, members[n].value)});
      BoundsShrink(WithItems(s, MembersOf(turn, members[..n])), WithItems(s, MembersOf(turn, members)));
      MembersIs(s, turn, members[..n]);
    }
  }

  lemma {:induction false} MembersSome(s: State, turn: TurnId, members: seq<Option<string>>)
    requires AddMembers(s, turn, members).Ok?
    ensures forall i :: 0 <= i < |members| ==> members[i].Some?
  {
    if members != [] { MembersSome(s, turn, members[..|members| - 1]); }
  }

  lemma {:induction false} MembersOk(s: State, turn: TurnId, members: seq<Option<string>>)
    requires AddMembers(s, turn, members).Ok?
    ensures AddMembers(s, turn, members).value == WithItems(s, MembersOf(turn, members))
  {
    if members == [] {
      WithMore(s, {}, {});
    } else {
      var n := |members| - 1;
      var r := AddMembers(s, turn, members[..n]).value;
      MembersOk(s, turn, members[..n]);
      WithMore(s, MembersOf(turn, members[..n]), {(turn, members[n].value)});
      assert AddMembers(s, turn, members).value == WithItems(r, {(turn, members[n].value)});
    }
  }

  /** The shape of a step that touches one table. */
  lemma PlusIs(s: State, f: Fact)
    ensures f.TurnEvent? && f.status.Ended? ==> Plus(s, f) == s.(turns := s.turns[f.turn := f.status.how])
    ensures f.Snapshot? && !f.status.Ended? ==> Plus(s, f) == s.(all := s.all + {f.turn})
    ensures f.Listing? && f.item.Some? ==> Plus(s, f) == s.(listed := s.listed + {(f.turn, f.item.value)})
    ensures f.ItemEvent? && f.item.Some? ==> Plus(s, f) == WithItems(s, {(f.turn, f.item.value)})
    ensures f.QuietEvent? ==> Plus(s, f) == s
  {
    assert s.turns + map[] == s.turns;
    assert s.all + {} == s.all && s.items + {} == s.items && s.listed + {} == s.listed;
    if f.TurnEvent? && f.status.Ended? {
      assert s.turns + map[f.turn := f.status.how] == s.turns[f.turn := f.status.how];
    }
  }

  /** A checked step succeeds exactly when its fact is well formed, agrees with
      what is known and leaves the state within bounds. */
  lemma AddIs(s: State, f: Fact)
    ensures Add(s, f).Ok? <==> WellFormed(f) && Agrees(s, f) && InBounds(Plus(s, f))
    ensures Add(s, f).Ok? ==> Add(s, f).value == Plus(s, f)
  {
    if f.Snapshot? && f.status.Ended? {
      SnapshotIs(s, f);
    } else if f.TurnEvent? && f.status.Ended? {
      TurnEventIs(s, f.turn, f.status.how);
    } else if f.Listing? || f.ItemEvent? {
      ItemFactIs(s, f);
    } else {
      PlusIs(s, f);
      assert TurnsOf(f) == map[];
    }
  }

  lemma ItemFactIs(s: State, f: Fact)
    requires f.Listing? || f.ItemEvent?
    ensures Add(s, f).Ok? <==> WellFormed(f) && Agrees(s, f) && InBounds(Plus(s, f))
    ensures Add(s, f).Ok? ==> Add(s, f).value == Plus(s, f)
  {
    PlusIs(s, f);
    assert TurnsOf(f) == map[];
  }

  lemma TurnEventPlus(s: State, turn: TurnId, how: Terminal)
    ensures Plus(s, TurnEvent(turn, Ended(how))) == s.(turns := s.turns[turn := how])
  {
    PlusIs(s, TurnEvent(turn, Ended(how)));
  }

  lemma AgreesTurn(s: State, turn: TurnId, how: Terminal)
    ensures Agrees(s, TurnEvent(turn, Ended(how))) <==> !(turn in s.turns && s.turns[turn] != how)
  {
    assert TurnsOf(TurnEvent(turn, Ended(how))) == map[turn := how];
  }

  lemma TurnEventIs(s: State, turn: TurnId, how: Terminal)
    ensures var f := TurnEvent(turn, Ended(how));
            && (Add(s, f).Ok? <==> Agrees(s, f) && InBounds(Plus(s, f)))
            && (Add(s, f).Ok? ==> Add(s, f).value == Plus(s, f))
  {
    var f := TurnEvent(turn, Ended(how));
    TurnEventPlus(s, turn, how);
    AgreesTurn(s, turn, how);
    assert Add(s, f) == PutTurn(s, turn, how);
  }

  lemma SnapshotPlus(s: State, f: Fact)
    requires f.Snapshot? && f.status.Ended?
    ensures var seen := s.(all := s.all + {f.turn});
            Plus(s, f) == WithItems(seen, MembersOf(f.turn, f.members)).(turns := s.turns[f.turn := f.status.how])
  {
    assert s.turns + map[f.turn := f.status.how] == s.turns[f.turn := f.status.how];
    assert s.listed + {} == s.listed;
  }

  lemma SnapshotIs(s: State, f: Fact)
    requires f.Snapshot? && f.status.Ended?
    ensures Add(s, f).Ok? <==> WellFormed(f) && Agrees(s, f) && InBounds(Plus(s, f))
    ensures Add(s, f).Ok? ==> Add(s, f).value == Plus(s, f)
  {
    var seen := s.(all := s.all + {f.turn});
    var filled := WithItems(seen, MembersOf(f.turn, f.members));
    SnapshotPlus(s, f);
    if AddMembers(seen, f.turn, f.members).Ok? {
      MembersSome(seen, f.turn, f.members);
      MembersOk(seen, f.turn, f.members);
    }
    if WellFormed(f) && InBounds(Plus(s, f)) {
      BoundsShrink(filled, Plus(s, f));
      MembersIs(seen, f.turn, f.members);
    }
  }

  // ------------------------------------------------------ many facts

  lemma {:induction false} CollectTurns(fs: seq<Fact>, t: TurnId)
    ensures t in Collect(fs).turns <==> exists f :: f in fs && t in TurnsOf(f)
    ensures t in Collect(fs).turns ==> exists f :: f in fs && t in TurnsOf(f) && Collect(fs).turns[t] == TurnsOf(f)[t]
  {
    if fs != [] {
      var n := |fs| - 1;
      CollectTurns(fs[..n], t);
      assert fs == fs[..n] + [fs[n]];
      if t in TurnsOf(fs[n]) { assert fs[n] in fs; }
    }
  }

  lemma {:induction false} CollectItems(fs: seq<Fact>, t: TurnId, k: string)
    ensures (t, k) in Collect(fs).items <==> exists f :: f in fs && Observes(f, t, k)
    ensures (t, k) in Collect(fs).listed <==> exists f :: f in fs && Lists(f, t, k)
    ensures t in Collect(fs).all <==> exists f :: f in fs && Mentions(f, t)
  {
    if fs != [] {
      var n := |fs| - 1;
      CollectItems(fs[..n], t, k);
      assert fs == fs[..n] + [fs[n]];
      if fs[n].Snapshot? { MembersAre(fs[n].turn, fs[n].members, t, k); }
      assert (t, k) in ItemsOf(fs[n]) <==> Observes(fs[n], t, k);
      assert fs[n] in fs;
    }
  }

  predicate Acceptable(fs: seq<Fact>) {
    (forall f :: f in fs ==> WellFormed(f)) && Consistent(fs) && InBounds(Collect(fs))
  }

  /** Consistency of a list, one fact at a time. */
  lemma ConsistentSnoc(fs: seq<Fact>, f: Fact)
    ensures Consistent(fs + [f]) <==> Consistent(fs) && Agrees(Collect(fs), f)
  {
    if Consistent(fs + [f]) {
      forall g, h | g in fs && h in fs ensures Compatible(g, h) { assert g in fs + [f] && h in fs + [f]; }
      forall t | t in TurnsOf(f) && t in Collect(fs).turns ensures Collect(fs).turns[t] == TurnsOf(f)[t] {
        CollectTurns(fs, t);
        var g :| g in fs && t in TurnsOf(g) && Collect(fs).turns[t] == TurnsOf(g)[t];
        assert g in fs + [f] && f in fs + [f] && Compatible(g, f);
      }
    }
    if Consistent(fs) && Agrees(Collect(fs), f) {
      forall g, h | g in fs + [f] && h in fs + [f] ensures Compatible(g, h) {
        if g in fs && h !in fs { AgreesWith(fs, g, f); }
        if h in fs && g !in fs { AgreesWith(fs, h, f); }
      }
    }
  }

  lemma AgreesWith(fs: seq<Fact>, g: Fact, f: Fact)
    requires g in fs && Consistent(fs) && Agrees(Collect(fs), f)
    ensures Compatible(g, f) && Compatible(f, g)
  {
    if (g.Snapshot? || g.TurnEvent?) && g.status.Ended? {
      assert g.turn in TurnsOf(g);
      CollectTurns(fs, g.turn);
      var h :| h in fs && g.turn in TurnsOf(h) && Collect(fs).turns[g.turn] == TurnsOf(h)[g.turn];
      assert Compatible(g, h);
    }
  }

  /** The fold succeeds exactly on acceptable facts, and then holds them all. */
  lemma {:induction false} AddAllIs(fs: seq<Fact>)
    ensures AddAll(EMPTY, fs).Ok? <==> Acceptable(fs)
    ensures AddAll(EMPTY, fs).Ok? ==> AddAll(EMPTY, fs).value == Collect(fs)
  {
    if fs != [] {
      var n := |fs| - 1;
      var front := fs[..n];
      AddAllIs(front);
      assert fs == front + [fs[n]] && fs[n] in fs;
      ConsistentSnoc(front, fs[n]);
      BoundsShrink(Collect(front), Collect(fs));
      if Acceptable(front) { AddIs(Collect(front), fs[n]); }
    }
  }

  lemma SameCollection(fs: seq<Fact>, gs: seq<Fact>)
    requires (forall f :: f in fs <==> f in gs) && Consistent(fs)
    ensures Collect(fs) == Collect(gs)
  {
    var x, y := Collect(fs), Collect(gs);
    forall t ensures t in x.turns <==> t in y.turns { CollectTurns(fs, t); CollectTurns(gs, t); }
    forall t | t in x.turns ensures x.turns[t] == y.turns[t] {
      CollectTurns(fs, t);
      CollectTurns(gs, t);
      var f :| f in fs && t in TurnsOf(f) && x.turns[t] == TurnsOf(f)[t];
      var g :| g in gs && t in TurnsOf(g) && y.turns[t] == TurnsOf(g)[t];
      assert Compatible(f, g);
    }
    forall t ensures t in x.all <==> t in y.all { CollectItems(fs, t, ""); CollectItems(gs, t, ""); }
    forall p: (TurnId, string) ensures (p in x.items <==> p in y.items) && (p in x.listed <==> p in y.listed) {
      CollectItems(fs, p.0, p.1);
      CollectItems(gs, p.0, p.1);
    }
  }

  /** The fold does not depend on the order of the facts, nor on how often a
      fact is repeated: neither whether it succeeds nor what it yields. */
  lemma OrderIndependent(fs: seq<Fact>, gs: seq<Fact>)
    requires forall f :: f in fs <==> f in gs
    ensures Project(fs).Ok? <==> Project(gs).Ok?
    ensures Project(fs).Ok? ==> Project(fs) == Project(gs)
  {
    AddAllIs(fs);
    AddAllIs(gs);
    assert Consistent(fs) <==> Consistent(gs);
    if Consistent(fs) { SameCollection(fs, gs); }
  }

  /** Two different terminal statuses for one turn always fail. */
  lemma ConflictsFail(fs: seq<Fact>, f: Fact, g: Fact, turn: TurnId, how: Terminal, other: Terminal)
    requires f in fs && g in fs && Says(f, turn, how) && Says(g, turn, other) && how != other
    ensures Project(fs).Err?
  {
    AddAllIs(fs);
    assert !Compatible(f, g);
  }

  lemma ProjectIs(fs: seq<Fact>)
    requires Project(fs).Ok?
    ensures Consistent(fs) && Project(fs).value.turns == Collect(fs).turns
  {
    AddAllIs(fs);
  }

  lemma CollectSays(fs: seq<Fact>, f: Fact, t: TurnId, how: Terminal)
    requires Consistent(fs) && f in fs && Says(f, t, how)
    ensures t in Collect(fs).turns && Collect(fs).turns[t] == how
  {
    CollectTurns(fs, t);
    assert t in TurnsOf(f);
    var g :| g in fs && t in TurnsOf(g) && Collect(fs).turns[t] == TurnsOf(g)[t];
    assert Compatible(f, g);
  }

  /** A successful projection holds every status some fact gives, */
  lemma StatusHeld(fs: seq<Fact>, f: Fact, t: TurnId, how: Terminal)
    requires Project(fs).Ok? && f in fs && Says(f, t, how)
    ensures t in Project(fs).value.turns && Project(fs).value.turns[t] == how
  {
    ProjectIs(fs);
    CollectSays(fs, f, t, how);
  }

  /** and no other. */
  lemma OnlySaidStatusHeld(fs: seq<Fact>, t: TurnId)
    requires Project(fs).Ok? && t in Project(fs).value.turns
    ensures exists f :: f in fs && Says(f, t, Project(fs).value.turns[t])
  {
    ProjectIs(fs);
    CollectTurns(fs, t);
    var f :| f in fs && t in TurnsOf(f) && Collect(fs).turns[t] == TurnsOf(f)[t];
    assert Says(f, t, Project(fs).value.turns[t]);
  }

  /** It holds an item exactly when the item was observed, or was listed under
      a turn that turned out terminal. */
  lemma ItemsHeld(fs: seq<Fact>, t: TurnId, k: string)
    requires Project(fs).Ok?
    ensures (t, k) in Project(fs).value.items <==>
              (exists f :: f in fs && Observes(f, t, k)) ||
              (t in Project(fs).value.turns && exists f :: f in fs && Lists(f, t, k))
  {
    AddAllIs(fs);
    CollectItems(fs, t, k);
    var s := Collect(fs);
    assert Project(fs).value.items == s.items + Surviving(s.listed, s.turns);
  }

  // ------------------------------------------------ the tables in place

  class TerminalProjection {
    var turns: map<TurnId, Terminal>
    var allTurns: set<TurnId>
    var items: set<(TurnId, string)>
    var listedItems: set<(TurnId, string)>
    var bytes: nat
    /** Every fact added so far. */
    ghost var facts: seq<Fact>

    function Abstract(): State
      reads this
    {
      State(turns, allTurns, items, listedItems)
    }

    ghost predicate Valid()
      reads this
    {
      AddAll(EMPTY, facts) == Ok(Abstract())
    }

    constructor ()
      ensures Valid() && Abstract() == EMPTY && facts == [] && bytes == 0
    {
      turns, allTurns, items, listedItems, bytes, facts := map[], {}, {}, {}, 0, [];
    }

    method EnsureEntryBounds() returns (r: Result<(), Failure>)
      ensures r == if InBounds(Abstract()) then Ok(()) else Err(Uncertain(PageLimit))
    {
      if |turns| > ENTRY_CAPACITY || |allTurns| > ENTRY_CAPACITY || |items| > ENTRY_CAPACITY ||
         |listedItems| > ENTRY_CAPACITY {
        return Err(Uncertain(PageLimit));
      }
      return Ok(());
    }

    method AddOneItem(turn: TurnId, item: Option<string>) returns (r: Result<(), Failure>)
      modifies `items
      ensures var want := AddItem(old(Abstract()), turn, item);
              if want.Ok? then r == Ok(()) && Abstract() == want.value else r == Err(want.error)
    {
      if item.None? {
        return Err(Uncertain(ProtocolViolation));
      }
      items := items + {(turn, item.value)};
      r := EnsureEntryBounds();
    }

    method PutStatus(turn: TurnId, how: Terminal) returns (r: Result<(), Failure>)
      modifies `turns
      ensures var want := PutTurn(old(Abstract()), turn, how);
              if want.Ok? then r == Ok(()) && Abstract() == want.value else r == Err(want.error)
    {
      var conflict := turn in turns && turns[turn] != how;
      turns := turns[turn := how];
      if conflict {
        return Err(Uncertain(ConflictingTerminal));
      }
      r := EnsureEntryBounds();
    }

    method AddTurn(turn: TurnId, status: TurnStatus, members: seq<Option<string>>) returns (r: Result<(), Failure>)
      requires Valid()
      modifies `turns, `allTurns, `items, `facts
      ensures var want := Add(old(Abstract()), Snapshot(turn, status, members));
              if want.Ok? then r == Ok(()) && Abstract() == want.value else r == Err(want.error)
      ensures facts == old(facts) + [Snapshot(turn, status, members)] && (r.Ok? ==> Valid())
    {
      facts := facts + [Snapshot(turn, status, members)];
      assert facts[..|facts| - 1] == old(facts);
      allTurns := allTurns + {turn};
      if status.OtherStatus? {
        return Err(Uncertain(ProtocolViolation));
      }
      if status.InProgress? {
        r := EnsureEntryBounds();
        return;
      }
      r := AddEachItem(turn, members);
      if r.Ok? {
        r := PutStatus(turn, status.how);
      }
    }

    method AddEachItem(turn: TurnId, members: seq<Option<string>>) returns (r: Result<(), Failure>)
      modifies `items
      ensures var want := AddMembers(old(Abstract()), turn, members);
              if want.Ok? then r == Ok(()) && Abstract() == want.value else r == Err(want.error)
    {
      r := Ok(());
      for i := 0 to |members|
        invariant r == Ok(()) && AddMembers(old(Abstract()), turn, members[..i]) == Ok(Abstract())
      {
        assert members[..i + 1][..i] == members[..i];
        r := AddOneItem(turn, members[i]);
        if r.Err? {
          MembersFail(old(Abstract()), turn, members, i + 1);
          return;
        }
      }
      assert members[..|members|] == members;
    }

    method AddListedItem(turn: TurnId, item: Option<string>) returns (r: Result<(), Failure>)
      requires Valid()
      modifies `listedItems, `facts
      ensures var want := Add(old(Abstract()), Listing(turn, item));
              if want.Ok? then r == Ok(()) && Abstract() == want.value else r == Err(want.error)
      ensures facts == old(facts) + [Listing(turn, item)] && (r.Ok? ==> Valid())
    {
      facts := facts + [Listing(turn, item)];
      assert facts[..|facts| - 1] == old(facts);
      if item.None? {
        return Err(Uncertain(ProtocolViolation));
      }
      listedItems := listedItems + {(turn, item.value)};
      r := EnsureEntryBounds();
    }

    method AddEvent(event: Fact) returns (r: Result<(), Failure>)
      requires Valid() && !event.Snapshot? && !event.Listing?
      modifies `turns, `items, `facts
      ensures var want := Add(old(Abstract()), event);
              if want.Ok? then r == Ok(()) && Abstract() == want.value else r == Err(want.error)
      ensures facts == old(facts) + [event] && (r.Ok? ==> Valid())
    {
      facts := facts + [event];
      assert facts[..|facts| - 1] == old(facts);
      match event {
        case ForeignEvent => return Err(Epoch(Violation));
        case QuietEvent => r := EnsureEntryBounds();
        case TurnEvent(turn, status) =>
          if !status.Ended? {
            return Err(Epoch(Violation));
          }
          r := PutStatus(turn, status.how);
        case ItemEvent(turn, item) =>
          if item.None? {
            return Err(Epoch(Violation));
          }
          r := AddOneItem(turn, item);
      }
    }

    method FoldListedItems() returns (r: Result<(), Failure>)
      requires Valid()
      modifies `items, `listedItems
      ensures var want := Project(facts);
              if want.Ok? then r == Ok(()) && Abstract() == want.value else r == Err(want.error)
    {
      var listed := listedItems;
      listedItems := {};
      KeepSurvivors(listed);
      r := EnsureEntryBounds();
    }

    method KeepSurvivors(listed: set<(TurnId, string)>)
      modifies `items
      ensures items == old(items) + Surviving(listed, turns)
    {
      var todo := listed;
      while todo != {}
        invariant todo <= listed && items == old(items) + Surviving(listed - todo, turns)
        decreases todo
      {
        var k :| k in todo;
        SurvivorNext(listed, todo, k, turns);
        todo := todo - {k};
        if k.0 in turns {
          items := items + {k};
        }
      }
      assert listed - {} == listed;
    }
  }

  lemma SurvivorNext(listed: set<(TurnId, string)>, todo: set<(TurnId, string)>, k: (TurnId, string),
                     turns: map<TurnId, Terminal>)
    requires k in todo && todo <= listed
    ensures Surviving(listed - (todo - {k}), turns) ==
            Surviving(listed - todo, turns) + if k.0 in turns then {k} else {}
  {
  }

  /** A failed fold stays failed, for the same reason. */
  lemma {:induction false} FoldStaysFailed(s: State, fs: seq<Fact>, n: nat)
    requires n <= |fs| && AddAll(s, fs[..n]).Err?
    ensures AddAll(s, fs) == AddAll(s, fs[..n])
    decreases |fs| - n
  {
    if n < |fs| {
      assert fs[..n + 1][..n] == fs[..n];
      FoldStaysFailed(s, fs, n + 1);
    } else {
      assert fs[..n] == fs;
    }
  }

  lemma FoldNext(s: State, fs: seq<Fact>, f: Fact)
    requires AddAll(s, fs).Ok?
    ensures AddAll(s, fs + [f]) == Add(AddAll(s, fs).value, f)
  {
    assert (fs + [f])[..|fs|] == fs;
  }

  lemma {:induction false} MembersFail(s: State, turn: TurnId, members: seq<Option<string>>, n: nat)
    requires n <= |members| && AddMembers(s, turn, members[..n]).Err?
    ensures AddMembers(s, turn, members) == AddMembers(s, turn, members[..n])
    decreases |members| - n
  {
    if n < |members| {
      assert members[..n + 1][..n] == members[..n];
      MembersFail(s, turn, members, n + 1);
    } else {
      assert members[..n] == members;
    }
  }
}
