/**
 Digests of the completed items of the turns still open, with the exact number
 of bytes they retain (src/codex/client.rs, `CompletedItems` and
 `route_item_completed`).
 */
module CompletedItems {
  import opened Wrappers
  import opened ClientEvents
  import Totals

  datatype Items = Items(byId: map<string, nat>, anonymous: set<nat>, idBytes: nat)

  datatype Upsert = New | Same | Conflict

  const NO_ITEMS: Items := Items(map[], {}, 0)

  /** upsert */
  function Put(c: Items, item: Item): (Items, Upsert) {
    match item.id
    case Some(id) =>
      (Items(c.byId[id := item.fingerprint], c.anonymous,
             if id in c.byId then c.idBytes else c.idBytes + |id|),
       if id !in c.byId then New else if c.byId[id] == item.fingerprint then Same else Conflict)
    case None =>
      (c.(anonymous := c.anonymous + {item.fingerprint}),
       if item.fingerprint in c.anonymous then Same else New)
  }

  function Len(c: Items): nat { |c.byId| + |c.anonymous| }

  function Retained(c: Items): nat { c.idBytes + |c.anonymous| * 8 }

  /** completed_items and completed_id_bytes */
  datatype Table = Table(turns: map<TurnId, Items>, bytes: nat)

  const EMPTY: Table := Table(map[], 0)

  function ItemsOf(t: Table, turn: TurnId): Items {
    if turn in t.turns then t.turns[turn] else NO_ITEMS
  }

  function Record(t: Table, turn: TurnId, item: Item): Table {
    var before := ItemsOf(t, turn);
    var after := Put(before, item).0;
    Table(t.turns[turn := after], Minus(t.bytes, Retained(before)) + Retained(after))
  }

  function Drop(t: Table, turn: TurnId): Table {
    if turn in t.turns then Table(t.turns - {turn}, Minus(t.bytes, Retained(t.turns[turn]))) else t
  }

  // -------------------------------------------------------- exactness

  function IdLengths(c: Items): map<string, nat> { map id | id in c.byId :: |id| }

  function RetainedMap(turns: map<TurnId, Items>): map<string, nat> {
    map t | t in turns :: Retained(turns[t])
  }

  /** idBytes is the total length of the ids. */
  ghost predicate Exact(c: Items) { c.idBytes == Totals.Total(IdLengths(c)) }

  /** The byte total is the sum over the turns. */
  ghost predicate Counted(t: Table) {
    && t.bytes == Totals.Total(RetainedMap(t.turns))
    && (forall turn :: turn in t.turns ==> Exact(t.turns[turn]))
  }

  /** Counted, and within every limit. */
  ghost predicate Bounded(t: Table) {
    && Counted(t)
    && t.bytes <= THREAD_PROJECTION_BYTE_BUDGET
    && |t.turns| <= THREAD_TERMINAL_CAPACITY
    && (forall turn :: turn in t.turns ==> Len(t.turns[turn]) <= THREAD_EVENT_CAPACITY)
  }

  lemma EmptyBounded()
    ensures Bounded(EMPTY)
  {
    assert RetainedMap(map[]) == map[];
  }

  lemma PutExact(c: Items, item: Item)
    requires Exact(c)
    ensures Exact(Put(c, item).0)
  {
    var d := Put(c, item).0;
    match item.id
    case Some(id) =>
      Totals.Update(IdLengths(c), id, |id|);
      assert IdLengths(d) == IdLengths(c)[id := |id|];
    case None =>
      assert IdLengths(d) == IdLengths(c);
  }

  lemma ItemsExact(t: Table, turn: TurnId)
    requires Counted(t)
    ensures Exact(ItemsOf(t, turn))
    ensures turn in t.turns ==> Retained(t.turns[turn]) <= t.bytes
  {
    assert IdLengths(NO_ITEMS) == map[];
    if turn in t.turns { Totals.Remove(RetainedMap(t.turns), turn); }
  }

  /** The running total stays exact when an item is recorded. */
  lemma RecordCounted(t: Table, turn: TurnId, item: Item)
    requires Counted(t)
    ensures Counted(Record(t, turn, item))
  {
    ItemsExact(t, turn);
    PutExact(ItemsOf(t, turn), item);
    ReplaceTotal(t.turns, turn, Put(ItemsOf(t, turn), item).0);
  }

  lemma ReplaceTotal(turns: map<TurnId, Items>, turn: TurnId, c: Items)
    ensures Totals.Total(RetainedMap(turns[turn := c])) ==
            Totals.Total(RetainedMap(turns)) - (if turn in turns then Retained(turns[turn]) else 0) + Retained(c)
  {
    Totals.Update(RetainedMap(turns), turn, Retained(c));
    assert RetainedMap(turns[turn := c]) == RetainedMap(turns)[turn := Retained(c)];
  }

  lemma RecordSize(t: Table, turn: TurnId, item: Item)
    ensures |Record(t, turn, item).turns| == |t.turns| + if turn in t.turns then 0 else 1
  {
    var u := Record(t, turn, item);
    assert u.turns.Keys == t.turns.Keys + {turn};
    if turn in t.turns { assert u.turns.Keys == t.turns.Keys; }
  }

  lemma DropBounded(t: Table, turn: TurnId)
    requires Bounded(t)
    ensures Bounded(Drop(t, turn)) && turn !in Drop(t, turn).turns
    ensures Drop(t, turn).turns.Keys <= t.turns.Keys
  {
    if turn in t.turns {
      DropTotal(t.turns, turn);
      DropSize(t.turns, turn);
    }
  }

  lemma DropTotal(turns: map<TurnId, Items>, turn: TurnId)
    requires turn in turns
    ensures Totals.Total(RetainedMap(turns)) == Retained(turns[turn]) + Totals.Total(RetainedMap(turns - {turn}))
  {
    Totals.Remove(RetainedMap(turns), turn);
    assert RetainedMap(turns - {turn}) == RetainedMap(turns) - {turn};
  }

  lemma DropSize(turns: map<TurnId, Items>, turn: TurnId)
    requires turn in turns
    ensures |turns - {turn}| == |turns| - 1
  {
    assert turns.Keys == (turns - {turn}).Keys + {turn};
  }
}
