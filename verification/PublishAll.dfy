/**
 What a thread's projection must publish, it publishes: each notification's
 answer is fixed by what was published before, by the usage last reported and
 by the room left in the tables. The tables themselves play no other part.
 */
module PublishAll {
  import opened Wrappers
  import opened ClientEvents
  import Completed = CompletedItems
  import Ledger
  import Sets
  import opened P = Projection
  import opened PublishOnce

  // ------------------------------------------- what a published log says

  /** The turns that were started and have not ended. */
  function OpenTurns(es: seq<Lifecycle>): set<TurnId> {
    if es == [] then {}
    else
      var open, e := OpenTurns(es[..|es| - 1]), es[|es| - 1];
      if e.TurnStarted? then open + {e.started.id}
      else if e.TurnCompleted? then open - {e.outcome.turn.id}
      else open
  }

  /** The items completed in the turn since it last ended. */
  function ItemsSince(es: seq<Lifecycle>, turn: TurnId): seq<Item> {
    if es == [] || Ends(es[|es| - 1], turn) then []
    else
      var e := es[|es| - 1];
      ItemsSince(es[..|es| - 1], turn) + if e.ItemCompleted? && e.turn == turn then [e.item] else []
  }

  function OutcomesOf(es: seq<Lifecycle>): seq<Outcome> {
    if es == [] then []
    else
      var e := es[|es| - 1];
      OutcomesOf(es[..|es| - 1]) + if e.TurnCompleted? then [e.outcome] else []
  }

  /** The outcomes still kept: the longest suffix that fits. */
  function Kept(es: seq<Lifecycle>): seq<Outcome> { Ledger.LongestFit(OutcomesOf(es)) }

  predicate KeptTurn(es: seq<Lifecycle>, id: TurnId) {
    exists i :: 0 <= i < |Kept(es)| && Kept(es)[i].turn.id == id
  }

  /** The outcome kept for the turn has another fingerprint. */
  predicate Contradicted(es: seq<Lifecycle>, turn: Turn) {
    exists i :: 0 <= i < |Kept(es)| && Kept(es)[i].turn.id == turn.id &&
                Kept(es)[i].turn.fingerprint != turn.fingerprint
  }

  predicate Announced(es: seq<Lifecycle>) { exists i :: 0 <= i < |es| && es[i].ThreadStarted? }

  /** An item with the same identity is in the list: the same id, or no id and
      the same fingerprint. */
  predicate Known(items: seq<Item>, item: Item) {
    exists i :: 0 <= i < |items| && SameItem(items[i], item)
  }

  /** The last item with that id has another fingerprint. */
  predicate Disputed(items: seq<Item>, item: Item) {
    if items == [] || item.id.None? then false
    else
      var last := items[|items| - 1];
      if last.id == item.id then last.fingerprint != item.fingerprint else Disputed(items[..|items| - 1], item)
  }

  // ---------------------------------------------------- what is to be said

  datatype Verdict = Says(e: Lifecycle) | Silent | Breaks

  predicate TooLong(id: string) { |id| > ROUTING_ID_BYTE_LIMIT }

  /** The table of completed items can take the report. */
  predicate ItemRoom(p: Projection, turn: TurnId, item: Item, first: bool) {
    && (turn in p.completed.turns || |p.completed.turns| < THREAD_TERMINAL_CAPACITY)
    && (first ==>
          && Completed.Len(Completed.ItemsOf(p.completed, turn)) < THREAD_EVENT_CAPACITY
          && p.completed.bytes + (if item.id.Some? then |item.id.value| else 8) <= THREAD_PROJECTION_BYTE_BUDGET)
  }

  /** The answer to a notification, from the log so far. The tables `p` are
      asked for room only, and for the usage last reported. */
  function Due(thread: ThreadId, es: seq<Lifecycle>, p: Projection, n: Notice): Verdict {
    match n
    case ThreadUp => if Announced(es) then Silent else Says(Event.ThreadStarted(thread))
    case TurnUp(turn) =>
      if TooLong(turn.id) || (|OpenTurns(es)| >= THREAD_TERMINAL_CAPACITY && turn.id !in OpenTurns(es)) then Breaks
      else if KeptTurn(es, turn.id) || turn.id in OpenTurns(es) then Silent
      else Says(Event.TurnStarted(turn))
    case ItemDone(turn, item) =>
      var items := ItemsSince(es, turn);
      if KeptTurn(es, turn) then Silent
      else if TooLong(turn) || !ItemRoom(p, turn, item, !Known(items, item)) || Disputed(items, item) then Breaks
      else if Known(items, item) then Silent
      else Says(Event.ItemCompleted(turn, item))
    case Problem(turn, weight, retry) => if TooLong(turn) then Breaks else Says(Event.Failure(turn, weight, retry))
    case TurnDone(turn) =>
      var o := Outcome(thread, turn, Reported(p, turn.id));
      if TooLong(turn.id) || Contradicted(es, turn) then Breaks
      else if KeptTurn(es, turn.id) then Silent
      else if OutcomeWeight(o) > THREAD_PROJECTION_BYTE_BUDGET then Breaks
      else Says(Event.TurnCompleted(o))
    case UsageNow(turn, _) =>
      if TooLong(turn) || (!KeptTurn(es, turn) && turn !in p.usage && |p.usage| >= THREAD_TERMINAL_CAPACITY)
      then Breaks else Silent
    case ItemUp(turn, item) =>
      if item.id.Some? &&
         (|| TooLong(item.id.value) || TooLong(turn)
          || (|p.startedItems| >= THREAD_EVENT_CAPACITY && (turn, item.id.value) !in p.startedItems))
      then Breaks else Silent
  }

  function Reported(p: Projection, id: TurnId): Option<nat> { if id in p.usage then Some(p.usage[id]) else None }

  function Said(v: Verdict): seq<Lifecycle> { if v.Says? then [v.e] else [] }

  // ------------------------------------------------- the tables mirror it

  function Digest(items: seq<Item>): Completed.Items {
    if items == [] then Completed.NO_ITEMS
    else Completed.Put(Digest(items[..|items| - 1]), items[|items| - 1]).0
  }

  /** The tables of a projection that is not invalidated hold what the log says. */
  ghost predicate Mirrors(p: Projection, es: seq<Lifecycle>) {
    p.invalidated.None? ==>
      && Consistent(p, Kept(es))
      && (p.threadStarted <==> Announced(es)) && p.started == OpenTurns(es)
      && (forall turn :: Completed.ItemsOf(p.completed, turn) == Digest(ItemsSince(es, turn)))
  }

  lemma {:induction false} MapValue(os: seq<Outcome>, i: nat)
    requires Ledger.Distinct(os) && i < |os|
    ensures os[i].turn.id in Ledger.OutcomeMap(os) && Ledger.OutcomeMap(os)[os[i].turn.id] == os[i]
  {
    var n := |os| - 1;
    if i < n { MapValue(os[..n], i); }
  }

  lemma KeptId(p: Projection, es: seq<Lifecycle>, id: TurnId)
    requires OutcomesOk(p, Kept(es))
    ensures id in p.ledger.outcomes <==> KeptTurn(es, id)
  {
    Ledger.MapKeys(Kept(es), id);
  }

  lemma KeptMeans(p: Projection, es: seq<Lifecycle>, turn: Turn)
    requires OutcomesOk(p, Kept(es))
    ensures turn.id in p.ledger.outcomes <==> KeptTurn(es, turn.id)
    ensures turn.id in p.ledger.fingerprints <==> KeptTurn(es, turn.id)
    ensures KeptTurn(es, turn.id) ==>
              (p.ledger.fingerprints[turn.id] != turn.fingerprint <==> Contradicted(es, turn))
  {
    Ledger.MapKeys(Kept(es), turn.id);
    forall i | 0 <= i < |Kept(es)| && Kept(es)[i].turn.id == turn.id
      ensures turn.id in p.ledger.outcomes && p.ledger.outcomes[turn.id] == Kept(es)[i]
    {
      MapValue(Kept(es), i);
    }
  }

  /** Two reports are of one item. */
  predicate SameItem(a: Item, b: Item) { a.id == b.id && (b.id.None? ==> a.fingerprint == b.fingerprint) }

  lemma KnownSnoc(items: seq<Item>, last: Item, item: Item)
    ensures Known(items + [last], item) <==> Known(items, item) || SameItem(last, item)
  {
    var all := items + [last];
    if i :| 0 <= i < |items| && SameItem(items[i], item) { assert SameItem(all[i], item); }
    if SameItem(last, item) { assert SameItem(all[|items|], item); }
  }

  lemma {:induction false} DigestMeans(items: seq<Item>, item: Item)
    ensures var u := Completed.Put(Digest(items), item).1;
            && (u == Completed.New <==> !Known(items, item))
            && (u == Completed.Conflict <==> Disputed(items, item))
            && (Disputed(items, item) ==> Known(items, item))
  {
    if items != [] {
      var n := |items| - 1;
      DigestMeans(items[..n], item);
      assert items == items[..n] + [items[n]];
      KnownSnoc(items[..n], items[n], item);
    }
  }

  lemma SnocLog(es: seq<Lifecycle>, e: Lifecycle, turn: TurnId)
    ensures OpenTurns(es + [e]) ==
            (if e.TurnStarted? then OpenTurns(es) + {e.started.id}
             else if e.TurnCompleted? then OpenTurns(es) - {e.outcome.turn.id} else OpenTurns(es))
    ensures ItemsSince(es + [e], turn) ==
            (if Ends(e, turn) then []
             else ItemsSince(es, turn) + if e.ItemCompleted? && e.turn == turn then [e.item] else [])
    ensures OutcomesOf(es + [e]) == OutcomesOf(es) + if e.TurnCompleted? then [e.outcome] else []
    ensures Announced(es + [e]) <==> Announced(es) || e.ThreadStarted?
  {
    assert (es + [e])[..|es|] == es;
    if Announced(es) {
      var i :| 0 <= i < |es| && es[i].ThreadStarted?;
      assert (es + [e])[i].ThreadStarted?;
    }
    if e.ThreadStarted? { assert (es + [e])[|es|].ThreadStarted?; }
  }

  // ------------------------------------------------ the answer is the due one

  predicate Answers(effect: Effect, v: Verdict) {
    && (effect.Drift? <==> v.Breaks?)
    && (effect.Terminal? <==> v.Says?) && (effect.Terminal? ==> effect.e == v.e)
  }

  lemma TurnUpAnswers(p: Projection, es: seq<Lifecycle>, thread: ThreadId, turn: Turn)
    requires Mirrors(p, es) && p.invalidated.None?
    ensures Answers(P.Apply(p, thread, TurnUp(turn)).1, Due(thread, es, p, TurnUp(turn)))
  {
    KeptMeans(p, es, turn);
  }

  lemma TurnDoneAnswers(p: Projection, es: seq<Lifecycle>, thread: ThreadId, turn: Turn)
    requires Mirrors(p, es) && p.invalidated.None?
    ensures Answers(P.Apply(p, thread, TurnDone(turn)).1, Due(thread, es, p, TurnDone(turn)))
  {
    KeptMeans(p, es, turn);
  }

  lemma UsageAnswers(p: Projection, es: seq<Lifecycle>, thread: ThreadId, turn: TurnId, usage: nat)
    requires Mirrors(p, es) && p.invalidated.None?
    ensures Answers(P.Apply(p, thread, UsageNow(turn, usage)).1, Due(thread, es, p, UsageNow(turn, usage)))
  {
    KeptId(p, es, turn);
  }

  /** How an upsert changes the sizes. */
  lemma PutSizes(c: Completed.Items, item: Item)
    ensures var (d, u) := Completed.Put(c, item);
            && Completed.Len(d) == Completed.Len(c) + (if u == Completed.New then 1 else 0)
            && Completed.Retained(d) == Completed.Retained(c) +
                 if u == Completed.New then (if item.id.Some? then |item.id.value| else 8) else 0
  {
    match item.id
    case Some(id) => Sets.MapGrown(c.byId, id, item.fingerprint);
    case None => Sets.Grown(c.anonymous, item.fingerprint);
  }

  lemma RecordRoom(p: Projection, turn: TurnId, item: Item)
    requires OpenOk(p)
    ensures var table := Completed.Record(p.completed, turn, item);
            var first := Completed.Put(Completed.ItemsOf(p.completed, turn), item).1 == Completed.New;
            && (turn in p.completed.turns || |p.completed.turns| < THREAD_TERMINAL_CAPACITY ==>
                  (ItemRoom(p, turn, item, first) <==>
                     && Completed.Len(table.turns[turn]) <= THREAD_EVENT_CAPACITY
                     && table.bytes <= THREAD_PROJECTION_BYTE_BUDGET))
  {
    PutSizes(Completed.ItemsOf(p.completed, turn), item);
    Completed.ItemsExact(p.completed, turn);
  }

  /** What the tables do with a completed item. */
  lemma ItemEffect(p: Projection, thread: ThreadId, turn: TurnId, item: Item)
    requires OpenOk(p) && p.invalidated.None? && turn !in p.ledger.outcomes
    ensures var (q, effect) := P.Apply(p, thread, ItemDone(turn, item));
            var u := Completed.Put(Completed.ItemsOf(p.completed, turn), item).1;
            && (effect.Drift? <==>
                  TooLong(turn) || !ItemRoom(p, turn, item, u == Completed.New) || u == Completed.Conflict)
            && (!effect.Drift? ==> q == p.(completed := Completed.Record(p.completed, turn, item)) && OpenOk(q))
            && (!effect.Drift? ==>
                  effect == if u == Completed.New then Terminal(Event.ItemCompleted(turn, item)) else Quiet)
  {
    RecordRoom(p, turn, item);
    ItemDoneKeeps(p, turn, item);
  }

  lemma ItemDoneAnswers(p: Projection, es: seq<Lifecycle>, thread: ThreadId, turn: TurnId, item: Item)
    requires Mirrors(p, es) && p.invalidated.None?
    ensures Answers(P.Apply(p, thread, ItemDone(turn, item)).1, Due(thread, es, p, ItemDone(turn, item)))
  {
    KeptId(p, es, turn);
    if turn !in p.ledger.outcomes {
      ItemEffect(p, thread, turn, item);
      OpenItemDue(p, es, thread, turn, item);
    }
  }

  lemma OpenItemDue(p: Projection, es: seq<Lifecycle>, thread: ThreadId, turn: TurnId, item: Item)
    requires Mirrors(p, es) && p.invalidated.None? && !KeptTurn(es, turn)
    ensures var u := Completed.Put(Completed.ItemsOf(p.completed, turn), item).1;
            Due(thread, es, p, ItemDone(turn, item)) ==
            if TooLong(turn) || !ItemRoom(p, turn, item, u == Completed.New) || u == Completed.Conflict then Breaks
            else if u == Completed.New then Says(Event.ItemCompleted(turn, item))
            else Silent
  {
    var items := ItemsSince(es, turn);
    assert Completed.ItemsOf(p.completed, turn) == Digest(items);
    DigestMeans(items, item);
  }

  /** The tables answer every notification as the log demands. */
  lemma StepAnswers(p: Projection, es: seq<Lifecycle>, thread: ThreadId, n: Notice)
    requires Mirrors(p, es) && p.invalidated.None?
    ensures Answers(P.Apply(p, thread, n).1, Due(thread, es, p, n))
  {
    match n
    case TurnUp(turn) => TurnUpAnswers(p, es, thread, turn);
    case TurnDone(turn) => TurnDoneAnswers(p, es, thread, turn);
    case ItemDone(turn, item) => ItemDoneAnswers(p, es, thread, turn, item);
    case UsageNow(turn, usage) => UsageAnswers(p, es, thread, turn, usage);
    case _ =>
  }

  /** The passing event a notification is spread as: every usage update, and
      every item start that was not reported before. */
  function PassingDue(p: Projection, n: Notice): Option<Passing> {
    match n
    case UsageNow(turn, usage) => Some(Event.UsageUpdated(turn, usage))
    case ItemUp(turn, item) =>
      if item.id.Some? && (turn, item.id.value) in p.startedItems then None else Some(Event.ItemStarted(turn, item))
    case _ => None
  }

  lemma PassingAnswers(p: Projection, es: seq<Lifecycle>, thread: ThreadId, n: Notice)
    requires Mirrors(p, es) && p.invalidated.None? && !Due(thread, es, p, n).Breaks?
    ensures var effect := P.Apply(p, thread, n).1;
            if effect.Lossy? then PassingDue(p, n) == Some(effect.passing) else PassingDue(p, n).None?
  {
    StepAnswers(p, es, thread, n);
  }

  // ----------------------------------------------------- and stay mirrored

  lemma QuietMirrors(p: Projection, es: seq<Lifecycle>, thread: ThreadId, n: Notice)
    requires Mirrors(p, es) && p.invalidated.None? && !n.TurnDone? && !n.ItemDone?
    ensures var (q, effect) := P.Apply(p, thread, n);
            !effect.Drift? ==> Mirrors(q, es + Published(effect))
  {
    var (q, effect) := P.Apply(p, thread, n);
    if !effect.Drift? {
      SmallStepKeeps(p, thread, n);
      SmallTables(p, thread, n);
      StartsMirror(p, es, thread, n);
      QuietAfter(p, es, q, effect);
    }
  }

  lemma SmallTables(p: Projection, thread: ThreadId, n: Notice)
    requires !n.TurnDone? && !n.ItemDone?
    ensures var (q, effect) := P.Apply(p, thread, n);
            && q.completed == p.completed && q.invalidated == p.invalidated
            && (effect.Terminal? ==> !effect.e.TurnCompleted? && !effect.e.ItemCompleted?)
  {
  }

  lemma QuietAfter(p: Projection, es: seq<Lifecycle>, q: Projection, effect: Effect)
    requires Mirrors(p, es) && p.invalidated.None?
    requires OpenOk(q) && q.ledger == p.ledger && q.completed == p.completed
    requires effect.Terminal? ==> !effect.e.TurnCompleted? && !effect.e.ItemCompleted?
    requires var more := es + Published(effect);
             q.started == OpenTurns(more) && (q.threadStarted <==> Announced(more))
    ensures Mirrors(q, es + Published(effect))
  {
    var more := es + Published(effect);
    if effect.Terminal? {
      SnocLog(es, effect.e, "");
      assert OutcomesOf(es) + [] == OutcomesOf(es);
      forall turn ensures ItemsSince(more, turn) == ItemsSince(es, turn) {
        SnocLog(es, effect.e, turn);
        assert ItemsSince(es, turn) + [] == ItemsSince(es, turn);
      }
    } else {
      assert more == es;
    }
  }

  lemma StartsMirror(p: Projection, es: seq<Lifecycle>, thread: ThreadId, n: Notice)
    requires p.started == OpenTurns(es) && (p.threadStarted <==> Announced(es))
    requires p.invalidated.None? && !n.TurnDone? && !n.ItemDone?
    ensures var (q, effect) := P.Apply(p, thread, n);
            var more := es + Published(effect);
            !effect.Drift? ==> q.started == OpenTurns(more) && (q.threadStarted <==> Announced(more))
  {
    var (q, effect) := P.Apply(p, thread, n);
    StartTables(p, thread, n);
    if effect.Terminal? { SnocLog(es, effect.e, ""); } else { assert es + [] == es; }
  }

  lemma StartTables(p: Projection, thread: ThreadId, n: Notice)
    requires p.invalidated.None? && !n.TurnDone? && !n.ItemDone?
    ensures var (q, effect) := P.Apply(p, thread, n);
            !effect.Drift? ==>
              && q.started == p.started +
                 (if effect.Terminal? && effect.e.TurnStarted? then {effect.e.started.id} else {})
              && (q.threadStarted <==> p.threadStarted || (effect.Terminal? && effect.e.ThreadStarted?))
              && (effect.Terminal? ==> !effect.e.TurnCompleted?)
  {
    if n.TurnUp? && n.turn.id in p.started { assert p.started + {n.turn.id} == p.started; }
  }

  lemma ItemMirrors(p: Projection, es: seq<Lifecycle>, thread: ThreadId, t: TurnId, item: Item)
    requires Mirrors(p, es) && p.invalidated.None?
    ensures var (q, effect) := P.Apply(p, thread, ItemDone(t, item));
            !effect.Drift? ==> Mirrors(q, es + Published(effect))
  {
    if t in p.ledger.outcomes {
      assert es + [] == es;
    } else {
      ItemEffect(p, thread, t, item);
      var (q, effect) := P.Apply(p, thread, ItemDone(t, item));
      if !effect.Drift? { ItemAfter(p, es, t, item, q, effect); }
    }
  }

  lemma ItemAfter(p: Projection, es: seq<Lifecycle>, t: TurnId, item: Item, q: Projection, effect: Effect)
    requires Mirrors(p, es) && p.invalidated.None?
    requires OpenOk(q) && q == p.(completed := Completed.Record(p.completed, t, item))
    requires var u := Completed.Put(Completed.ItemsOf(p.completed, t), item).1;
             u != Completed.Conflict &&
             effect == if u == Completed.New then Terminal(Event.ItemCompleted(t, item)) else Quiet
    ensures Mirrors(q, es + Published(effect))
  {
    ItemRows(p, es, t, item, effect);
  }

  /** The recorded item joins the log of its turn, or was in it. */
  lemma ItemRows(p: Projection, es: seq<Lifecycle>, t: TurnId, item: Item, effect: Effect)
    requires Mirrors(p, es) && p.invalidated.None?
    requires var u := Completed.Put(Completed.ItemsOf(p.completed, t), item).1;
             u != Completed.Conflict &&
             effect == if u == Completed.New then Terminal(Event.ItemCompleted(t, item)) else Quiet
    ensures var more := es + Published(effect);
            && OutcomesOf(more) == OutcomesOf(es) && OpenTurns(more) == OpenTurns(es)
            && (Announced(more) <==> Announced(es))
            && forall turn :: Completed.ItemsOf(Completed.Record(p.completed, t, item), turn) ==
                              Digest(ItemsSince(more, turn))
  {
    var more := es + Published(effect);
    if effect.Terminal? { SnocLog(es, effect.e, ""); } else { assert more == es; }
    forall turn
      ensures Completed.ItemsOf(Completed.Record(p.completed, t, item), turn) == Digest(ItemsSince(more, turn))
    {
      ItemRow(p, es, t, item, effect, turn);
    }
  }

  lemma ItemRow(p: Projection, es: seq<Lifecycle>, t: TurnId, item: Item, effect: Effect, turn: TurnId)
    requires Completed.ItemsOf(p.completed, turn) == Digest(ItemsSince(es, turn))
    requires var u := Completed.Put(Completed.ItemsOf(p.completed, t), item).1;
             u != Completed.Conflict &&
             effect == if u == Completed.New then Terminal(Event.ItemCompleted(t, item)) else Quiet
    ensures Completed.ItemsOf(Completed.Record(p.completed, t, item), turn) ==
            Digest(ItemsSince(es + Published(effect), turn))
  {
    var items := ItemsSince(es, turn);
    if effect.Terminal? {
      SnocLog(es, effect.e, turn);
      if turn == t {
        assert (items + [item])[..|items|] == items;
        assert Digest(items + [item]) == Completed.Put(Digest(items), item).0;
      } else {
        assert items + [] == items;
      }
    } else {
      assert es + [] == es;
      SamePut(Completed.ItemsOf(p.completed, t), item);
    }
  }

  lemma SamePut(c: Completed.Items, item: Item)
    ensures Completed.Put(c, item).1 == Completed.Same ==> Completed.Put(c, item).0 == c
  {
    if item.id.Some? && item.id.value in c.byId && c.byId[item.id.value] == item.fingerprint {
      assert c.byId[item.id.value := item.fingerprint] == c.byId;
    }
    if item.id.None? && item.fingerprint in c.anonymous {
      assert c.anonymous + {item.fingerprint} == c.anonymous;
    }
  }

  /** What a completed turn does to the other tables. */
  lemma TurnTables(p: Projection, thread: ThreadId, turn: Turn)
    ensures var (q, effect) := P.Apply(p, thread, TurnDone(turn));
            effect.Terminal? ==>
              && effect.e.TurnCompleted? && effect.e.outcome.turn == turn
              && q.started == p.started - {turn.id} && q.threadStarted == p.threadStarted
              && q.invalidated == p.invalidated && q.completed == Completed.Drop(p.completed, turn.id)
  {
  }

  lemma TurnMirrors(p: Projection, es: seq<Lifecycle>, thread: ThreadId, turn: Turn)
    requires Mirrors(p, es) && p.invalidated.None?
    ensures var (q, effect) := P.Apply(p, thread, TurnDone(turn));
            !effect.Drift? ==> Mirrors(q, es + Published(effect))
  {
    var (q, effect) := P.Apply(p, thread, TurnDone(turn));
    TurnDoneKeeps(p, Kept(es), thread, turn);
    if effect.Terminal? {
      TurnTables(p, thread, turn);
      Ledger.FitTwice(OutcomesOf(es), effect.e.outcome);
      TurnRows(p, es, effect.e);
    } else {
      assert es + [] == es;
    }
  }

  lemma TurnRows(p: Projection, es: seq<Lifecycle>, e: Lifecycle)
    requires Mirrors(p, es) && p.invalidated.None? && e.TurnCompleted?
    ensures var more, id := es + [e], e.outcome.turn.id;
            && OutcomesOf(more) == OutcomesOf(es) + [e.outcome] && OpenTurns(more) == p.started - {id}
            && (Announced(more) <==> p.threadStarted)
            && forall t :: Completed.ItemsOf(Completed.Drop(p.completed, id), t) == Digest(ItemsSince(more, t))
  {
    SnocLog(es, e, "");
    var more, id := es + [e], e.outcome.turn.id;
    forall t ensures Completed.ItemsOf(Completed.Drop(p.completed, id), t) == Digest(ItemsSince(more, t)) {
      TurnRow(p.completed, es, e, t);
    }
  }

  lemma TurnRow(table: Completed.Table, es: seq<Lifecycle>, e: Lifecycle, t: TurnId)
    requires e.TurnCompleted? && Completed.ItemsOf(table, t) == Digest(ItemsSince(es, t))
    ensures Completed.ItemsOf(Completed.Drop(table, e.outcome.turn.id), t) == Digest(ItemsSince(es + [e], t))
  {
    SnocLog(es, e, t);
    assert ItemsSince(es, t) + [] == ItemsSince(es, t);
  }

  lemma StepMirrors(p: Projection, es: seq<Lifecycle>, thread: ThreadId, n: Notice)
    requires Mirrors(p, es) && p.invalidated.None?
    ensures Mirrors(P.Settle(p, thread, n), es + Published(P.Apply(p, thread, n).1))
  {
    match n
    case TurnDone(turn) => TurnMirrors(p, es, thread, turn);
    case ItemDone(turn, item) => ItemMirrors(p, es, thread, turn, item);
    case _ => QuietMirrors(p, es, thread, n);
  }

  lemma EmptyMirrors()
    ensures Mirrors(P.EMPTY, [])
  {
    EmptyConsistent();
  }

  // --------------------------------------------------------- whole runs

  function Log(thread: ThreadId, ns: seq<Notice>): seq<Lifecycle> { Records(thread, ns).events }

  function Tables(thread: ThreadId, ns: seq<Notice>): Projection { Records(thread, ns).past.p }

  lemma {:induction false} RunMirrors(thread: ThreadId, ns: seq<Notice>)
    ensures Mirrors(Tables(thread, ns), Log(thread, ns))
  {
    if ns == [] {
      EmptyMirrors();
    } else {
      var front, n := ns[..|ns| - 1], ns[|ns| - 1];
      RunMirrors(thread, front);
      if Tables(thread, front).invalidated.None? {
        StepMirrors(Tables(thread, front), Log(thread, front), thread, n);
      } else {
        assert Log(thread, front) + [] == Log(thread, front);
      }
    }
  }

  lemma NextNotice(thread: ThreadId, ns: seq<Notice>, n: Notice)
    requires Tables(thread, ns).invalidated.None?
    ensures Tables(thread, ns + [n]) == P.Settle(Tables(thread, ns), thread, n)
    ensures Log(thread, ns + [n]) == Log(thread, ns) + Published(P.Apply(Tables(thread, ns), thread, n).1)
  {
    assert (ns + [n])[..|ns|] == ns;
  }

  /** After any notifications, the next one is answered as the log demands: the
      event due and no other is published, and the thread is invalidated
      exactly when nothing can be said. */
  lemma NoticesAreAnswered(thread: ThreadId, ns: seq<Notice>, n: Notice)
    requires Tables(thread, ns).invalidated.None?
    ensures var v := Due(thread, Log(thread, ns), Tables(thread, ns), n);
            && Log(thread, ns + [n]) == Log(thread, ns) + Said(v)
            && (Tables(thread, ns + [n]).invalidated.Some? <==> v.Breaks?)
  {
    RunMirrors(thread, ns);
    NextNotice(thread, ns, n);
    StepAnswers(Tables(thread, ns), Log(thread, ns), thread, n);
    StaysValid(Tables(thread, ns), thread, n);
  }

  lemma StaysValid(p: Projection, thread: ThreadId, n: Notice)
    requires p.invalidated.None?
    ensures P.Apply(p, thread, n).0.invalidated.None?
  {
  }

  /** The usage last reported for a turn that has not been completed since. */
  function LastUsage(thread: ThreadId, ns: seq<Notice>, id: TurnId): Option<nat> {
    if ns == [] then None
    else
      var front, n := ns[..|ns| - 1], ns[|ns| - 1];
      if n.UsageNow? && n.turnId == id && !KeptTurn(Log(thread, front), id) then Some(n.usage)
      else if n.TurnDone? && n.turn.id == id && |Log(thread, ns)| > |Log(thread, front)| then None
      else LastUsage(thread, front, id)
  }

  lemma UsageStepMeans(p: Projection, es: seq<Lifecycle>, thread: ThreadId, n: Notice, id: TurnId)
    requires Mirrors(p, es) && p.invalidated.None?
    ensures var (q, effect) := P.Apply(p, thread, n);
            !effect.Drift? ==>
              Reported(q, id) ==
              if n.UsageNow? && n.turnId == id && !KeptTurn(es, id) then Some(n.usage)
              else if n.TurnDone? && n.turn.id == id && effect.Terminal? then None
              else Reported(p, id)
  {
    if n.UsageNow? { KeptId(p, es, n.turnId); }
  }

  lemma {:induction false} UsageIsRemembered(thread: ThreadId, ns: seq<Notice>, id: TurnId)
    requires Tables(thread, ns).invalidated.None?
    ensures Reported(Tables(thread, ns), id) == LastUsage(thread, ns, id)
  {
    if ns != [] {
      var front, n := ns[..|ns| - 1], ns[|ns| - 1];
      assert ns == front + [n];
      UsageIsRemembered(thread, front, id);
      RunMirrors(thread, front);
      NextNotice(thread, front, n);
      UsageStepMeans(Tables(thread, front), Log(thread, front), thread, n, id);
    }
  }

  lemma {:induction false} LastIsKept(os: seq<Outcome>, o: Outcome)
    requires OutcomeWeight(o) <= THREAD_PROJECTION_BYTE_BUDGET
    ensures var fit := Ledger.LongestFit(os + [o]); fit != [] && fit[|fit| - 1] == o
  {
    Ledger.RoomIsFit(os, o);
  }

  /** A turn's completion is never swallowed: unless its outcome is still kept,
      turn/completed publishes exactly one TurnCompleted, with the turn and the
      usage last reported, and its outcome is kept and can be looked up. */
  lemma CompletionIsPublished(thread: ThreadId, ns: seq<Notice>, turn: Turn)
    requires Tables(thread, ns).invalidated.None?
    requires !TooLong(turn.id) && !KeptTurn(Log(thread, ns), turn.id)
    requires OutcomeWeight(Outcome(thread, turn, None)) <= THREAD_PROJECTION_BYTE_BUDGET
    ensures var o := Outcome(thread, turn, LastUsage(thread, ns, turn.id));
            var after := ns + [TurnDone(turn)];
            && Log(thread, after) == Log(thread, ns) + [Event.TurnCompleted(o)]
            && Tables(thread, after).invalidated.None?
            && Kept(Log(thread, after)) != [] && Kept(Log(thread, after))[|Kept(Log(thread, after))| - 1] == o
            && turn.id in Tables(thread, after).ledger.outcomes
            && Tables(thread, after).ledger.outcomes[turn.id] == o
            && turn.id !in OpenTurns(Log(thread, after))
  {
    var after, es := ns + [TurnDone(turn)], Log(thread, ns);
    CompletionIsSaid(thread, ns, turn);
    RunMirrors(thread, after);
    CompletionIsKept(Tables(thread, after), es, Outcome(thread, turn, LastUsage(thread, ns, turn.id)));
  }

  lemma CompletionIsSaid(thread: ThreadId, ns: seq<Notice>, turn: Turn)
    requires Tables(thread, ns).invalidated.None?
    requires !TooLong(turn.id) && !KeptTurn(Log(thread, ns), turn.id)
    requires OutcomeWeight(Outcome(thread, turn, None)) <= THREAD_PROJECTION_BYTE_BUDGET
    ensures var o := Outcome(thread, turn, LastUsage(thread, ns, turn.id));
            && Log(thread, ns + [TurnDone(turn)]) == Log(thread, ns) + [Event.TurnCompleted(o)]
            && Tables(thread, ns + [TurnDone(turn)]).invalidated.None?
  {
    UsageIsRemembered(thread, ns, turn.id);
    NoticesAreAnswered(thread, ns, TurnDone(turn));
  }

  lemma CompletionIsKept(q: Projection, es: seq<Lifecycle>, o: Outcome)
    requires OutcomeWeight(o) <= THREAD_PROJECTION_BYTE_BUDGET && q.invalidated.None?
    requires Mirrors(q, es + [Event.TurnCompleted(o)])
    ensures var kept := Kept(es + [Event.TurnCompleted(o)]);
            && kept != [] && kept[|kept| - 1] == o
            && o.turn.id in q.ledger.outcomes && q.ledger.outcomes[o.turn.id] == o
            && o.turn.id !in OpenTurns(es + [Event.TurnCompleted(o)])
  {
    SnocLog(es, Event.TurnCompleted(o), "");
    LastIsKept(OutcomesOf(es), o);
    var kept := Kept(es + [Event.TurnCompleted(o)]);
    MapValue(kept, |kept| - 1);
  }
}
