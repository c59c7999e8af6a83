/**
 What a thread's projection publishes, it publishes once: duplicates and late
 repeats on the wire do not reach subscribers twice.
 */
module PublishOnce {
  import opened Wrappers
  import opened ClientEvents
  import Completed = CompletedItems
  import Ledger
  import opened P = Projection

  /** A projection with every terminal event it published, oldest first. */
  datatype Record = Record(past: Past, events: seq<Lifecycle>)

  function Published(effect: Effect): seq<Lifecycle> { if effect.Terminal? then [effect.e] else [] }

  function Next(r: Record, thread: ThreadId, n: Notice): Record {
    Record(P.Deliver(r.past, thread, n),
           r.events + if r.past.p.invalidated.Some? then [] else Published(P.Apply(r.past.p, thread, n).1))
  }

  function Records(thread: ThreadId, ns: seq<Notice>): Record {
    if ns == [] then Record(Past(P.EMPTY, []), []) else Next(Records(thread, ns[..|ns| - 1]), thread, ns[|ns| - 1])
  }

  predicate Ends(e: Lifecycle, turn: TurnId) { e.TurnCompleted? && e.outcome.turn.id == turn }

  predicate Completes(e: Lifecycle, turn: TurnId, id: string) {
    e.ItemCompleted? && e.turn == turn && e.item.id == Some(id)
  }

  predicate Starts(e: Lifecycle, turn: TurnId) { e.TurnStarted? && e.started.id == turn }

  /** How often the item was published since its turn last ended. */
  function Completions(es: seq<Lifecycle>, turn: TurnId, id: string): nat {
    if es == [] || Ends(es[|es| - 1], turn) then 0
    else Completions(es[..|es| - 1], turn, id) + if Completes(es[|es| - 1], turn, id) then 1 else 0
  }

  /** How often the turn's start was published since it last ended. */
  function Beginnings(es: seq<Lifecycle>, turn: TurnId): nat {
    if es == [] || Ends(es[|es| - 1], turn) then 0
    else Beginnings(es[..|es| - 1], turn) + if Starts(es[|es| - 1], turn) then 1 else 0
  }

  predicate Holds(p: Projection, turn: TurnId, id: string) {
    turn in p.completed.turns && id in p.completed.turns[turn].byId
  }

  /** The tables know exactly what was published, until an invalidation clears
      them; after it nothing more is published. */
  predicate Tracked(r: Record, turn: TurnId, id: string) {
    && Completions(r.events, turn, id) <= 1 && Beginnings(r.events, turn) <= 1
    && (r.past.p.invalidated.None? ==>
          && Completions(r.events, turn, id) == (if Holds(r.past.p, turn, id) then 1 else 0)
          && Beginnings(r.events, turn) == (if turn in r.past.p.started then 1 else 0))
  }

  lemma Snoc(es: seq<Lifecycle>, e: Lifecycle, turn: TurnId, id: string)
    ensures Completions(es + [e], turn, id) ==
            if Ends(e, turn) then 0 else Completions(es, turn, id) + if Completes(e, turn, id) then 1 else 0
    ensures Beginnings(es + [e], turn) ==
            if Ends(e, turn) then 0 else Beginnings(es, turn) + if Starts(e, turn) then 1 else 0
  {
    assert (es + [e])[..|es|] == es;
  }

  /** What one step publishes, against what the tables hold before and after. */
  lemma TurnStep(p: Projection, thread: ThreadId, done: Turn, turn: TurnId, id: string)
    ensures var (q, effect) := P.TurnDoneStep(p, thread, done);
            !effect.Drift? ==>
              var over := effect.Terminal? && done.id == turn;
              && (effect.Terminal? ==> effect.e.TurnCompleted? && effect.e.outcome.turn.id == done.id)
              && !effect.Lossy?
              && (Holds(q, turn, id) <==> !over && Holds(p, turn, id))
              && (turn in q.started <==> !over && turn in p.started)
              && q.invalidated == p.invalidated
  {
  }

  lemma PutHolds(c: Completed.Items, item: Item, id: string)
    ensures var (d, upsert) := Completed.Put(c, item);
            && (id in d.byId <==> id in c.byId || item.id == Some(id))
            && (item.id == Some(id) ==> (upsert == Completed.New <==> id !in c.byId))
  {
  }

  lemma ItemStep(p: Projection, t: TurnId, item: Item, turn: TurnId, id: string)
    ensures var (q, effect) := P.ItemDoneStep(p, t, item);
            !effect.Drift? ==>
              && !effect.Lossy?
              && (effect.Terminal? ==> effect.e == Event.ItemCompleted(t, item))
              && (Holds(q, turn, id) <==>
                    Holds(p, turn, id) || (effect.Terminal? && t == turn && item.id == Some(id)))
              && (effect.Terminal? && t == turn && item.id == Some(id) ==> !Holds(p, turn, id))
              && q.started == p.started && q.invalidated == p.invalidated
  {
    PutHolds(Completed.ItemsOf(p.completed, t), item, id);
  }

  lemma OtherStep(p: Projection, thread: ThreadId, n: Notice, turn: TurnId)
    requires !n.TurnDone? && !n.ItemDone? && p.invalidated.None?
    ensures var (q, effect) := P.Apply(p, thread, n);
            !effect.Drift? ==>
              && q.completed == p.completed && q.invalidated == p.invalidated
              && (effect.Terminal? ==> !effect.e.TurnCompleted? && !effect.e.ItemCompleted?)
              && (turn in q.started <==> turn in p.started || (effect.Terminal? && Starts(effect.e, turn)))
              && (effect.Terminal? && Starts(effect.e, turn) ==> turn !in p.started)
  {
  }

  lemma NextTracked(r: Record, thread: ThreadId, n: Notice, turn: TurnId, id: string)
    requires Tracked(r, turn, id)
    ensures Tracked(Next(r, thread, n), turn, id)
  {
    var p := r.past.p;
    if p.invalidated.None? {
      var effect := P.Apply(p, thread, n).1;
      match n {
        case TurnDone(done) => TurnStep(p, thread, done, turn, id);
        case ItemDone(t, item) => ItemStep(p, t, item, turn, id);
        case _ => OtherStep(p, thread, n, turn);
      }
      if effect.Terminal? { Snoc(r.events, effect.e, turn, id); } else { assert r.events + [] == r.events; }
    } else {
      assert r.events + [] == r.events;
    }
  }

  /** Over any notifications: since a turn last ended, its start is published at
      most once, and so is the completion of each of its items. */
  lemma {:induction false} PublishedAtMostOnce(thread: ThreadId, ns: seq<Notice>, turn: TurnId, id: string)
    ensures var es := Records(thread, ns).events; Completions(es, turn, id) <= 1 && Beginnings(es, turn) <= 1
    ensures Tracked(Records(thread, ns), turn, id)
  {
    if ns != [] {
      PublishedAtMostOnce(thread, ns[..|ns| - 1], turn, id);
      NextTracked(Records(thread, ns[..|ns| - 1]), thread, ns[|ns| - 1], turn, id);
    }
  }

  /** A turn completes again only after its outcome was evicted. */
  lemma OutcomesAreFresh(thread: ThreadId, ns: seq<Notice>, n: Notice, i: nat)
    requires var s := P.Run(thread, ns);
             s.p.invalidated.None? && P.Outcomes(P.Apply(s.p, thread, n).1) != [] && i < |Ledger.LongestFit(s.done)|
    ensures var s := P.Run(thread, ns);
            P.Outcomes(P.Apply(s.p, thread, n).1)[0].turn.id != Ledger.LongestFit(s.done)[i].turn.id
  {
    var s := P.Run(thread, ns);
    P.RunIsConsistent(thread, ns);
    var kept := Ledger.LongestFit(s.done);
    Ledger.MapKeys(kept, kept[i].turn.id);
    if !n.TurnDone? { P.OtherEffects(s.p, thread, n); }
  }
}
