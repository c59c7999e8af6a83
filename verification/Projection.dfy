/**
 The per-thread projection the router keeps (src/codex/client.rs,
 `ThreadProjection` and the `route_*` functions): started and active turns,
 started items, completed-item digests, usage, and the retained outcomes.
 */
module Projection {
  import opened Wrappers
  import opened ClientEvents
  import Completed = CompletedItems
  import Ledger
  import Sets

  datatype Projection = Projection(
    threadStarted: bool,
    invalidated: Option<Reason>,
    started: set<TurnId>,
    active: set<TurnId>,
    startedItems: set<(TurnId, string)>,
    completed: Completed.Table,
    usage: map<TurnId, nat>,
    ledger: Ledger.Ledger)

  const EMPTY: Projection := Projection(false, None, {}, {}, {}, Completed.EMPTY, map[], Ledger.EMPTY)

  /** A decoded notification about one thread. */
  datatype Notice =
    | ThreadUp
    | TurnUp(turn: Turn)
    | ItemUp(turnId: TurnId, item: Item)
    | ItemDone(turnId: TurnId, item: Item)
    | UsageNow(turnId: TurnId, usage: nat)
    | TurnDone(turn: Turn)
    | Problem(turnId: TurnId, weight: nat, retry: bool)

  /** What the route must do next: send an event down a lane, or invalidate. */
  datatype Effect = Quiet | Terminal(e: Lifecycle) | Lossy(passing: Passing) | Drift

  function ThreadUpStep(p: Projection, thread: ThreadId): (Projection, Effect) {
    if p.invalidated.Some? || p.threadStarted then (p, Quiet)
    else (p.(threadStarted := true), Terminal(Event.ThreadStarted(thread)))
  }

  function TurnUpStep(p: Projection, turn: Turn): (Projection, Effect) {
    if |turn.id| > ROUTING_ID_BYTE_LIMIT ||
       (|p.started| >= THREAD_TERMINAL_CAPACITY && turn.id !in p.started)
    then (p, Drift)
    else if p.invalidated.Some? || turn.id in p.ledger.outcomes then (p, Quiet)
    else (p.(started := p.started + {turn.id}, active := p.active + {turn.id}),
          if turn.id in p.started then Quiet else Terminal(Event.TurnStarted(turn)))
  }

  function ItemUpStep(p: Projection, turnId: TurnId, item: Item): (Projection, Effect) {
    match item.id
    case Some(id) =>
      var key := (turnId, id);
      if |id| > ROUTING_ID_BYTE_LIMIT || |turnId| > ROUTING_ID_BYTE_LIMIT ||
         (|p.startedItems| >= THREAD_EVENT_CAPACITY && key !in p.startedItems)
      then (p, Drift)
      else (p.(startedItems := p.startedItems + {key}),
            if key in p.startedItems then Quiet else Lossy(Event.ItemStarted(turnId, item)))
    case None => (p, Lossy(Event.ItemStarted(turnId, item)))
  }

  function ItemDoneStep(p: Projection, turnId: TurnId, item: Item): (Projection, Effect) {
    if turnId in p.ledger.outcomes then (p, Quiet)
    else if turnId !in p.completed.turns && |p.completed.turns| >= THREAD_TERMINAL_CAPACITY then (p, Drift)
    else
      var table := Completed.Record(p.completed, turnId, item);
      var upsert := Completed.Put(Completed.ItemsOf(p.completed, turnId), item).1;
      (p.(completed := table),
       if upsert == Completed.Conflict || |turnId| > ROUTING_ID_BYTE_LIMIT ||
          Completed.Len(table.turns[turnId]) > THREAD_EVENT_CAPACITY ||
          table.bytes > THREAD_PROJECTION_BYTE_BUDGET
       then Drift
       else if upsert == Completed.New then Terminal(Event.ItemCompleted(turnId, item))
       else Quiet)
  }

  function UsageStep(p: Projection, turnId: TurnId, usage: nat): (Projection, Effect) {
    if |turnId| > ROUTING_ID_BYTE_LIMIT then (p, Drift)
    else if turnId in p.ledger.outcomes then (p, Lossy(Event.UsageUpdated(turnId, usage)))
    else if turnId !in p.usage && |p.usage| >= THREAD_TERMINAL_CAPACITY then (p, Drift)
    else (p.(usage := p.usage[turnId := usage]), Lossy(Event.UsageUpdated(turnId, usage)))
  }

  /** Drop everything kept about a turn that is now over. */
  function Forget(p: Projection, turnId: TurnId): Projection {
    p.(usage := p.usage - {turnId}, completed := Completed.Drop(p.completed, turnId),
       started := p.started - {turnId}, active := p.active - {turnId},
       startedItems := Outside(p.startedItems, turnId))
  }

  function Outside(items: set<(TurnId, string)>, turnId: TurnId): set<(TurnId, string)> {
    set k | k in items && k.0 != turnId
  }

  function OutcomeFor(p: Projection, thread: ThreadId, turn: Turn): Outcome {
    Outcome(thread, turn, if turn.id in p.usage then Some(p.usage[turn.id]) else None)
  }

  function TurnDoneStep(p: Projection, thread: ThreadId, turn: Turn): (Projection, Effect) {
    if |turn.id| > ROUTING_ID_BYTE_LIMIT then (p, Drift)
    else if turn.id in p.ledger.fingerprints then
      (p, if p.ledger.fingerprints[turn.id] != turn.fingerprint then Drift else Quiet)
    else
      var o := OutcomeFor(p, thread, turn);
      if OutcomeWeight(o) > THREAD_PROJECTION_BYTE_BUDGET then (p.(usage := p.usage - {turn.id}), Drift)
      else (Forget(p, turn.id).(ledger := Ledger.Retain(p.ledger, o)), Terminal(Event.TurnCompleted(o)))
  }

  function ProblemStep(p: Projection, turnId: TurnId, weight: nat, retry: bool): (Projection, Effect) {
    (p, if |turnId| > ROUTING_ID_BYTE_LIMIT then Drift else Terminal(Event.Failure(turnId, weight, retry)))
  }

  /** invalidate_route's effect on the projection: outcomes are kept. */
  function Clear(p: Projection, reason: Reason): Projection {
    p.(invalidated := Some(reason), started := {}, active := {}, startedItems := {},
       completed := Completed.EMPTY, usage := map[])
  }

  function Apply(p: Projection, thread: ThreadId, n: Notice): (Projection, Effect) {
    match n
    case ThreadUp => ThreadUpStep(p, thread)
    case TurnUp(turn) => TurnUpStep(p, turn)
    case ItemUp(turnId, item) => ItemUpStep(p, turnId, item)
    case ItemDone(turnId, item) => ItemDoneStep(p, turnId, item)
    case UsageNow(turnId, usage) => UsageStep(p, turnId, usage)
    case TurnDone(turn) => TurnDoneStep(p, thread, turn)
    case Problem(turnId, weight, retry) => ProblemStep(p, turnId, weight, retry)
  }

  /** Apply, followed by the invalidation a drift causes. */
  function Settle(p: Projection, thread: ThreadId, n: Notice): Projection {
    var (q, effect) := Apply(p, thread, n);
    if effect.Drift? then Clear(q, ProtocolDrift) else q
  }

  // ------------------------------------------------------- consistency

  /** Turns still open, and the tables keyed by them. */
  ghost predicate OpenOk(p: Projection) {
    && p.active == p.started
    && p.started !! p.ledger.outcomes.Keys
    && p.usage.Keys !! p.ledger.outcomes.Keys
    && p.completed.turns.Keys !! p.ledger.outcomes.Keys
    && |p.started| <= THREAD_TERMINAL_CAPACITY
    && |p.startedItems| <= THREAD_EVENT_CAPACITY
    && |p.usage| <= THREAD_TERMINAL_CAPACITY
    && Completed.Bounded(p.completed)
    && (p.invalidated.Some? ==>
          p.started == {} && p.startedItems == {} && p.completed == Completed.EMPTY && p.usage == map[])
  }

  /** The four outcome tables and the byte total list exactly `os`. */
  predicate OutcomesOk(p: Projection, os: seq<Outcome>) {
    p.ledger == Ledger.TablesOf(os) && Ledger.Distinct(os) && Ledger.Fits(os)
  }

  ghost predicate Consistent(p: Projection, os: seq<Outcome>) {
    OpenOk(p) && OutcomesOk(p, os)
  }

  lemma EmptyConsistent()
    ensures Consistent(EMPTY, [])
  {
    Completed.EmptyBounded();
    assert Ledger.TablesOf([]) == Ledger.EMPTY;
  }

  // ------------------------------------------------- completed items

  lemma ItemDoneKeeps(p: Projection, turnId: TurnId, item: Item)
    requires OpenOk(p) && p.invalidated.None?
    ensures var (q, effect) := ItemDoneStep(p, turnId, item);
            q.ledger == p.ledger && (!effect.Drift? ==> OpenOk(q))
  {
    Completed.RecordCounted(p.completed, turnId, item);
    Completed.RecordSize(p.completed, turnId, item);
  }

  // --------------------------------------------------------- outcomes

  lemma ForgetKeeps(p: Projection, turnId: TurnId)
    requires OpenOk(p)
    ensures var q := Forget(p, turnId);
            OpenOk(q) && turnId !in q.started && turnId !in q.completed.turns && turnId !in q.usage
  {
    var q := Forget(p, turnId);
    Completed.DropBounded(p.completed, turnId);
    Sets.Smaller(q.started, p.started);
    Sets.Smaller(q.startedItems, p.startedItems);
    Sets.Smaller(q.usage.Keys, p.usage.Keys);
  }

  /** A completed turn joins the retained outcomes and leaves every other table. */
  lemma TurnDoneKeeps(p: Projection, os: seq<Outcome>, thread: ThreadId, turn: Turn)
    requires Consistent(p, os) && p.invalidated.None?
    ensures var (q, effect) := Apply(p, thread, TurnDone(turn));
            if effect.Terminal?
            then effect.e.TurnCompleted? && Consistent(q, Ledger.LongestFit(os + [effect.e.outcome]))
            else q.ledger == p.ledger && !effect.Lossy? && (effect.Quiet? ==> q == p)
  {
    var (q, effect) := TurnDoneStep(p, thread, turn);
    if effect.Terminal? {
      var o := OutcomeFor(p, thread, turn);
      ForgetKeeps(p, turn.id);
      Ledger.RetainIsLongestFit(os, o);
      Ledger.FitDistinct(os, o);
      Ledger.LongestFitIsLongest(os + [o], 0);
      FitKeys(os, o);
    }
  }

  /** Only the new turn can become a key of the outcome tables. */
  lemma FitKeys(os: seq<Outcome>, o: Outcome)
    ensures Ledger.OutcomeMap(Ledger.LongestFit(os + [o])).Keys <= Ledger.OutcomeMap(os).Keys + {o.turn.id}
  {
    var fit := Ledger.LongestFit(os + [o]);
    Ledger.LongestFitIsLongest(os + [o], 0);
    forall t | t in Ledger.OutcomeMap(fit) ensures t in Ledger.OutcomeMap(os) || t == o.turn.id {
      Ledger.MapKeys(fit, t);
      var i :| 0 <= i < |fit| && fit[i].turn.id == t;
      var j := |os| + 1 - |fit| + i;
      assert fit[i] == (os + [o])[j];
      Ledger.MapKeys(os, t);
    }
  }

  lemma ClearKeeps(p: Projection, os: seq<Outcome>, reason: Reason)
    requires OutcomesOk(p, os)
    ensures Consistent(Clear(p, reason), os)
  {
    Completed.EmptyBounded();
  }

  lemma SmallStepKeeps(p: Projection, thread: ThreadId, n: Notice)
    requires OpenOk(p) && p.invalidated.None?
    requires !n.TurnDone? && !n.ItemDone?
    ensures var q := Apply(p, thread, n).0; OpenOk(q) && q.ledger == p.ledger
  {
    match n
    case TurnUp(turn) => TurnUpKeeps(p, turn);
    case ItemUp(turnId, item) => ItemUpKeeps(p, turnId, item);
    case UsageNow(turnId, usage) => Sets.MapGrown(p.usage, turnId, usage);
    case _ =>
  }

  lemma TurnUpKeeps(p: Projection, turn: Turn)
    requires OpenOk(p) && p.invalidated.None?
    ensures OpenOk(TurnUpStep(p, turn).0)
  {
    Sets.Grown(p.started, turn.id);
  }

  lemma ItemUpKeeps(p: Projection, turnId: TurnId, item: Item)
    requires OpenOk(p) && p.invalidated.None?
    ensures OpenOk(ItemUpStep(p, turnId, item).0)
  {
    if item.id.Some? { Sets.Grown(p.startedItems, (turnId, item.id.value)); }
  }

  /** The outcomes retained after a step that found `os` retained. */
  function KeptAfter(p: Projection, os: seq<Outcome>, thread: ThreadId, n: Notice): seq<Outcome> {
    var effect := Apply(p, thread, n).1;
    if effect.Terminal? && effect.e.TurnCompleted? then Ledger.LongestFit(os + [effect.e.outcome]) else os
  }

  /** Every step of the projection keeps it consistent. */
  lemma SettleKeeps(p: Projection, os: seq<Outcome>, thread: ThreadId, n: Notice)
    requires Consistent(p, os) && p.invalidated.None?
    ensures Consistent(Settle(p, thread, n), KeptAfter(p, os, thread, n))
  {
    if n.TurnDone? {
      SettleTurn(p, os, thread, n.turn);
    } else {
      OtherEffects(p, thread, n);
      if n.ItemDone? { ItemDoneKeeps(p, n.turnId, n.item); } else { SmallStepKeeps(p, thread, n); }
      var (q, effect) := Apply(p, thread, n);
      if effect.Drift? { ClearKeeps(q, os, ProtocolDrift); }
    }
  }

  lemma SettleTurn(p: Projection, os: seq<Outcome>, thread: ThreadId, turn: Turn)
    requires Consistent(p, os) && p.invalidated.None?
    ensures Consistent(Settle(p, thread, TurnDone(turn)), KeptAfter(p, os, thread, TurnDone(turn)))
  {
    TurnDoneKeeps(p, os, thread, turn);
    var (q, effect) := Apply(p, thread, TurnDone(turn));
    if effect.Drift? {
      ClearKeeps(q, os, ProtocolDrift);
    }
  }

  /** Only a completed turn publishes an outcome. */
  lemma OtherEffects(p: Projection, thread: ThreadId, n: Notice)
    requires !n.TurnDone?
    ensures var effect := Apply(p, thread, n).1; effect.Terminal? ==> !effect.e.TurnCompleted?
  {
  }

  // ------------------------------------------------------------- runs

  /** A projection with every outcome it ever published, oldest first. */
  datatype Past = Past(p: Projection, done: seq<Outcome>)

  function Outcomes(effect: Effect): seq<Outcome> {
    if effect.Terminal? && effect.e.TurnCompleted? then [effect.e.outcome] else []
  }

  /** One delivery; an invalidated projection accepts nothing more. */
  function Deliver(s: Past, thread: ThreadId, n: Notice): Past {
    if s.p.invalidated.Some? then s
    else Past(Settle(s.p, thread, n), s.done + Outcomes(Apply(s.p, thread, n).1))
  }

  function Run(thread: ThreadId, ns: seq<Notice>): Past {
    if ns == [] then Past(EMPTY, []) else Deliver(Run(thread, ns[..|ns| - 1]), thread, ns[|ns| - 1])
  }

  /** After any notifications the projection is consistent, and the retained
      outcomes are the longest suffix of the completion history that fits. */
  lemma {:induction false} RunIsConsistent(thread: ThreadId, ns: seq<Notice>)
    ensures var s := Run(thread, ns); Consistent(s.p, Ledger.LongestFit(s.done))
  {
    if ns == [] {
      EmptyConsistent();
    } else {
      var s := Run(thread, ns[..|ns| - 1]);
      var n := ns[|ns| - 1];
      RunIsConsistent(thread, ns[..|ns| - 1]);
      if s.p.invalidated.None? {
        SettleKeeps(s.p, Ledger.LongestFit(s.done), thread, n);
        var added := Outcomes(Apply(s.p, thread, n).1);
        if added != [] {
          Ledger.FitTwice(s.done, added[0]);
        } else {
          assert s.done + added == s.done;
        }
      }
    }
  }
}
