/**
 Every projection the router holds is consistent, over every run, and retains
 outcomes its thread's log has published.
 */
module RouterProjections {
  import opened Wrappers
  import opened ClientEvents
  import NameOrder
  import P = Projection
  import opened Router
  import Ledger
  import All = PublishAll
  import Once = PublishOnce
  import RouterLimits
  import RouterSafety

  /** The projection is consistent, the outcomes it retains are the longest
      suffix that fits of those published since the k-th entry of the log, and
      its tables hold what the log says since then. */
  ghost predicate Since(p: P.Projection, log: seq<Lifecycle>, k: nat) {
    k <= |log| && P.Consistent(p, All.Kept(log[k..])) && All.Mirrors(p, log[k..])
  }

  ghost predicate ProjectionOk(p: P.Projection, log: seq<Lifecycle>) {
    exists k: nat :: Since(p, log, k)
  }

  ghost predicate ProjectionsOk(w: World) {
    forall t :: t in w.routes ==> ProjectionOk(w.routes[t].p, Log(w, t))
  }

  /** Each route of v is new or has a projection of w; nothing is published. */
  predicate Inherits(w: World, v: World) {
    && v.log == w.log
    && forall t :: t in v.routes ==>
         v.routes[t].p == P.EMPTY || (t in w.routes && v.routes[t].p == w.routes[t].p)
  }

  /** A new route has nothing to remember. */
  lemma EmptyOk(log: seq<Lifecycle>)
    ensures ProjectionOk(P.EMPTY, log)
  {
    P.EmptyConsistent();
    All.EmptyMirrors();
    assert log[|log|..] == [];
    assert Since(P.EMPTY, log, |log|);
  }

  lemma InheritsOk(w: World, v: World)
    requires ProjectionsOk(w) && Inherits(w, v)
    ensures ProjectionsOk(v)
  {
    forall t | t in v.routes ensures ProjectionOk(v.routes[t].p, Log(v, t)) {
      EmptyOk(Log(v, t));
    }
  }

  lemma PruneInherits(w: World)
    ensures Inherits(w, Prune(w))
  {
  }

  lemma FreshInherits(w: World, v: World, t: ThreadId)
    requires Inherits(w, v)
    ensures Inherits(w, SetRoute(v, t, NEW_ROUTE))
  {
  }

  lemma DropInherits(w: World, v: World, g: ThreadId)
    requires Inherits(w, v)
    ensures Inherits(w, v.(routes := v.routes - {g}))
  {
  }

  lemma LookupInherits(w: World, t: ThreadId, hint: ThreadId)
    ensures Inherits(w, RouteForUpdate(w, t, hint).0)
    ensures RouteForUpdate(w, t, hint).1 ==>
              var v := RouteForUpdate(w, t, hint).0; t in v.routes && v.routes[t].p.invalidated.None?
  {
    if ValidId(t) {
      PruneInherits(w);
      var v := Prune(w);
      if t !in v.routes && |v.routes| < CLIENT_PROJECTION_CAPACITY {
        FreshInherits(w, v, t);
      } else if t !in v.routes && IdleRoutes(v) != {} {
        var g := if hint in IdleRoutes(v) then hint else NameOrder.Least(IdleRoutes(v));
        DropInherits(w, v, g);
        FreshInherits(w, v.(routes := v.routes - {g}), t);
      }
    }
  }

  lemma Transitive(u: World, v: World, w: World)
    requires Inherits(u, v) && Inherits(v, w)
    ensures Inherits(u, w)
  {
  }

  lemma SpreadInherits(w: World, t: ThreadId, e: Passing)
    ensures Inherits(w, SpreadIf(w, t, e))
  {
  }

  lemma OutcomesGrow(es: seq<Lifecycle>, effect: P.Effect)
    ensures All.OutcomesOf(es + Once.Published(effect)) == All.OutcomesOf(es) + P.Outcomes(effect)
  {
    if effect.Terminal? {
      All.SnocLog(es, effect.e, "");
    } else {
      assert es + [] == es;
    }
  }

  /** What is kept after a step, in terms of the log after it. */
  lemma KeptNext(p: P.Projection, es: seq<Lifecycle>, t: ThreadId, n: P.Notice)
    ensures P.KeptAfter(p, All.Kept(es), t, n) == All.Kept(es + Once.Published(P.Apply(p, t, n).1))
  {
    var effect := P.Apply(p, t, n).1;
    OutcomesGrow(es, effect);
    if P.Outcomes(effect) != [] {
      Ledger.FitTwice(All.OutcomesOf(es), effect.e.outcome);
    } else {
      assert All.OutcomesOf(es) + [] == All.OutcomesOf(es);
    }
  }

  lemma SettleSince(p: P.Projection, log: seq<Lifecycle>, t: ThreadId, n: P.Notice, k: nat)
    requires Since(p, log, k) && p.invalidated.None?
    ensures Since(P.Settle(p, t, n), log + Once.Published(P.Apply(p, t, n).1), k)
  {
    var published, es := Once.Published(P.Apply(p, t, n).1), log[k..];
    assert (log + published)[k..] == es + published;
    P.SettleKeeps(p, All.Kept(es), t, n);
    KeptNext(p, es, t, n);
    All.StepMirrors(p, es, t, n);
  }

  lemma SettleOk(p: P.Projection, log: seq<Lifecycle>, t: ThreadId, n: P.Notice)
    requires ProjectionOk(p, log) && p.invalidated.None?
    ensures ProjectionOk(P.Settle(p, t, n), log + Once.Published(P.Apply(p, t, n).1))
  {
    var k: nat :| Since(p, log, k);
    SettleSince(p, log, t, n, k);
  }

  lemma ClearOk(p: P.Projection, log: seq<Lifecycle>, reason: Reason)
    requires ProjectionOk(p, log)
    ensures ProjectionOk(P.Clear(p, reason), log)
  {
    var k: nat :| Since(p, log, k);
    P.ClearKeeps(p, All.Kept(log[k..]), reason);
    assert Since(P.Clear(p, reason), log, k);
  }

  lemma UpdateOk(w: World, t: ThreadId, n: P.Notice, hint: ThreadId)
    requires ProjectionsOk(w)
    ensures ProjectionsOk(Update(w, t, n, hint).0)
  {
    LookupInherits(w, t, hint);
    var (v, found) := RouteForUpdate(w, t, hint);
    InheritsOk(w, v);
    if found {
      ActOk(v, t, n);
    }
  }

  lemma ActOk(w: World, t: ThreadId, n: P.Notice)
    requires ProjectionsOk(w) && t in w.routes && w.routes[t].p.invalidated.None?
    ensures ProjectionsOk(ActOn(w, t, n))
  {
    SettleOk(w.routes[t].p, Log(w, t), t, n);
    RouterLimits.ActOnRoute(w, t, n);
    var v := ActOn(w, t, n);
    forall u | u in v.routes ensures ProjectionOk(v.routes[u].p, Log(v, u)) {
      RouterSafety.StepIsDispatched(w, t, n, u);
      if u != t { assert Log(v, u) == Log(w, u); }
    }
  }

  lemma InvalidateOk(w: World, t: ThreadId, reason: Reason)
    requires ProjectionsOk(w) && t in w.routes
    ensures ProjectionsOk(InvalidateRoute(w, t, reason))
  {
    ClearOk(w.routes[t].p, Log(w, t), reason);
  }

  lemma SpreadOk(w: World, t: ThreadId, e: Passing)
    requires ProjectionsOk(w)
    ensures ProjectionsOk(SpreadIf(w, t, e))
  {
    SpreadInherits(w, t, e);
    InheritsOk(w, SpreadIf(w, t, e));
  }

  lemma DirectOk(w: World, r: Raw)
    requires ProjectionsOk(w)
    ensures ProjectionsOk(Direct(w, r).0)
  {
    if r.call.CDelta? {
      if r.call.delta.Some? {
        var (t, turn, item, text) := r.call.delta.value;
        SpreadOk(w, t, Event.Delta(r.call.command, turn, item, text));
      }
    } else if r.call.COther? {
      if r.thread.Some? { SpreadOk(w, r.thread.value, Event.Unknown(BoundedMethod(r.call.name))); }
    } else if Decoded(r.call).Some? {
      UpdateOk(w, Decoded(r.call).value.0, Decoded(r.call).value.1, r.hint);
    } else if r.thread.Some? && r.thread.value in w.routes {
      InvalidateOk(w, r.thread.value, ProtocolDrift);
    }
  }

  lemma NotifyLateOk(w: World, r: Late)
    requires ProjectionsOk(w)
    ensures ProjectionsOk(NotifyLate(w, r).0)
  {
    if Defers(w, r) {
      if Overflows(w.routes[r.thread.value], r) {
        InvalidateOk(w, r.thread.value, Lagged);
      } else {
        InheritsOk(w, NotifyLate(w, r).0);
      }
    } else {
      DirectOk(w, r);
    }
  }

  lemma {:induction false} ReplayOk(w: World, rs: seq<Late>)
    requires ProjectionsOk(w)
    ensures ProjectionsOk(Replay(w, rs).0)
  {
    if rs != [] {
      ReplayOk(w, rs[..|rs| - 1]);
      NotifyLateOk(Replay(w, rs[..|rs| - 1]).0, rs[|rs| - 1]);
    }
  }

  lemma StopDeferringOk(w: World, t: ThreadId)
    requires ProjectionsOk(w)
    ensures ProjectionsOk(StopDeferring(w, t).0)
  {
    if t in w.routes {
      var v := SetRoute(w, t, w.routes[t].(defer := false, deferred := [], deferredBytes := 0));
      InheritsOk(w, v);
      ReplayOk(v, w.routes[t].deferred);
    }
  }

  lemma FinishOk(w: World, t: ThreadId, attempt: nat)
    requires ProjectionsOk(w)
    ensures ProjectionsOk(FinishTurnStart(w, t, attempt).0)
  {
    if t in w.routes && w.routes[t].pending == Some(attempt) {
      var v := SetRoute(w, t, w.routes[t].(pending := None));
      InheritsOk(w, v);
      StopDeferringOk(v, t);
    }
  }

  lemma NotifyOk(w: World, r: Raw)
    requires ProjectionsOk(w)
    ensures ProjectionsOk(Notify(w, r).0)
  {
    match r.call {
      case CTurnUp(Some((t, turn))) =>
        UpdateOk(w, t, P.TurnUp(turn), r.hint);
        StopDeferringOk(StartTurn(w, t, turn, r.hint).0, t);
      case CTurnUp(None) =>
      case _ => NotifyLateOk(w, r);
    }
  }

  lemma JoinInherits(w: World, id: SubId, t: ThreadId, hint: ThreadId, ackOk: bool)
    ensures Inherits(w, Join(w, id, t, hint, ackOk))
  {
    var u := Prune(w);
    PruneInherits(w);
    LookupInherits(u, t, hint);
    Transitive(w, u, RouteForUpdate(u, t, hint).0);
  }

  lemma ReleaseInherits(w: World, t: ThreadId)
    ensures Inherits(w, ReleaseRoute(w, t))
  {
    PruneInherits(w);
    DropInherits(w, Prune(w), t);
  }

  lemma LeaveInherits(w: World, id: SubId, t: ThreadId)
    ensures Inherits(w, Handle(w, Unsubscribe(id, t)).0)
  {
  }

  lemma PlainCommandOk(w: World, c: Command)
    requires ProjectionsOk(w) && (c.Subscribe? || c.Unsubscribe? || c.Ensure? || c.Release?)
    ensures ProjectionsOk(Handle(w, c).0)
  {
    var v := Handle(w, c).0;
    assert Inherits(w, v) by {
      match c {
        case Subscribe(id, t, hint, ackOk) => JoinInherits(w, id, t, hint, ackOk);
        case Ensure(t, hint) => LookupInherits(w, t, hint);
        case Release(t) => ReleaseInherits(w, t);
        case Unsubscribe(id, t) => LeaveInherits(w, id, t);
      }
    }
    InheritsOk(w, v);
  }

  lemma BeginOk(w: World, t: ThreadId, attempt: nat, hint: ThreadId)
    requires ProjectionsOk(w)
    ensures ProjectionsOk(BeginStart(w, t, attempt, hint).0)
  {
    LookupInherits(w, t, hint);
    InheritsOk(w, BeginStart(w, t, attempt, hint).0);
  }

  lemma HandleOk(w: World, c: Command)
    requires ProjectionsOk(w)
    ensures ProjectionsOk(Handle(w, c).0)
  {
    match c {
      case ObserveTurn(t, attempt, turn, hint) =>
        UpdateOk(w, t, P.TurnUp(turn), hint);
        FinishOk(StartTurn(w, t, turn, hint).0, t, attempt);
      case Begin(t, attempt, hint, ackOk) =>
        BeginOk(w, t, attempt, hint);
        FinishOk(BeginStart(w, t, attempt, hint).0, t, attempt);
      case Abort(t, attempt) => FinishOk(w, t, attempt);
      case ObserveThread(t, hint) => UpdateOk(w, t, P.ThreadUp, hint);
      case _ => PlainCommandOk(w, c);
    }
  }

  lemma StepOk(w: World, i: Input)
    requires ProjectionsOk(w)
    ensures ProjectionsOk(Step(w, i))
  {
    match i
    case Cmd(c) => HandleOk(w, c);
    case Incoming(r) => NotifyOk(w, r);
    case _ =>
  }

  /** In every reachable state every projection is consistent: open turns,
      usage and completed items exclude retained outcomes, the outcome tables
      agree, the byte totals are exact and within budget, and the retained
      outcomes are the longest suffix that fits of the completions published
      on the thread since its route was made. */
  lemma {:induction false} ProjectionsStayConsistent(inputs: seq<Input>)
    ensures ProjectionsOk(Run(inputs))
  {
    if inputs != [] {
      ProjectionsStayConsistent(inputs[..|inputs| - 1]);
      StepOk(Run(inputs[..|inputs| - 1]), inputs[|inputs| - 1]);
    }
  }
}
