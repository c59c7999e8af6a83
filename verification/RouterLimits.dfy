/** Capacity, deferral and projection invariants of the router, over every run. */
module RouterLimits {
  import opened Wrappers
  import opened ClientEvents
  import NameOrder
  import P = Projection
  import opened Router
  import RouterSafety
  import Sets
  import Totals

  function Weigh(rs: seq<Late>): nat {
    if rs == [] then 0 else Weigh(rs[..|rs| - 1]) + rs[|rs| - 1].weight
  }

  /** Deferral needs a pending start; what is deferred belongs to the thread
      and is counted exactly. */
  predicate DeferralOk(t: ThreadId, r: Route) {
    && (r.defer ==> r.pending.Some?)
    && (!r.defer ==> r.deferred == [])
    && (forall i :: 0 <= i < |r.deferred| ==> r.deferred[i].thread == Some(t))
    && |r.deferred| <= THREAD_EVENT_CAPACITY
    && r.deferredBytes == Weigh(r.deferred) <= THREAD_MAILBOX_BYTE_BUDGET
  }

  /** An invalidated route has no subscribers. */
  predicate RouteOk(t: ThreadId, r: Route) {
    && ValidId(t)
    && |r.subscribers| <= THREAD_SUBSCRIBER_CAPACITY
    && (r.p.invalidated.Some? ==> r.subscribers == [])
    && DeferralOk(t, r)
  }

  predicate RoutesOk(w: World) {
    && |w.routes| <= CLIENT_PROJECTION_CAPACITY
    && (forall t :: t in w.routes ==> RouteOk(t, w.routes[t]))
  }

  // ------------------------------------------------- one handler at a time

  /** v lists no more subscribers than w, route by route. */
  predicate Fewer(w: World, v: World) {
    forall t :: t in v.routes && v.routes[t].subscribers != [] ==>
      t in w.routes && |v.routes[t].subscribers| <= |w.routes[t].subscribers|
  }

  predicate Keeps(w: World, v: World) { RoutesOk(v) && Fewer(w, v) }

  /** A change to one existing route. */
  lemma OneRouteOk(w: World, v: World, t: ThreadId)
    requires RoutesOk(w) && t in w.routes && t in v.routes && v.routes == w.routes[t := v.routes[t]]
    requires RouteOk(t, v.routes[t]) && |v.routes[t].subscribers| <= |w.routes[t].subscribers|
    ensures Keeps(w, v)
  {
    assert v.routes.Keys == w.routes.Keys;
  }

  lemma PruneOk(w: World)
    requires RoutesOk(w)
    ensures Keeps(w, Prune(w)) && Prune(w).routes.Keys == w.routes.Keys
  {
    var v := Prune(w);
    forall t | t in v.routes ensures RouteOk(t, v.routes[t]) && |v.routes[t].subscribers| <= |w.routes[t].subscribers| {
      assert RouteOk(t, w.routes[t]);
      RouterSafety.KeepIs(w.routes[t].subscribers, w.boxes);
    }
    assert v.routes.Keys == w.routes.Keys;
  }

  lemma FreshRouteOk(t: ThreadId)
    requires ValidId(t)
    ensures RouteOk(t, NEW_ROUTE)
  {
  }

  lemma AddRouteOk(w: World, t: ThreadId)
    requires RoutesOk(w) && t !in w.routes && ValidId(t) && |w.routes| < CLIENT_PROJECTION_CAPACITY
    ensures Keeps(w, SetRoute(w, t, NEW_ROUTE))
  {
    var v := SetRoute(w, t, NEW_ROUTE);
    Sets.MapGrown(w.routes, t, NEW_ROUTE);
    FreshRouteOk(t);
    forall u | u in v.routes ensures RouteOk(u, v.routes[u]) {
      if u != t { assert RouteOk(u, w.routes[u]); }
    }
  }

  lemma RemoveRouteOk(w: World, g: ThreadId)
    requires RoutesOk(w) && g in w.routes
    ensures Keeps(w, w.(routes := w.routes - {g})) && |w.routes - {g}| == |w.routes| - 1
  {
    assert w.routes.Keys == (w.routes - {g}).Keys + {g};
  }

  lemma ReplaceRouteOk(w: World, g: ThreadId, t: ThreadId)
    requires RoutesOk(w) && g in w.routes && t !in w.routes && ValidId(t)
    ensures Keeps(w, SetRoute(w.(routes := w.routes - {g}), t, NEW_ROUTE))
  {
    RemoveRouteOk(w, g);
    AddRouteOk(w.(routes := w.routes - {g}), t);
  }

  lemma Chain(u: World, v: World, w: World)
    requires Keeps(u, v) && Keeps(v, w)
    ensures Keeps(u, w)
  {
  }

  lemma RouteForUpdateOk(w: World, t: ThreadId, hint: ThreadId)
    requires RoutesOk(w)
    ensures var (v, found) := RouteForUpdate(w, t, hint);
            Keeps(w, v) && (found ==> t in v.routes && v.routes[t].p.invalidated.None?)
  {
    if ValidId(t) {
      PruneOk(w);
      var v := Prune(w);
      if t !in v.routes && |v.routes| < CLIENT_PROJECTION_CAPACITY {
        AddRouteOk(v, t);
        Chain(w, v, SetRoute(v, t, NEW_ROUTE));
      } else if t !in v.routes && IdleRoutes(v) != {} {
        var g := if hint in IdleRoutes(v) then hint else NameOrder.Least(IdleRoutes(v));
        ReplaceRouteOk(v, g, t);
        Chain(w, v, SetRoute(v.(routes := v.routes - {g}), t, NEW_ROUTE));
      }
    }
  }

  /** A full table gives up only a route with no live subscriber, pending
      start, deferred notification, open turn or retained outcome. */
  lemma OnlyIdleRoutesAreEvicted(w: World, t: ThreadId, hint: ThreadId, g: ThreadId)
    requires g in w.routes && g !in RouteForUpdate(w, t, hint).0.routes
    ensures Idle(Prune(w).routes[g]) && |w.routes| >= CLIENT_PROJECTION_CAPACITY
    ensures forall id :: id in w.routes[g].subscribers ==> !Open(id, w.boxes)
  {
    assert Prune(w).routes.Keys == w.routes.Keys;
    RouterSafety.KeepIs(w.routes[g].subscribers, w.boxes);
  }

  /** ReleaseRoute removes its route exactly when nothing live depends on it. */
  lemma ReleaseRemovesOnlyQuietRoutes(w: World, t: ThreadId, g: ThreadId)
    requires g in w.routes
    ensures g !in ReleaseRoute(w, t).routes <==>
            && g == t
            && (forall id :: id in w.routes[g].subscribers ==> !Open(id, w.boxes))
            && w.routes[g].pending.None? && !w.routes[g].defer && w.routes[g].deferred == []
            && w.routes[g].p.active == {}
  {
    RouterSafety.KeepIs(w.routes[g].subscribers, w.boxes);
    var kept := Keep(w.routes[g].subscribers, w.boxes);
    if kept != [] { assert kept[0] in kept; }
  }

  lemma ApplyKeepsValidity(p: P.Projection, t: ThreadId, n: P.Notice)
    ensures P.Apply(p, t, n).0.invalidated == p.invalidated
  {
  }

  /** What acting on an effect does to its route, and to no other. */
  lemma ActRoute(w: World, t: ThreadId, q: P.Projection, effect: P.Effect)
    requires t in w.routes
    ensures var v := Act(w, t, q, effect); var r := w.routes[t];
            && t in v.routes && v.routes == w.routes[t := v.routes[t]]
            && v.routes[t] == r.(subscribers := v.routes[t].subscribers,
                                 p := if effect.Drift? then P.Clear(q, ProtocolDrift) else q)
            && |v.routes[t].subscribers| <= |r.subscribers|
            && (effect.Drift? ==> v.routes[t].subscribers == [])
  {
    var v := Act(w, t, q, effect);
    RouterSafety.KeepIs(w.routes[t].subscribers, v.boxes);
  }

  /** What acting on a notice does to its route, and to no other. */
  lemma ActOnRoute(w: World, t: ThreadId, n: P.Notice)
    requires t in w.routes && w.routes[t].p.invalidated.None?
    ensures var v := ActOn(w, t, n); var r := w.routes[t];
            && t in v.routes && v.routes == w.routes[t := v.routes[t]]
            && v.routes[t] == r.(subscribers := v.routes[t].subscribers, p := P.Settle(r.p, t, n))
            && |v.routes[t].subscribers| <= |r.subscribers|
            && (v.routes[t].p.invalidated.Some? ==> v.routes[t].subscribers == [])
  {
    var (q, effect) := P.Apply(w.routes[t].p, t, n);
    ApplyKeepsValidity(w.routes[t].p, t, n);
    ActRoute(w, t, q, effect);
  }

  lemma ActOnOk(w: World, t: ThreadId, n: P.Notice)
    requires RoutesOk(w) && t in w.routes && w.routes[t].p.invalidated.None?
    ensures Keeps(w, ActOn(w, t, n))
  {
    assert RouteOk(t, w.routes[t]);
    ActOnRoute(w, t, n);
    OneRouteOk(w, ActOn(w, t, n), t);
  }

  lemma InvalidateOk(w: World, t: ThreadId, reason: Reason)
    requires RoutesOk(w) && t in w.routes
    ensures Keeps(w, InvalidateRoute(w, t, reason))
  {
    assert RouteOk(t, w.routes[t]);
    var v := InvalidateRoute(w, t, reason);
    assert RouteOk(t, v.routes[t]);
    OneRouteOk(w, v, t);
  }

  lemma SpreadOk(w: World, t: ThreadId, e: Passing)
    requires RoutesOk(w) && t in w.routes
    ensures Keeps(w, Spread(w, t, e))
  {
    var v := Spread(w, t, e);
    RouterSafety.KeepIs(w.routes[t].subscribers, v.boxes);
    assert RouteOk(t, w.routes[t]) && RouteOk(t, v.routes[t]);
    OneRouteOk(w, v, t);
  }

  lemma UpdateOk(w: World, t: ThreadId, n: P.Notice, hint: ThreadId)
    requires RoutesOk(w)
    ensures Keeps(w, Update(w, t, n, hint).0)
  {
    RouteForUpdateOk(w, t, hint);
    var (v, found) := RouteForUpdate(w, t, hint);
    if found { ActOnOk(v, t, n); }
  }

  lemma DirectOk(w: World, r: Raw)
    requires RoutesOk(w)
    ensures Keeps(w, Direct(w, r).0)
  {
    match r.call {
      case CDelta(command, Some((t, turn, item, text))) =>
        if t in w.routes { SpreadOk(w, t, Event.Delta(command, turn, item, text)); }
      case CDelta(_, None) =>
      case COther(name) =>
        if r.thread.Some? && r.thread.value in w.routes {
          SpreadOk(w, r.thread.value, Event.Unknown(BoundedMethod(name)));
        }
      case _ => LifecycleOk(w, r);
    }
  }

  lemma LifecycleOk(w: World, r: Raw)
    requires RoutesOk(w) && !r.call.CDelta? && !r.call.COther?
    ensures Keeps(w, Direct(w, r).0)
  {
    if Decoded(r.call).Some? {
      UpdateOk(w, Decoded(r.call).value.0, Decoded(r.call).value.1, r.hint);
    } else if r.thread.Some? && r.thread.value in w.routes {
      InvalidateOk(w, r.thread.value, ProtocolDrift);
    }
  }

  lemma PushDeferred(t: ThreadId, r: Route, late: Late)
    requires RouteOk(t, r) && r.defer && late.thread == Some(t) && !Overflows(r, late)
    ensures RouteOk(t, r.(deferred := r.deferred + [late], deferredBytes := r.deferredBytes + late.weight))
  {
    assert (r.deferred + [late])[..|r.deferred|] == r.deferred;
  }

  lemma NotifyLateOk(w: World, r: Late)
    requires RoutesOk(w)
    ensures Keeps(w, NotifyLate(w, r).0)
  {
    if Defers(w, r) {
      var t := r.thread.value;
      if Overflows(w.routes[t], r) {
        InvalidateOk(w, t, Lagged);
      } else {
        PushDeferred(t, w.routes[t], r);
        OneRouteOk(w, NotifyLate(w, r).0, t);
      }
    } else {
      DirectOk(w, r);
    }
  }

  lemma {:induction false} ReplayOk(w: World, rs: seq<Late>)
    requires RoutesOk(w)
    ensures Keeps(w, Replay(w, rs).0)
  {
    if rs != [] {
      ReplayOk(w, rs[..|rs| - 1]);
      NotifyLateOk(Replay(w, rs[..|rs| - 1]).0, rs[|rs| - 1]);
    }
  }

  lemma StopDeferringOk(w: World, t: ThreadId)
    requires RoutesOk(w)
    ensures Keeps(w, StopDeferring(w, t).0)
  {
    if t in w.routes {
      var r := w.routes[t].(defer := false, deferred := [], deferredBytes := 0);
      assert RouteOk(t, w.routes[t]) && RouteOk(t, r);
      OneRouteOk(w, SetRoute(w, t, r), t);
      ReplayOk(SetRoute(w, t, r), w.routes[t].deferred);
    }
  }

  lemma NotifyOk(w: World, r: Raw)
    requires RoutesOk(w)
    ensures Keeps(w, Notify(w, r).0)
  {
    match r.call {
      case CTurnUp(Some((t, turn))) =>
        UpdateOk(w, t, P.TurnUp(turn), r.hint);
        StopDeferringOk(StartTurn(w, t, turn, r.hint).0, t);
      case CTurnUp(None) =>
      case _ => NotifyLateOk(w, r);
    }
  }

  function Finished(r: Route): Route {
    r.(pending := None, defer := false, deferred := [], deferredBytes := 0)
  }

  /** Clearing a pending start and stopping deferral happen together. */
  lemma FinishIs(w: World, t: ThreadId, attempt: nat)
    requires t in w.routes && w.routes[t].pending == Some(attempt)
    ensures FinishTurnStart(w, t, attempt) == Replay(SetRoute(w, t, Finished(w.routes[t])), w.routes[t].deferred)
  {
    var v := SetRoute(w, t, w.routes[t].(pending := None));
    assert SetRoute(v, t, Finished(w.routes[t])) == SetRoute(w, t, Finished(w.routes[t]));
  }

  lemma FinishOk(w: World, t: ThreadId, attempt: nat)
    requires RoutesOk(w)
    ensures Keeps(w, FinishTurnStart(w, t, attempt).0)
  {
    if t in w.routes && w.routes[t].pending == Some(attempt) {
      FinishIs(w, t, attempt);
      var v := SetRoute(w, t, Finished(w.routes[t]));
      assert RouteOk(t, w.routes[t]) && RouteOk(t, v.routes[t]);
      OneRouteOk(w, v, t);
      ReplayOk(v, w.routes[t].deferred);
      Chain(w, v, Replay(v, w.routes[t].deferred).0);
    }
  }

  lemma BeginOk(w: World, t: ThreadId, attempt: nat, hint: ThreadId)
    requires RoutesOk(w)
    ensures Keeps(w, BeginStart(w, t, attempt, hint).0)
  {
    RouteForUpdateOk(w, t, hint);
    var (v, found) := RouteForUpdate(w, t, hint);
    if found && v.routes[t].pending.None? {
      var r := v.routes[t].(pending := Some(attempt), defer := true);
      assert RouteOk(t, v.routes[t]) && RouteOk(t, r);
      OneRouteOk(v, SetRoute(v, t, r), t);
    }
  }

  lemma LeaveOk(w: World, t: ThreadId, id: SubId)
    requires RoutesOk(w) && t in w.routes
    ensures Keeps(w, SetRoute(w, t, w.routes[t].(subscribers := Without(w.routes[t].subscribers, id))))
  {
    RouterSafety.WithoutIs(w.routes[t].subscribers, id);
    var r := w.routes[t].(subscribers := Without(w.routes[t].subscribers, id));
    assert RouteOk(t, w.routes[t]) && RouteOk(t, r);
    OneRouteOk(w, SetRoute(w, t, r), t);
  }

  lemma ReleaseOk(w: World, t: ThreadId)
    requires RoutesOk(w)
    ensures Keeps(w, ReleaseRoute(w, t))
  {
    PruneOk(w);
    if t in Prune(w).routes { RemoveRouteOk(Prune(w), t); }
  }

  lemma ObserveOk(w: World, t: ThreadId, attempt: nat, turn: Turn, hint: ThreadId)
    requires RoutesOk(w)
    ensures Keeps(w, FinishTurnStart(StartTurn(w, t, turn, hint).0, t, attempt).0)
  {
    var v := StartTurn(w, t, turn, hint).0;
    UpdateOk(w, t, P.TurnUp(turn), hint);
    FinishOk(v, t, attempt);
    Chain(w, v, FinishTurnStart(v, t, attempt).0);
  }

  lemma BeginFinishOk(w: World, t: ThreadId, attempt: nat, hint: ThreadId)
    requires RoutesOk(w)
    ensures var v := BeginStart(w, t, attempt, hint).0;
            Keeps(w, v) && Keeps(w, FinishTurnStart(v, t, attempt).0)
  {
    var v := BeginStart(w, t, attempt, hint).0;
    BeginOk(w, t, attempt, hint);
    FinishOk(v, t, attempt);
    Chain(w, v, FinishTurnStart(v, t, attempt).0);
  }

  /** Every command but Subscribe. */
  lemma HandleOk(w: World, c: Command)
    requires RoutesOk(w) && !c.Subscribe?
    ensures Keeps(w, Handle(w, c).0)
  {
    match c {
      case Unsubscribe(id, t) => if t in w.routes { LeaveOk(w, t, id); }
      case ObserveTurn(t, attempt, turn, hint) => ObserveOk(w, t, attempt, turn, hint);
      case Begin(t, attempt, hint, ackOk) => BeginFinishOk(w, t, attempt, hint);
      case Abort(t, attempt) => FinishOk(w, t, attempt);
      case ObserveThread(t, hint) => UpdateOk(w, t, P.ThreadUp, hint);
      case Ensure(t, hint) => RouteForUpdateOk(w, t, hint);
      case Release(t) => ReleaseOk(w, t);
    }
  }

  // ---------------------------------------------------- counting subscribers

  lemma {:induction false} DropZeros(a: map<string, nat>, b: map<string, nat>)
    requires forall k :: k in b <==> k in a && a[k] != 0
    requires forall k :: k in b ==> b[k] == a[k]
    ensures Totals.Total(a) == Totals.Total(b)
    decreases |a|
  {
    if a == map[] {
      assert b == map[];
    } else {
      var k :| k in a;
      Totals.Remove(a, k);
      if k in b { Totals.Remove(b, k); } else { assert b - {k} == b; }
      DropZeros(a - {k}, b - {k});
    }
  }

  lemma FewerCount(w: World, v: World)
    requires Fewer(w, v)
    ensures SubscriberCount(v) <= SubscriberCount(w)
  {
    var nonEmpty := map t | t in v.routes && v.routes[t].subscribers != [] :: |v.routes[t].subscribers|;
    Totals.Monotone(nonEmpty, Lengths(w.routes));
    DropZeros(Lengths(v.routes), nonEmpty);
  }

  predicate Bounded(w: World) {
    RoutesOk(w) && SubscriberCount(w) <= CLIENT_SUBSCRIBER_CAPACITY
  }

  lemma KeepsBounded(w: World, v: World)
    requires Bounded(w) && Keeps(w, v)
    ensures Bounded(v)
  {
    FewerCount(w, v);
  }

  function Joined(w: World, id: SubId, t: ThreadId): World
    requires t in w.routes
  {
    SetRoute(w.(boxes := w.boxes[id := NewBox(w, t)]), t,
             w.routes[t].(subscribers := w.routes[t].subscribers + [id]))
  }

  lemma JoinedCount(w: World, id: SubId, t: ThreadId)
    requires t in w.routes
    ensures SubscriberCount(Joined(w, id, t)) == SubscriberCount(w) + 1
  {
    var n := |w.routes[t].subscribers| + 1;
    assert Lengths(Joined(w, id, t).routes) == Lengths(w.routes)[t := n];
    Totals.Update(Lengths(w.routes), t, n);
  }

  lemma JoinedRoutes(w: World, id: SubId, t: ThreadId)
    requires RoutesOk(w) && t in w.routes && w.routes[t].p.invalidated.None?
    requires |w.routes[t].subscribers| < THREAD_SUBSCRIBER_CAPACITY
    ensures RoutesOk(Joined(w, id, t))
  {
    var v := Joined(w, id, t);
    assert RouteOk(t, w.routes[t]) && RouteOk(t, v.routes[t]);
    assert v.routes.Keys == w.routes.Keys;
  }

  lemma JoinOk(w: World, id: SubId, t: ThreadId, hint: ThreadId, ackOk: bool)
    requires Bounded(w)
    ensures Bounded(Join(w, id, t, hint, ackOk))
  {
    var u := Prune(w);
    PruneOk(w);
    KeepsBounded(w, u);
    RouteForUpdateOk(u, t, hint);
    var (v, found) := RouteForUpdate(u, t, hint);
    KeepsBounded(u, v);
    FewerCount(u, v);
    if SubscriberCount(u) < CLIENT_SUBSCRIBER_CAPACITY && found &&
       |v.routes[t].subscribers| < THREAD_SUBSCRIBER_CAPACITY && ackOk {
      JoinedCount(v, id, t);
      JoinedRoutes(v, id, t);
      assert Join(w, id, t, hint, ackOk) == Joined(v, id, t);
    }
  }

  lemma EmptyOk(w: World)
    requires w.routes == map[]
    ensures Bounded(w)
  {
    assert Lengths(w.routes) == map[];
  }

  lemma SameRoutesOk(w: World, v: World)
    requires Bounded(w) && v.routes == w.routes
    ensures Bounded(v)
  {
  }

  lemma CommandOk(w: World, c: Command)
    requires Bounded(w)
    ensures Bounded(Handle(w, c).0)
  {
    if c.Subscribe? {
      JoinOk(w, c.id, c.thread, c.hint, c.ackOk);
    } else {
      HandleOk(w, c);
      KeepsBounded(w, Handle(w, c).0);
    }
  }

  lemma StepOk(w: World, i: Input)
    requires Bounded(w)
    ensures Bounded(Step(w, i))
  {
    match i {
      case Cmd(c) =>
        CommandOk(w, c);
        EmptyOk(Exit(Handle(w, c).0, TASK_FAILED));
      case Incoming(r) =>
        NotifyOk(w, r);
        KeepsBounded(w, Notify(w, r).0);
        EmptyOk(Exit(Notify(w, r).0, PROTOCOL_VIOLATION));
      case Stop(exit) => EmptyOk(Exit(w, exit));
      case _ => SameRoutesOk(w, Step(w, i));
    }
  }

  /** In every reachable state: at most 64 routes, 64 subscribers in all and 4
      per thread; an invalidated route has no subscribers; deferral implies a
      pending start, and what is deferred is counted exactly. */
  lemma {:induction false} LimitsHold(inputs: seq<Input>)
    ensures Bounded(Run(inputs))
  {
    if inputs == [] {
      EmptyOk(START);
    } else {
      LimitsHold(inputs[..|inputs| - 1]);
      StepOk(Run(inputs[..|inputs| - 1]), inputs[|inputs| - 1]);
    }
  }
}
