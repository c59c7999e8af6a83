/**
 Deferral only reorders: notifications held back while a turn start is pending
 have the effect they would have had after the turn start.
 */
module RouterDeferral {
  import opened Wrappers
  import opened ClientEvents
  import P = Projection
  import opened Router
  import opened RouterLimits

  /** w with `rs` waiting on route t. */
  function Load(w: World, t: ThreadId, rs: seq<Late>): World
    requires t in w.routes
  {
    SetRoute(w, t, w.routes[t].(deferred := rs, deferredBytes := Weigh(rs)))
  }

  predicate Same(rs: seq<Late>, t: ThreadId) { forall i :: 0 <= i < |rs| ==> rs[i].thread == Some(t) }

  predicate NoOverflow(rs: seq<Late>) {
    |rs| <= THREAD_EVENT_CAPACITY && Weigh(rs) <= THREAD_MAILBOX_BYTE_BUDGET
  }

  lemma {:induction false} WeighPrefix(rs: seq<Late>)
    requires rs != [] && NoOverflow(rs)
    ensures NoOverflow(rs[..|rs| - 1])
  {
  }

  lemma WaitOne(w: World, t: ThreadId, rs: seq<Late>, late: Late)
    requires t in w.routes && w.routes[t].defer && late.thread == Some(t) && NoOverflow(rs + [late])
    ensures NotifyLate(Load(w, t, rs), late) == (Load(w, t, rs + [late]), true)
  {
    assert (rs + [late])[..|rs|] == rs;
    var r := w.routes[t].(deferred := rs + [late], deferredBytes := Weigh(rs + [late]));
    assert SetRoute(Load(w, t, rs), t, r) == SetRoute(w, t, r);
  }

  lemma LoadNothing(w: World, t: ThreadId)
    requires t in w.routes && w.routes[t].deferred == [] && w.routes[t].deferredBytes == 0
    ensures Load(w, t, []) == w
  {
    assert w.routes[t := w.routes[t]] == w.routes;
  }

  lemma WaitLast(w: World, t: ThreadId, rs: seq<Late>, front: seq<Late>, late: Late)
    requires t in w.routes && w.routes[t].defer && late.thread == Some(t) && NoOverflow(rs)
    requires rs == front + [late] && Replay(w, front) == (Load(w, t, front), true)
    ensures Replay(w, rs) == (Load(w, t, rs), true)
  {
    assert rs[..|rs| - 1] == front && rs[|rs| - 1] == late;
    WaitOne(w, t, front, late);
    ReplayLast(w, rs, Load(w, t, front));
  }

  lemma ReplayLast(w: World, rs: seq<Late>, v: World)
    requires rs != [] && Replay(w, rs[..|rs| - 1]) == (v, true)
    ensures Replay(w, rs) == NotifyLate(v, rs[|rs| - 1])
  {
  }

  /** While a route defers, its notifications only queue up. */
  lemma {:induction false} AllWait(w: World, t: ThreadId, rs: seq<Late>)
    requires t in w.routes && w.routes[t].defer && w.routes[t].deferred == [] && w.routes[t].deferredBytes == 0
    requires Same(rs, t) && NoOverflow(rs)
    ensures Replay(w, rs) == (Load(w, t, rs), true)
  {
    if rs == [] {
      LoadNothing(w, t);
    } else {
      var n := |rs| - 1;
      WeighPrefix(rs);
      AllWait(w, t, rs[..n]);
      WaitLast(w, t, rs, rs[..n], rs[n]);
    }
  }

  lemma PruneLoad(w: World, t: ThreadId, rs: seq<Late>)
    requires t in w.routes
    ensures Prune(Load(w, t, rs)) == Load(Prune(w), t, rs)
  {
  }

  lemma PublishLoad(w: World, t: ThreadId, e: Lifecycle, rs: seq<Late>)
    requires t in w.routes
    ensures Publish(Load(w, t, rs), t, e) == Load(Publish(w, t, e), t, rs)
  {
    assert Publish(Load(w, t, rs), t, e).boxes == Publish(w, t, e).boxes;
  }

  lemma SpreadLoad(w: World, t: ThreadId, e: Passing, rs: seq<Late>)
    requires t in w.routes
    ensures Spread(Load(w, t, rs), t, e) == Load(Spread(w, t, e), t, rs)
  {
    assert Spread(Load(w, t, rs), t, e).boxes == Spread(w, t, e).boxes;
  }

  lemma InvalidateLoad(w: World, t: ThreadId, reason: Reason, rs: seq<Late>)
    requires t in w.routes
    ensures InvalidateRoute(Load(w, t, rs), t, reason) == Load(InvalidateRoute(w, t, reason), t, rs)
  {
    assert InvalidateRoute(Load(w, t, rs), t, reason).boxes == InvalidateRoute(w, t, reason).boxes;
  }

  lemma ActLoad(w: World, t: ThreadId, q: P.Projection, effect: P.Effect, rs: seq<Late>)
    requires t in w.routes
    ensures t in Act(w, t, q, effect).routes
    ensures Act(Load(w, t, rs), t, q, effect) == Load(Act(w, t, q, effect), t, rs)
  {
    var v := SetRoute(w, t, w.routes[t].(p := q));
    var u := Load(w, t, rs);
    assert SetRoute(u, t, u.routes[t].(p := q)) == Load(v, t, rs);
    match effect
    case Quiet =>
    case Terminal(e) => PublishLoad(v, t, e, rs);
    case Lossy(e) => SpreadLoad(v, t, e, rs);
    case Drift => InvalidateLoad(v, t, ProtocolDrift, rs);
  }

  /** Starting a turn neither reads nor changes what is deferred. */
  lemma StartTurnLoad(w: World, t: ThreadId, turn: Turn, hint: ThreadId, rs: seq<Late>)
    requires t in w.routes
    ensures t in StartTurn(w, t, turn, hint).0.routes
    ensures StartTurn(Load(w, t, rs), t, turn, hint).0 == Load(StartTurn(w, t, turn, hint).0, t, rs)
  {
    if ValidId(t) {
      PruneLoad(w, t, rs);
      var v := Prune(w);
      var (q, effect) := P.Apply(v.routes[t].p, t, P.TurnUp(turn));
      ActLoad(v, t, q, effect, rs);
    }
  }

  lemma StopLoad(w: World, t: ThreadId, rs: seq<Late>)
    requires t in w.routes && w.routes[t].deferred == []
    ensures StopDeferring(w, t).1
    ensures StopDeferring(Load(w, t, rs), t) == Replay(StopDeferring(w, t).0, rs)
  {
    var calm := w.routes[t].(defer := false, deferred := [], deferredBytes := 0);
    assert SetRoute(Load(w, t, rs), t, calm) == SetRoute(w, t, calm);
    assert w.routes[t].deferred == [];
  }

  lemma StartTurnKeepsDeferred(w: World, t: ThreadId, turn: Turn, hint: ThreadId)
    requires t in w.routes
    ensures var v := StartTurn(w, t, turn, hint).0;
            && t in v.routes && v.routes[t].deferred == w.routes[t].deferred
            && v.routes[t].pending == w.routes[t].pending
  {
    if ValidId(t) {
      var v := Prune(w);
      var (q, effect) := P.Apply(v.routes[t].p, t, P.TurnUp(turn));
      RouterLimits.ActRoute(v, t, q, effect);
    }
  }

  /** An accepted BeginTurnStart leaves its route deferring, with nothing held. */
  lemma BeginDefers(w: World, t: ThreadId, attempt: nat, hint: ThreadId)
    requires RoutesOk(w) && BeginStart(w, t, attempt, hint).1
    ensures var v := BeginStart(w, t, attempt, hint).0;
            && t in v.routes && v.routes[t].defer && v.routes[t].pending == Some(attempt)
            && v.routes[t].deferred == [] && v.routes[t].deferredBytes == 0
  {
    RouteForUpdateOk(w, t, hint);
    var u := RouteForUpdate(w, t, hint).0;
    assert RouteOk(t, u.routes[t]);
  }

  /** Deferral only reorders. After an accepted BeginTurnStart, receiving
      notifications `rs` for the thread and then turn/started ends in the same
      world, with the same fault result, as receiving turn/started first and
      then `rs` in order. */
  lemma DeferralOnlyReorders(w: World, t: ThreadId, attempt: nat, hint: ThreadId, rs: seq<Late>, up: Raw)
    requires RoutesOk(w) && BeginStart(w, t, attempt, hint).1
    requires Same(rs, t) && NoOverflow(rs) && up.call.CTurnUp? && up.call.turnUp.Some? && up.call.turnUp.value.0 == t
    ensures var v := BeginStart(w, t, attempt, hint).0;
            && Replay(v, rs).1 && Notify(v, up).1
            && Notify(Replay(v, rs).0, up) == Replay(Notify(v, up).0, rs)
  {
    BeginDefers(w, t, attempt, hint);
    var v := BeginStart(w, t, attempt, hint).0;
    var turn := up.call.turnUp.value.1;
    AllWait(v, t, rs);
    StartTurnLoad(v, t, turn, up.hint, rs);
    StartTurnKeepsDeferred(v, t, turn, up.hint);
    StopLoad(StartTurn(v, t, turn, up.hint).0, t, rs);
  }

  lemma FinishLoad(w: World, t: ThreadId, attempt: nat, rs: seq<Late>)
    requires t in w.routes && w.routes[t].deferred == [] && w.routes[t].pending == Some(attempt)
    ensures FinishTurnStart(w, t, attempt).1
    ensures FinishTurnStart(Load(w, t, rs), t, attempt) == Replay(FinishTurnStart(w, t, attempt).0, rs)
  {
    FinishIs(w, t, attempt);
    FinishIs(Load(w, t, rs), t, attempt);
    assert SetRoute(Load(w, t, rs), t, Finished(w.routes[t])) == SetRoute(w, t, Finished(w.routes[t]));
    assert w.routes[t].deferred == [];
  }

  /** The same holds when the turn is observed through its response. */
  lemma ObservingOnlyReorders(
      w: World, t: ThreadId, attempt: nat, hint: ThreadId, rs: seq<Late>, turn: Turn, later: ThreadId)
    requires RoutesOk(w) && BeginStart(w, t, attempt, hint).1
    requires Same(rs, t) && NoOverflow(rs)
    ensures var v := BeginStart(w, t, attempt, hint).0;
            Handle(Replay(v, rs).0, ObserveTurn(t, attempt, turn, later)) ==
            Replay(Handle(v, ObserveTurn(t, attempt, turn, later)).0, rs)
  {
    BeginDefers(w, t, attempt, hint);
    var v := BeginStart(w, t, attempt, hint).0;
    AllWait(v, t, rs);
    StartTurnLoad(v, t, turn, later, rs);
    StartTurnKeepsDeferred(v, t, turn, later);
    FinishLoad(StartTurn(v, t, turn, later).0, t, attempt, rs);
  }

  /** And when the start is aborted. */
  lemma AbortingOnlyReorders(w: World, t: ThreadId, attempt: nat, hint: ThreadId, rs: seq<Late>)
    requires RoutesOk(w) && BeginStart(w, t, attempt, hint).1
    requires Same(rs, t) && NoOverflow(rs)
    ensures var v := BeginStart(w, t, attempt, hint).0;
            Handle(Replay(v, rs).0, Abort(t, attempt)) == Replay(Handle(v, Abort(t, attempt)).0, rs)
  {
    BeginDefers(w, t, attempt, hint);
    var v := BeginStart(w, t, attempt, hint).0;
    AllWait(v, t, rs);
    FinishLoad(v, t, attempt, rs);
  }

  // ------------------------------------------------- replay is bounded

  /** Deliver in order without ever deferring, up to the first fault. */
  function DirectAll(w: World, rs: seq<Late>): (World, bool) {
    if rs == [] then (w, true)
    else
      var (v, ok) := DirectAll(w, rs[..|rs| - 1]);
      if ok then Direct(v, rs[|rs| - 1]) else (v, false)
  }

  predicate Calm(w: World, t: ThreadId) { t in w.routes ==> !w.routes[t].defer }

  lemma LookupCalm(w: World, t: ThreadId, hint: ThreadId, g: ThreadId)
    requires Calm(w, g)
    ensures Calm(RouteForUpdate(w, t, hint).0, g)
    ensures RouteForUpdate(w, t, hint).1 ==> t in RouteForUpdate(w, t, hint).0.routes
  {
  }

  lemma UpdateCalm(w: World, t: ThreadId, n: P.Notice, hint: ThreadId, g: ThreadId)
    requires Calm(w, g)
    ensures Calm(Update(w, t, n, hint).0, g)
  {
    LookupCalm(w, t, hint, g);
    var (v, found) := RouteForUpdate(w, t, hint);
    if found {
      var (q, effect) := P.Apply(v.routes[t].p, t, n);
      ActRoute(v, t, q, effect);
    }
  }

  lemma DirectCalm(w: World, r: Raw, g: ThreadId)
    requires Calm(w, g)
    ensures Calm(Direct(w, r).0, g)
  {
    if !r.call.CDelta? && !r.call.COther? && Decoded(r.call).Some? {
      UpdateCalm(w, Decoded(r.call).value.0, Decoded(r.call).value.1, r.hint, g);
    }
  }

  /** Replay never defers again: it is the plain delivery of the queue. */
  lemma {:induction false} ReplayNeverDefers(w: World, t: ThreadId, rs: seq<Late>)
    requires Calm(w, t) && Same(rs, t)
    ensures Replay(w, rs) == DirectAll(w, rs) && Calm(Replay(w, rs).0, t)
  {
    if rs != [] {
      var n := |rs| - 1;
      ReplayNeverDefers(w, t, rs[..n]);
      DirectCalm(Replay(w, rs[..n]).0, rs[n], t);
      assert rs[n].thread == Some(t);
    }
  }
}
