/**
 The router as the source runs it: one task that owns the routes and changes
 them, and the mailboxes they list, in place. Each method is proved equal to
 the handler of module Router that specifies it.
 */
module RouterActor {
  import opened Wrappers
  import opened ClientEvents
  import Mail = Mailbox
  import NameOrder
  import P = Projection
  import opened R = Router
  import Safety = RouterSafety
  import Totals

  class ClientRouter {
    var routes: map<ThreadId, Route>
    var boxes: map<SubId, Box>
    /** History only: the terminal events dispatched so far. */
    var log: map<ThreadId, seq<Lifecycle>>
    var exited: bool

    ghost function Abstract(): World
      reads this
    {
      World(routes, boxes, log, exited)
    }

    ghost predicate Valid()
      reads this
    {
      Safety.BoxesOk(Abstract()) && !exited
    }

    constructor ()
      ensures Valid() && Abstract() == R.START
    {
      routes, boxes, log, exited := map[], map[], map[], false;
    }

    method RetainOpen(subs: seq<SubId>) returns (kept: seq<SubId>)
      ensures kept == R.Keep(subs, boxes)
    {
      kept := [];
      for i := 0 to |subs|
        invariant kept == R.Keep(subs[..i], boxes)
      {
        assert subs[..i + 1][..i] == subs[..i];
        if subs[i] in boxes && !boxes[subs[i]].m.closed {
          kept := kept + [subs[i]];
        }
      }
      assert subs[..|subs|] == subs;
    }

    method PruneSubscribers()
      requires Valid()
      modifies `routes
      ensures Abstract() == R.Prune(old(Abstract())) && Valid()
    {
      var todo := routes.Keys;
      while todo != {}
        invariant routes.Keys == old(routes.Keys) && todo <= routes.Keys
        invariant forall t :: t in todo ==> routes[t] == old(routes[t])
        invariant forall t :: t in routes && t !in todo ==>
                    routes[t] == old(routes[t]).(subscribers := R.Keep(old(routes[t]).subscribers, boxes))
        decreases todo
      {
        var t :| t in todo;
        var kept := RetainOpen(routes[t].subscribers);
        routes := routes[t := routes[t].(subscribers := kept)];
        todo := todo - {t};
      }
      assert Abstract() == R.Prune(old(Abstract()));
      Safety.PruneOk(old(Abstract()));
    }

    method CountSubscribers() returns (count: nat)
      ensures count == R.SubscriberCount(Abstract())
    {
      count := 0;
      ghost var left := R.Lengths(routes);
      var todo := routes.Keys;
      while todo != {}
        invariant todo == left.Keys && todo <= routes.Keys
        invariant forall t :: t in todo ==> left[t] == |routes[t].subscribers|
        invariant count + Totals.Total(left) == R.SubscriberCount(Abstract())
        decreases todo
      {
        var t :| t in todo;
        Totals.Remove(left, t);
        count := count + |routes[t].subscribers|;
        left := left - {t};
        todo := todo - {t};
      }
      assert left == map[];
    }

    /** The first idle route met, `hint` first and then in order. */
    method FindIdle(hint: ThreadId) returns (found: Option<ThreadId>)
      ensures found.None? <==> R.IdleRoutes(Abstract()) == {}
      ensures found.Some? ==>
                found.value == if hint in R.IdleRoutes(Abstract()) then hint
                               else NameOrder.Least(R.IdleRoutes(Abstract()))
    {
      ghost var idle := R.IdleRoutes(Abstract());
      if hint in routes && R.Idle(routes[hint]) {
        assert hint in idle;
        return Some(hint);
      }
      var ids := NameOrder.Sorted(routes.Keys);
      for i := 0 to |ids|
        invariant forall k :: 0 <= k < i ==> ids[k] !in idle
      {
        if R.Idle(routes[ids[i]]) {
          assert ids[i] in idle;
          FirstIsLeast(ids, i, idle);
          return Some(ids[i]);
        }
      }
      found := None;
      forall t | t in routes ensures t !in idle { assert t in ids; }
    }

    method RouteForUpdate(t: ThreadId, hint: ThreadId) returns (found: bool)
      requires Valid()
      modifies `routes
      ensures (Abstract(), found) == R.RouteForUpdate(old(Abstract()), t, hint) && Valid()
      ensures found ==> t in routes && routes[t].p.invalidated.None?
    {
      Safety.RouteForUpdateOk(Abstract(), t, hint);
      if t == "" || |t| > ROUTING_ID_BYTE_LIMIT {
        return false;
      }
      PruneSubscribers();
      if t in routes {
        return routes[t].p.invalidated.None?;
      }
      if |routes| >= CLIENT_PROJECTION_CAPACITY {
        var idle := FindIdle(hint);
        if idle.None? {
          return false;
        }
        routes := routes - {idle.value};
      }
      routes := routes[t := NEW_ROUTE];
      found := true;
    }

    /** The two passes of a terminal dispatch: offer the event to every open
        mailbox, then invalidate those that could not take it. */
    method OfferEach(subs: seq<SubId>, t: ThreadId, e: Lifecycle) returns (kept: seq<SubId>)
      requires Safety.DistinctIds(subs) && forall id :: id in subs ==> id in boxes
      modifies `boxes
      ensures boxes == R.OfferAll(old(boxes), subs, t, e) && kept == R.Keep(subs, boxes)
    {
      var lagged;
      kept, lagged := TryEach(subs, e);
      SelectIn(old(boxes), subs, e, false);
      InvalidateEach(lagged, t, Lagged);
      TriedThenCut(old(boxes), subs, t, e);
      SelectIsKeep(old(boxes), subs, subs, t, e);
    }

    method TryEach(subs: seq<SubId>, e: Lifecycle) returns (kept: seq<SubId>, lagged: seq<SubId>)
      requires Safety.DistinctIds(subs) && forall id :: id in subs ==> id in boxes
      modifies `boxes
      ensures boxes == Tried(old(boxes), subs, e)
      ensures kept == Select(old(boxes), subs, e, true) && lagged == Select(old(boxes), subs, e, false)
    {
      kept, lagged := [], [];
      NothingTried(boxes, e);
      for i := 0 to |subs|
        invariant boxes == Tried(old(boxes), subs[..i], e)
        invariant kept == Select(old(boxes), subs[..i], e, true)
        invariant lagged == Select(old(boxes), subs[..i], e, false)
      {
        var id := subs[i];
        assert subs[..i + 1] == subs[..i] + [id] && subs[..i + 1][..i] == subs[..i];
        TryNext(old(boxes), subs[..i], id, e);
        if !boxes[id].m.closed {
          var (m, accepted) := Mail.PushTerminal(boxes[id].m, e);
          if accepted {
            boxes := boxes[id := boxes[id].(m := m)];
            kept := kept + [id];
          } else {
            lagged := lagged + [id];
          }
        }
      }
      assert subs[..|subs|] == subs;
    }

    method InvalidateEach(ids: seq<SubId>, t: ThreadId, reason: Reason)
      requires forall id :: id in ids ==> id in boxes
      modifies `boxes
      ensures boxes == R.InvalidateAll(old(boxes), ids, t, reason)
    {
      for i := 0 to |ids|
        invariant boxes.Keys == old(boxes.Keys)
        invariant forall id :: id in boxes ==>
                    boxes[id] == if id in ids[..i]
                                 then old(boxes)[id].(m := Mail.Invalidate(old(boxes)[id].m, t, reason))
                                 else old(boxes)[id]
      {
        var id := ids[i];
        assert ids[..i + 1] == ids[..i] + [id];
        boxes := boxes[id := boxes[id].(m := Mail.Invalidate(boxes[id].m, t, reason))];
      }
      assert ids[..|ids|] == ids;
    }

    method PushEach(subs: seq<SubId>, e: Passing) returns (kept: seq<SubId>)
      requires Safety.DistinctIds(subs) && forall id :: id in subs ==> id in boxes
      modifies `boxes
      ensures boxes == R.PushAll(old(boxes), subs, e) && kept == R.Keep(subs, boxes)
    {
      kept := [];
      NothingPushed(boxes, e);
      for i := 0 to |subs|
        invariant boxes == R.PushAll(old(boxes), subs[..i], e)
        invariant kept == R.Keep(subs[..i], old(boxes))
      {
        var id := subs[i];
        assert subs[..i + 1] == subs[..i] + [id] && subs[..i + 1][..i] == subs[..i];
        PushNext(old(boxes), subs[..i], id, e);
        if !boxes[id].m.closed {
          boxes := boxes[id := boxes[id].(m := Mail.PushLossy(boxes[id].m, e).0)];
          kept := kept + [id];
        }
      }
      assert subs[..|subs|] == subs;
      KeepPushed(old(boxes), subs, subs, e);
    }

    method DispatchTerminal(t: ThreadId, e: Lifecycle)
      requires Valid() && t in routes
      modifies this
      ensures Abstract() == R.Publish(old(Abstract()), t, e) && Valid()
    {
      Safety.PublishOk(Abstract(), t, e);
      assert Safety.SubsOk(Abstract(), t);
      var kept := OfferEach(routes[t].subscribers, t, e);
      routes := routes[t := routes[t].(subscribers := kept)];
      log := log[t := (if t in log then log[t] else []) + [e]];
    }

    method Dispatch(t: ThreadId, e: Passing)
      requires Valid()
      modifies `routes, `boxes
      ensures Abstract() == R.SpreadIf(old(Abstract()), t, e) && Valid()
    {
      if t in routes {
        Safety.SpreadAllOk(Abstract(), t, e);
        assert Safety.SubsOk(Abstract(), t);
        var kept := PushEach(routes[t].subscribers, e);
        routes := routes[t := routes[t].(subscribers := kept)];
      }
    }

    method InvalidateRoute(t: ThreadId, reason: Reason)
      requires Valid() && t in routes
      modifies `routes, `boxes
      ensures Abstract() == R.InvalidateRoute(old(Abstract()), t, reason) && Valid()
    {
      Safety.InvalidateRouteOk(Abstract(), t, reason);
      assert Safety.SubsOk(Abstract(), t);
      var subs := routes[t].subscribers;
      routes := routes[t := routes[t].(subscribers := [], p := P.Clear(routes[t].p, reason))];
      InvalidateEach(subs, t, reason);
    }

    /** The route_* functions. */
    method Update(t: ThreadId, n: P.Notice, hint: ThreadId) returns (found: bool)
      requires Valid()
      modifies this
      ensures (Abstract(), found) == R.Update(old(Abstract()), t, n, hint) && Valid()
    {
      Safety.UpdateOk(Abstract(), t, n, hint);
      found := RouteForUpdate(t, hint);
      if found {
        ActOn(t, n);
      }
    }

    method ActOn(t: ThreadId, n: P.Notice)
      requires Valid() && t in routes
      modifies this
      ensures Abstract() == R.ActOn(old(Abstract()), t, n) && Valid()
    {
      var (q, effect) := P.Apply(routes[t].p, t, n);
      Safety.ActOk(Abstract(), t, q, effect);
      Safety.SameListsOk(Abstract(), R.SetRoute(Abstract(), t, routes[t].(p := q)));
      routes := routes[t := routes[t].(p := q)];
      match effect {
        case Quiet =>
        case Terminal(e) => DispatchTerminal(t, e);
        case Lossy(e) => Dispatch(t, e);
        case Drift => InvalidateRoute(t, ProtocolDrift);
      }
    }

    /** route_notification once deferral is ruled out. */
    method Deliver(r: Raw) returns (ok: bool)
      requires Valid()
      modifies this
      ensures (Abstract(), ok) == R.Direct(old(Abstract()), r) && Valid()
    {
      ok := true;
      match r.call {
        case CDelta(command, Some((t, turn, item, text))) =>
          if R.ValidId(t) && R.ValidId(turn) && R.ValidId(item) {
            Dispatch(t, Event.Delta(command, turn, item, text));
          }
        case CDelta(_, None) =>
        case COther(name) =>
          if r.thread.Some? {
            Dispatch(r.thread.value, Event.Unknown(R.BoundedMethod(name)));
          }
        case _ => ok := DeliverLifecycle(r);
      }
    }

    method DeliverLifecycle(r: Raw) returns (ok: bool)
      requires Valid() && !r.call.CDelta? && !r.call.COther?
      modifies this
      ensures (Abstract(), ok) == R.Direct(old(Abstract()), r) && Valid()
    {
      var authoritative := R.Authoritative(r.call);
      match R.Decoded(r.call) {
        case Some((t, n)) =>
          var found := Update(t, n, r.hint);
          ok := found || !authoritative;
        case None =>
          if authoritative && r.thread.Some? && r.thread.value in routes {
            InvalidateRoute(r.thread.value, ProtocolDrift);
          }
          ok := !authoritative;
      }
    }

    method NotifyLate(r: Late) returns (ok: bool)
      requires Valid()
      modifies this
      ensures (Abstract(), ok) == R.NotifyLate(old(Abstract()), r) && Valid()
    {
      if r.thread.Some? && r.thread.value in routes && routes[r.thread.value].defer {
        var t := r.thread.value;
        if R.Overflows(routes[t], r) {
          InvalidateRoute(t, Lagged);
          return !R.Authoritative(r.call);
        }
        Safety.NotifyLateOk(Abstract(), r);
        routes := routes[t := routes[t].(deferred := routes[t].deferred + [r],
                                         deferredBytes := routes[t].deferredBytes + r.weight)];
        return true;
      }
      ok := Deliver(r);
    }

    /** Take the queue and deliver it, stopping at the first fault. */
    method StopDeferring(t: ThreadId) returns (ok: bool)
      requires Valid()
      modifies this
      ensures (Abstract(), ok) == R.StopDeferring(old(Abstract()), t) && Valid()
    {
      if t !in routes {
        return true;
      }
      var deferred := routes[t].deferred;
      var calm := routes[t].(defer := false, deferred := [], deferredBytes := 0);
      Safety.SameListsOk(Abstract(), R.SetRoute(Abstract(), t, calm));
      routes := routes[t := calm];
      ok := ReplayEach(deferred);
    }

    method ReplayEach(deferred: seq<Late>) returns (ok: bool)
      requires Valid()
      modifies this
      ensures (Abstract(), ok) == R.Replay(old(Abstract()), deferred) && Valid()
    {
      ok := true;
      for i := 0 to |deferred|
        invariant ok && Valid()
        invariant (Abstract(), true) == R.Replay(old(Abstract()), deferred[..i])
      {
        assert deferred[..i + 1][..i] == deferred[..i];
        ok := NotifyLate(deferred[i]);
        assert (Abstract(), ok) == R.Replay(old(Abstract()), deferred[..i + 1]);
        if !ok {
          FaultStops(old(Abstract()), deferred, i + 1);
          return;
        }
      }
      assert deferred[..|deferred|] == deferred;
    }

    method StartTurn(t: ThreadId, turn: Turn, hint: ThreadId) returns (accepted: bool)
      requires Valid()
      modifies this
      ensures (Abstract(), accepted) == R.StartTurn(old(Abstract()), t, turn, hint) && Valid()
    {
      accepted := RouteForUpdate(t, hint);
      if accepted {
        accepted := !P.TurnUpStep(routes[t].p, turn).1.Drift?;
        ActOn(t, P.TurnUp(turn));
      }
    }

    /** route_notification */
    method Notify(r: Raw) returns (ok: bool)
      requires Valid()
      modifies this
      ensures (Abstract(), ok) == R.Notify(old(Abstract()), r) && Valid()
    {
      match r.call {
        case CTurnUp(Some((t, turn))) =>
          var accepted := StartTurn(t, turn, r.hint);
          ok := StopDeferring(t);
        case CTurnUp(None) => ok := true;
        case _ => ok := NotifyLate(r);
      }
    }

    method FinishTurnStart(t: ThreadId, attempt: nat) returns (ok: bool)
      requires Valid()
      modifies this
      ensures (Abstract(), ok) == R.FinishTurnStart(old(Abstract()), t, attempt) && Valid()
    {
      if t in routes && routes[t].pending == Some(attempt) {
        Safety.SameListsOk(Abstract(), R.SetRoute(Abstract(), t, routes[t].(pending := None)));
        routes := routes[t := routes[t].(pending := None)];
        ok := StopDeferring(t);
      } else {
        ok := true;
      }
    }

    method Subscribe(id: SubId, t: ThreadId, hint: ThreadId, ackOk: bool)
      requires Valid() && id !in boxes
      modifies this
      ensures Abstract() == R.Join(old(Abstract()), id, t, hint, ackOk) && Valid()
    {
      Safety.JoinOk(Abstract(), id, t, hint, ackOk);
      PruneSubscribers();
      var count := CountSubscribers();
      if count >= CLIENT_SUBSCRIBER_CAPACITY {
        return;
      }
      var found := RouteForUpdate(t, hint);
      if !found || |routes[t].subscribers| >= THREAD_SUBSCRIBER_CAPACITY || !ackOk {
        return;
      }
      var m := Mail.EMPTY;
      var replay: seq<Lifecycle> := [];
      if routes[t].p.threadStarted {
        m := Mail.PushTerminal(m, Event.ThreadStarted(t)).0;
        replay := [Event.ThreadStarted(t)];
      }
      boxes := boxes[id := Box(m, t, replay, if t in log then |log[t]| else 0, [], false)];
      routes := routes[t := routes[t].(subscribers := routes[t].subscribers + [id])];
    }

    method Unsubscribe(id: SubId, t: ThreadId)
      requires Valid() && (id in boxes ==> boxes[id].ownerClosed)
      modifies `routes
      ensures Abstract() == R.Handle(old(Abstract()), R.Unsubscribe(id, t)).0 && Valid()
    {
      if t in routes {
        Safety.LeaveOk(Abstract(), t, id);
        var kept := RetainOthers(routes[t].subscribers, id);
        routes := routes[t := routes[t].(subscribers := kept)];
      }
    }

    method RetainOthers(subs: seq<SubId>, id: SubId) returns (kept: seq<SubId>)
      ensures kept == R.Without(subs, id)
    {
      kept := [];
      for i := 0 to |subs|
        invariant kept == R.Without(subs[..i], id)
      {
        assert subs[..i + 1][..i] == subs[..i];
        if subs[i] != id {
          kept := kept + [subs[i]];
        }
      }
      assert subs[..|subs|] == subs;
    }

    method BeginTurnStart(t: ThreadId, attempt: nat, hint: ThreadId) returns (accepted: bool)
      requires Valid()
      modifies this
      ensures (Abstract(), accepted) == R.BeginStart(old(Abstract()), t, attempt, hint) && Valid()
    {
      Safety.BeginOk(Abstract(), t, attempt, hint);
      accepted := RouteForUpdate(t, hint);
      if accepted && routes[t].pending.None? {
        routes := routes[t := routes[t].(pending := Some(attempt), defer := true)];
      } else {
        accepted := false;
      }
    }

    method ReleaseRoute(t: ThreadId) returns (released: bool)
      requires Valid()
      modifies `routes
      ensures Abstract() == R.ReleaseRoute(old(Abstract()), t) && Valid()
      ensures released <==> t in old(routes) && t !in routes
    {
      Safety.ReleaseOk(Abstract(), t);
      PruneSubscribers();
      released := t in routes && R.Releasable(routes[t]);
      if released {
        routes := routes - {t};
      }
    }

    /** handle_router_command; false asks the task to shut the connection down. */
    method HandleCommand(c: Command) returns (ok: bool)
      requires Valid() && R.Legal(Abstract(), R.Cmd(c))
      modifies this
      ensures (Abstract(), ok) == R.Handle(old(Abstract()), c) && Valid()
    {
      ok := true;
      match c {
        case Subscribe(id, t, hint, ackOk) => Subscribe(id, t, hint, ackOk);
        case Unsubscribe(id, t) => Unsubscribe(id, t);
        case ObserveTurn(t, attempt, turn, hint) =>
          var accepted := StartTurn(t, turn, hint);
          ok := FinishTurnStart(t, attempt);
        case Begin(t, attempt, hint, ackOk) =>
          var accepted := BeginTurnStart(t, attempt, hint);
          if accepted && !ackOk {
            ok := FinishTurnStart(t, attempt);
          }
        case Abort(t, attempt) => ok := FinishTurnStart(t, attempt);
        case ObserveThread(t, hint) =>
          var accepted := Update(t, P.ThreadUp, hint);
        case Ensure(t, hint) =>
          var accepted := RouteForUpdate(t, hint);
        case Release(t) =>
          var released := ReleaseRoute(t);
      }
    }

    /** close_subscribers: a farewell to every listed mailbox. */
    method CloseSubscribers(exit: nat)
      requires Valid()
      modifies this
      ensures Abstract() == R.Exit(old(Abstract()), exit) && Safety.BoxesOk(Abstract())
    {
      Safety.ExitOk(Abstract(), exit);
      ghost var w := Abstract();
      var todo := routes.Keys;
      NobodyParted(w, exit);
      while todo != {}
        invariant routes == w.routes && log == w.log && todo <= routes.Keys
        invariant boxes == Parted(w, todo, exit)
        decreases todo
      {
        var t :| t in todo;
        assert Safety.SubsOk(w, t);
        PartNext(w, todo, t, exit);
        FarewellEach(routes[t].subscribers, exit);
        todo := todo - {t};
      }
      AllParted(w, exit);
      routes := map[];
      exited := true;
    }

    method FarewellEach(subs: seq<SubId>, exit: nat)
      requires Safety.DistinctIds(subs) && forall id :: id in subs ==> id in boxes
      modifies `boxes
      ensures boxes == FarewellAll(old(boxes), subs, exit)
    {
      assert boxes == FarewellAll(boxes, [], exit);
      for i := 0 to |subs|
        invariant boxes == FarewellAll(old(boxes), subs[..i], exit)
      {
        var id := subs[i];
        assert subs[..i + 1] == subs[..i] + [id] && id !in subs[..i];
        FarewellNext(old(boxes), subs[..i], id, exit);
        boxes := boxes[id := R.Farewell(boxes[id], exit)];
      }
      assert subs[..|subs|] == subs;
    }
  }

  function FarewellAll(boxes: map<SubId, Box>, subs: seq<SubId>, exit: nat): map<SubId, Box> {
    map id | id in boxes :: if id in subs then R.Farewell(boxes[id], exit) else boxes[id]
  }

  /** The mailboxes once every route outside `todo` has been told. */
  function Parted(w: World, todo: set<ThreadId>, exit: nat): map<SubId, Box> {
    map id | id in w.boxes ::
      if R.Listed(w, id) && w.boxes[id].thread !in todo then R.Farewell(w.boxes[id], exit) else w.boxes[id]
  }

  // ------------------------------------------ the loops, entry by entry

  lemma NobodyParted(w: World, exit: nat)
    ensures Parted(w, w.routes.Keys, exit) == w.boxes
  {
  }

  lemma AllParted(w: World, exit: nat)
    ensures Parted(w, {}, exit) == R.Exit(w, exit).boxes
  {
  }

  lemma PartNext(w: World, todo: set<ThreadId>, t: ThreadId, exit: nat)
    requires t in todo && t in w.routes && Safety.SubsOk(w, t)
    ensures FarewellAll(Parted(w, todo, exit), w.routes[t].subscribers, exit) == Parted(w, todo - {t}, exit)
  {
    var left := FarewellAll(Parted(w, todo, exit), w.routes[t].subscribers, exit);
    var right := Parted(w, todo - {t}, exit);
    forall id | id in w.boxes ensures left[id] == right[id] {
      if id in w.routes[t].subscribers { assert w.boxes[id].thread == t && R.Listed(w, id); }
    }
  }

  lemma FarewellNext(boxes: map<SubId, Box>, subs: seq<SubId>, id: SubId, exit: nat)
    requires id in boxes && id !in subs
    ensures id in FarewellAll(boxes, subs, exit)
    ensures FarewellAll(boxes, subs + [id], exit) ==
            FarewellAll(boxes, subs, exit)[id := R.Farewell(FarewellAll(boxes, subs, exit)[id], exit)]
  {
    assert FarewellAll(boxes, subs, exit)[id] == boxes[id];
  }

  /** Nothing is delivered after a fault. */
  lemma {:induction false} FaultStops(w: World, rs: seq<Late>, n: nat)
    requires n <= |rs| && !R.Replay(w, rs[..n]).1
    ensures R.Replay(w, rs) == R.Replay(w, rs[..n])
    decreases |rs| - n
  {
    if n < |rs| {
      assert rs[..n + 1][..n] == rs[..n];
      FaultStops(w, rs, n + 1);
    } else {
      assert rs[..n] == rs;
    }
  }

  lemma NothingPushed(boxes: map<SubId, Box>, e: Passing)
    ensures R.PushAll(boxes, [], e) == boxes
  {
  }

  lemma PushNext(boxes: map<SubId, Box>, subs: seq<SubId>, id: SubId, e: Passing)
    requires id in boxes && id !in subs
    ensures id in R.PushAll(boxes, subs, e) && R.PushAll(boxes, subs, e)[id] == boxes[id]
    ensures R.PushAll(boxes, subs + [id], e) ==
            R.PushAll(boxes, subs, e)[id := boxes[id].(m := Mail.PushLossy(boxes[id].m, e).0)]
    ensures boxes[id].m.closed ==> R.PushAll(boxes, subs + [id], e) == R.PushAll(boxes, subs, e)
  {
    var c := boxes[id].(m := Mail.PushLossy(boxes[id].m, e).0);
    assert boxes[id].m.closed ==> c == boxes[id];
    var before := R.PushAll(boxes, subs, e);
    assert before[id] == boxes[id];
    assert R.PushAll(boxes, subs + [id], e) == before[id := c];
    if c == boxes[id] { assert before[id := c] == before; }
  }

  lemma {:induction false} KeepPushed(boxes: map<SubId, Box>, subs: seq<SubId>, all: seq<SubId>, e: Passing)
    ensures R.Keep(subs, R.PushAll(boxes, all, e)) == R.Keep(subs, boxes)
  {
    if subs != [] { KeepPushed(boxes, subs[..|subs| - 1], all, e); }
  }

  predicate Takes(b: Box, e: Lifecycle) { Mail.PushTerminal(b.m, e).1 }

  function Try(b: Box, e: Lifecycle): Box { b.(m := Mail.PushTerminal(b.m, e).0) }

  /** After the first pass: those that could take the event have it. */
  function Tried(boxes: map<SubId, Box>, subs: seq<SubId>, e: Lifecycle): map<SubId, Box> {
    map id | id in boxes :: if id in subs then Try(boxes[id], e) else boxes[id]
  }

  /** The open mailboxes that took the event, or that did not. */
  function Select(boxes: map<SubId, Box>, subs: seq<SubId>, e: Lifecycle, took: bool): seq<SubId> {
    if subs == [] then []
    else
      var id := subs[|subs| - 1];
      Select(boxes, subs[..|subs| - 1], e, took) +
      if id in boxes && !boxes[id].m.closed && Takes(boxes[id], e) == took then [id] else []
  }

  lemma NothingTried(boxes: map<SubId, Box>, e: Lifecycle)
    ensures Tried(boxes, [], e) == boxes
  {
  }

  lemma TryNext(boxes: map<SubId, Box>, subs: seq<SubId>, id: SubId, e: Lifecycle)
    requires id in boxes && id !in subs
    ensures id in Tried(boxes, subs, e) && Tried(boxes, subs, e)[id] == boxes[id]
    ensures Tried(boxes, subs + [id], e) == Tried(boxes, subs, e)[id := Try(boxes[id], e)]
    ensures !Takes(boxes[id], e) ==> Tried(boxes, subs + [id], e) == Tried(boxes, subs, e)
    ensures boxes[id].m.closed ==> !Takes(boxes[id], e)
  {
    var before := Tried(boxes, subs, e);
    assert before[id] == boxes[id];
    assert Tried(boxes, subs + [id], e) == before[id := Try(boxes[id], e)];
    if !Takes(boxes[id], e) { assert before[id := Try(boxes[id], e)] == before; }
  }

  lemma {:induction false} SelectIn(boxes: map<SubId, Box>, subs: seq<SubId>, e: Lifecycle, took: bool)
    ensures forall id :: id in Select(boxes, subs, e, took) <==>
              id in subs && id in boxes && !boxes[id].m.closed && Takes(boxes[id], e) == took
  {
    if subs != [] {
      SelectIn(boxes, subs[..|subs| - 1], e, took);
      assert subs == subs[..|subs| - 1] + [subs[|subs| - 1]];
    }
  }

  lemma TriedThenCut(boxes: map<SubId, Box>, subs: seq<SubId>, t: ThreadId, e: Lifecycle)
    ensures R.InvalidateAll(Tried(boxes, subs, e), Select(boxes, subs, e, false), t, Lagged) ==
            R.OfferAll(boxes, subs, t, e)
  {
    SelectIn(boxes, subs, e, false);
    var left := R.InvalidateAll(Tried(boxes, subs, e), Select(boxes, subs, e, false), t, Lagged);
    var right := R.OfferAll(boxes, subs, t, e);
    forall id | id in boxes ensures left[id] == right[id] {
      assert left[id].(m := right[id].m) == right[id];
    }
    assert left == right;
  }

  lemma {:induction false} SelectIsKeep(
      boxes: map<SubId, Box>, subs: seq<SubId>, all: seq<SubId>, t: ThreadId, e: Lifecycle)
    requires forall id :: id in subs ==> id in all
    ensures Select(boxes, subs, e, true) == R.Keep(subs, R.OfferAll(boxes, all, t, e))
  {
    if subs != [] { SelectIsKeep(boxes, subs[..|subs| - 1], all, t, e); }
  }

  lemma FirstIsLeast(ids: seq<string>, i: nat, idle: set<string>)
    requires NameOrder.Ascending(ids) && i < |ids| && ids[i] in idle
    requires forall t :: t in idle ==> t in ids
    requires forall k :: 0 <= k < i ==> ids[k] !in idle
    ensures idle != {} && ids[i] == NameOrder.Least(idle)
  {
    var m := NameOrder.Least(idle);
    var j :| 0 <= j < |ids| && ids[j] == m;
    if j != i { NameOrder.Antisymmetric(ids[i], m); }
  }
}
