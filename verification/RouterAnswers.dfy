/**
 What comes in goes out: in every reachable state of the router a notification
 for a usable thread adds to that thread's log the event that is due, and every
 subscriber with room has it waiting. Someone who subscribes is heard of.
 */
module RouterAnswers {
  import opened Wrappers
  import opened ClientEvents
  import All = PublishAll
  import Once = PublishOnce
  import Mail = Mailbox
  import Laws = MailboxLaws
  import P = Projection
  import opened Router
  import RouterLimits
  import RouterProjections
  import RouterSafety

  // ------------------------------------------------------------- routes

  /** The thread has a route that may be updated, or can be given one. */
  predicate Usable(w: World, t: ThreadId) {
    && ValidId(t)
    && if t in w.routes then w.routes[t].p.invalidated.None?
       else |w.routes| < CLIENT_PROJECTION_CAPACITY || IdleRoutes(Prune(w)) != {}
  }

  function RouteOf(w: World, t: ThreadId): Route { if t in w.routes then w.routes[t] else NEW_ROUTE }

  function TablesOf(w: World, t: ThreadId): P.Projection { RouteOf(w, t).p }

  /** A route is found exactly for usable threads, as it was or new. */
  lemma Found(w: World, t: ThreadId, hint: ThreadId)
    ensures var (v, found) := RouteForUpdate(w, t, hint);
            && (found <==> Usable(w, t)) && v.log == w.log && v.exited == w.exited && v.boxes == w.boxes
            && (found ==>
                  && t in v.routes
                  && v.routes[t] == RouteOf(w, t).(subscribers := Keep(RouteOf(w, t).subscribers, w.boxes)))
  {
    assert Prune(w).routes.Keys == w.routes.Keys;
    assert Keep([], w.boxes) == [];
  }

  // ------------------------------------------------------ notifications

  /** No other thread's log changed. */
  ghost predicate OnlyLog(w: World, v: World, t: ThreadId) { forall u :: u != t ==> Log(v, u) == Log(w, u) }

  /** The notification was answered: the thread's log has the event due and
      nothing more, no other log changed, and the route is invalidated exactly
      when nothing could be said. */
  ghost predicate Answered(w: World, v: World, t: ThreadId, n: P.Notice, k: nat) {
    && k <= |Log(w, t)| && !v.exited && t in v.routes && OnlyLog(w, v, t)
    && var due := All.Due(t, Log(w, t)[k..], TablesOf(w, t), n);
       && Log(v, t) == Log(w, t) + All.Said(due)
       && (v.routes[t].p.invalidated.Some? <==> due.Breaks?)
  }

  lemma OtherLogs(w: World, t: ThreadId, n: P.Notice, hint: ThreadId)
    requires Usable(w, t)
    ensures OnlyLog(w, Update(w, t, n, hint).0, t)
  {
    Found(w, t, hint);
    forall u | u != t ensures Log(Update(w, t, n, hint).0, u) == Log(w, u) {
      RouterSafety.StepIsDispatched(RouteForUpdate(w, t, hint).0, t, n, u);
    }
  }

  lemma EffectSaid(p: P.Projection, es: seq<Lifecycle>, t: ThreadId, n: P.Notice)
    requires All.Mirrors(p, es) && p.invalidated.None?
    ensures Once.Published(P.Apply(p, t, n).1) == All.Said(All.Due(t, es, p, n))
    ensures P.Settle(p, t, n).invalidated.Some? <==> All.Due(t, es, p, n).Breaks?
  {
    All.StepAnswers(p, es, t, n);
    All.StaysValid(p, t, n);
  }

  lemma UpdateAnswered(w: World, t: ThreadId, n: P.Notice, hint: ThreadId, k: nat)
    requires Usable(w, t) && !w.exited && RouterProjections.Since(TablesOf(w, t), Log(w, t), k)
    ensures Answered(w, Update(w, t, n, hint).0, t, n, k) && Update(w, t, n, hint).1
  {
    Found(w, t, hint);
    var v := RouteForUpdate(w, t, hint).0;
    RouterSafety.StepIsDispatched(v, t, n, t);
    RouterLimits.ActOnRoute(v, t, n);
    EffectSaid(TablesOf(w, t), Log(w, t)[k..], t, n);
    ActStays(v, t, n);
    OtherLogs(w, t, n, hint);
  }

  lemma ActStays(w: World, t: ThreadId, n: P.Notice)
    requires t in w.routes
    ensures ActOn(w, t, n).exited == w.exited
  {
  }

  /** In every reachable state the tables of a usable thread are those of its
      log since some point: since its route was made. */
  lemma TablesFollowLog(inputs: seq<Input>, t: ThreadId) returns (k: nat)
    ensures RouterProjections.Since(TablesOf(Run(inputs), t), Log(Run(inputs), t), k)
  {
    var w := Run(inputs);
    RouterProjections.ProjectionsStayConsistent(inputs);
    if t !in w.routes { RouterProjections.EmptyOk(Log(w, t)); }
    assert RouterProjections.ProjectionOk(TablesOf(w, t), Log(w, t));
    k :| RouterProjections.Since(TablesOf(w, t), Log(w, t), k);
  }

  /** The notification says this of this thread, and is not put aside. */
  predicate Tells(w: World, r: Raw, t: ThreadId, n: P.Notice) {
    && Decoded(r.call) == Some((t, n))
    && if r.call.CTurnUp? then !RouteOf(w, t).defer else !Defers(w, r)
  }

  /** A route that does not defer has nothing deferred. */
  lemma NothingDeferred(inputs: seq<Input>, t: ThreadId)
    requires !RouteOf(Run(inputs), t).defer
    ensures RouteOf(Run(inputs), t).deferred == []
  {
    RouterLimits.LimitsHold(inputs);
    if t in Run(inputs).routes { assert RouterLimits.RouteOk(t, Run(inputs).routes[t]); }
  }

  lemma StopIsIdle(w: World, t: ThreadId)
    requires t in w.routes && w.routes[t].deferred == []
    ensures var (v, ok) := StopDeferring(w, t);
            && ok && v.log == w.log && v.exited == w.exited && v.boxes == w.boxes
            && t in v.routes && v.routes[t].p == w.routes[t].p && v.routes[t].subscribers == w.routes[t].subscribers
  {
  }

  lemma StartAnswered(w: World, t: ThreadId, turn: Turn, hint: ThreadId, k: nat)
    requires Usable(w, t) && !w.exited && RouterProjections.Since(TablesOf(w, t), Log(w, t), k)
    requires RouteOf(w, t).deferred == []
    ensures var (v, ok) := StopDeferring(StartTurn(w, t, turn, hint).0, t);
            ok && Answered(w, v, t, P.TurnUp(turn), k)
  {
    UpdateAnswered(w, t, P.TurnUp(turn), hint, k);
    Found(w, t, hint);
    var v := RouteForUpdate(w, t, hint).0;
    RouterLimits.ActOnRoute(v, t, P.TurnUp(turn));
    StopIsIdle(StartTurn(w, t, turn, hint).0, t);
  }

  lemma StepIsStart(w: World, r: Raw, t: ThreadId, n: P.Notice)
    requires !w.exited && Decoded(r.call) == Some((t, n)) && r.call.CTurnUp?
    requires StopDeferring(StartTurn(w, t, n.turn, r.hint).0, t).1
    ensures Step(w, Incoming(r)) == StopDeferring(StartTurn(w, t, n.turn, r.hint).0, t).0
  {
  }

  lemma StepIsUpdate(w: World, r: Raw, t: ThreadId, n: P.Notice)
    requires !w.exited && Decoded(r.call) == Some((t, n)) && !r.call.CTurnUp? && !Defers(w, r)
    requires Update(w, t, n, r.hint).1
    ensures Step(w, Incoming(r)) == Update(w, t, n, r.hint).0
  {
  }

  /** In every reachable state, a notification for a usable thread that is not
      put aside is answered: its event reaches the thread's log, exactly once
      and with the right contents, unless the log says it must not. */
  lemma NotificationsAreAnswered(inputs: seq<Input>, r: Raw, t: ThreadId, n: P.Notice)
    requires !Run(inputs).exited && Tells(Run(inputs), r, t, n) && Usable(Run(inputs), t)
    ensures exists k: nat :: Answered(Run(inputs), Step(Run(inputs), Incoming(r)), t, n, k)
  {
    var w := Run(inputs);
    var k := TablesFollowLog(inputs, t);
    if r.call.CTurnUp? {
      NothingDeferred(inputs, t);
      StartAnswered(w, t, n.turn, r.hint, k);
      StepIsStart(w, r, t, n);
    } else {
      UpdateAnswered(w, t, n, r.hint, k);
      StepIsUpdate(w, r, t, n);
    }
    assert Answered(w, Step(w, Incoming(r)), t, n, k);
  }

  // -------------------------------------------------------- subscribers

  /** The subscriber follows the thread and its mailbox is open. */
  predicate Listens(w: World, t: ThreadId, id: SubId) {
    t in w.routes && id in w.routes[t].subscribers && id in w.boxes && !w.boxes[id].m.closed
  }

  function WaitingFor(w: World, id: SubId): seq<Event>
    requires id in w.boxes
  {
    Mail.EventsOf(w.boxes[id].m.events)
  }

  /** A published event waits for every listener that has room for it, and the
      listener stays. */
  lemma PublishedIsHeard(w: World, t: ThreadId, e: Lifecycle, id: SubId)
    requires Listens(w, t, id) && Mail.Valid(w.boxes[id].m) && Laws.TerminalRoom(WaitingFor(w, id), e)
    ensures var v := Publish(w, t, e);
            Listens(v, t, id) && WaitingFor(v, id) == WaitingFor(w, id) + [e]
  {
    Laws.TakesTerminal(w.boxes[id].m, e);
    RouterSafety.KeepIs(w.routes[t].subscribers, OfferAll(w.boxes, w.routes[t].subscribers, t, e));
  }

  /** A passing event waits for every listener that has room for it, on its own
      or joined to the delta it continues; no listener is lost. */
  lemma PassingIsHeard(w: World, t: ThreadId, e: Passing, id: SubId)
    requires Listens(w, t, id) && Mail.Valid(w.boxes[id].m)
    ensures var v, es := Spread(w, t, e), WaitingFor(w, id);
            && Listens(v, t, id)
            && WaitingFor(v, id) ==
               if Laws.Follows(es, e) then (if Laws.JoinRoom(es, e) then es[..|es| - 1] + [Laws.Joined(es, e)] else es)
               else if Laws.LossyRoom(es, e) then es + [e] else es
  {
    var m := w.boxes[id].m;
    if Laws.Follows(WaitingFor(w, id), e) { Laws.JoinsDelta(m, e); } else { Laws.TakesLossy(m, e); }
    assert WaitingFor(w, id) + [] == WaitingFor(w, id);
    LossyStaysOpen(m, e);
    RouterSafety.KeepIs(w.routes[t].subscribers, PushAll(w.boxes, w.routes[t].subscribers, e));
  }

  lemma LossyStaysOpen(m: Mail.State, e: Event)
    ensures Mail.PushLossy(m, e).0.closed == m.closed
  {
  }

  /** There is room for another subscriber to the thread. */
  predicate Joinable(w: World, t: ThreadId) {
    && SubscriberCount(Prune(w)) < CLIENT_SUBSCRIBER_CAPACITY
    && |Keep(RouteOf(w, t).subscribers, w.boxes)| < THREAD_SUBSCRIBER_CAPACITY
  }

  /** Whoever subscribes to a usable thread with room listens from then on, and
      is first told that the thread started if it has. */
  lemma SubscriberListens(w: World, id: SubId, t: ThreadId, hint: ThreadId)
    requires !w.exited && Usable(w, t) && Joinable(w, t)
    ensures var v := Step(w, Cmd(Subscribe(id, t, hint, true)));
            && Listens(v, t, id) && v.boxes[id].since == |Log(w, t)| && v.boxes[id].thread == t
            && WaitingFor(v, id) == if TablesOf(w, t).threadStarted then [Event.ThreadStarted(t)] else []
  {
    var u := Prune(w);
    PrunedIsUsable(w, t);
    Found(u, t, hint);
    var v := RouteForUpdate(u, t, hint).0;
    NewBoxHolds(v, t);
    var subs := v.routes[t].subscribers;
    assert (subs + [id])[|subs|] == id;
  }

  lemma NewBoxHolds(w: World, t: ThreadId)
    requires t in w.routes && ValidId(t)
    ensures var b := NewBox(w, t);
            && !b.m.closed && b.thread == t && b.since == |Log(w, t)|
            && Mail.EventsOf(b.m.events) == if w.routes[t].p.threadStarted then [Event.ThreadStarted(t)] else []
  {
    assert Mail.EventsOf([]) == [];
    var e := Event.ThreadStarted(t);
    assert Mail.EventsOf([Mail.Queued(Weight(e), true, e)]) == [e];
  }

  /** Pruning once is enough. */
  lemma {:induction false} KeepTwice(subs: seq<SubId>, boxes: map<SubId, Box>)
    ensures Keep(Keep(subs, boxes), boxes) == Keep(subs, boxes)
  {
    if subs != [] {
      var n := |subs| - 1;
      KeepTwice(subs[..n], boxes);
      var front := Keep(subs[..n], boxes);
      if Open(subs[n], boxes) {
        assert (front + [subs[n]])[..|front|] == front;
      } else {
        assert front + [] == front;
      }
    }
  }

  lemma PruneTwice(w: World)
    ensures Prune(Prune(w)) == Prune(w) && Prune(w).routes.Keys == w.routes.Keys
  {
    var u := Prune(w);
    forall x | x in w.routes ensures Prune(u).routes[x] == u.routes[x] {
      KeepTwice(w.routes[x].subscribers, w.boxes);
    }
    assert Prune(u).routes == u.routes;
  }

  lemma PrunedIsUsable(w: World, t: ThreadId)
    ensures Usable(Prune(w), t) <==> Usable(w, t)
    ensures TablesOf(Prune(w), t) == TablesOf(w, t)
    ensures Keep(RouteOf(Prune(w), t).subscribers, w.boxes) == Keep(RouteOf(w, t).subscribers, w.boxes)
  {
    PruneTwice(w);
    SameCount(w);
    KeepTwice(RouteOf(w, t).subscribers, w.boxes);
  }

  lemma SameCount(w: World)
    ensures |Prune(w).routes| == |w.routes|
  {
    var u := Prune(w);
    assert u.routes.Keys == w.routes.Keys;
    assert |u.routes| == |u.routes.Keys| && |w.routes| == |w.routes.Keys|;
  }

  // ------------------------------------------------ lossy notifications

  /** A delta for a known thread is spread to its listeners as it came. */
  lemma DeltasAreSpread(w: World, r: Raw, t: ThreadId)
    requires !w.exited && !Defers(w, r) && r.call.CDelta? && r.call.delta.Some? && t in w.routes
    requires var (thread, turn, item, _) := r.call.delta.value;
             thread == t && ValidId(t) && ValidId(turn) && ValidId(item)
    ensures var (_, turn, item, text) := r.call.delta.value;
            Step(w, Incoming(r)) == Spread(w, t, Event.Delta(r.call.command, turn, item, text))
  {
  }

  /** Usage updates and first item starts are spread too: every listener with
      room has the event waiting. */
  lemma PassingNoticesAreSpread(w: World, t: ThreadId, n: P.Notice, hint: ThreadId, k: nat, id: SubId)
    requires Usable(w, t) && RouterProjections.Since(TablesOf(w, t), Log(w, t), k)
    requires !All.Due(t, Log(w, t)[k..], TablesOf(w, t), n).Breaks? && All.PassingDue(TablesOf(w, t), n).Some?
    requires Listens(w, t, id) && Mail.Valid(w.boxes[id].m)
    requires var e := All.PassingDue(TablesOf(w, t), n).value;
             !Laws.Follows(WaitingFor(w, id), e) && Laws.LossyRoom(WaitingFor(w, id), e)
    ensures var v := Update(w, t, n, hint).0;
            Listens(v, t, id) && WaitingFor(v, id) == WaitingFor(w, id) + [All.PassingDue(TablesOf(w, t), n).value]
  {
    Found(w, t, hint);
    All.PassingAnswers(TablesOf(w, t), Log(w, t)[k..], t, n);
    var v := RouteForUpdate(w, t, hint).0;
    var (q, effect) := P.Apply(v.routes[t].p, t, n);
    RouterSafety.KeepIs(w.routes[t].subscribers, w.boxes);
    var u := SetRoute(v, t, v.routes[t].(p := q));
    PassingIsHeard(u, t, effect.passing, id);
  }

  // ------------------------------------------------- what cannot be handled

  /** The call did not decode. */
  predicate Garbled(c: Call) {
    match c
    case CThread(x) => x.None?
    case CTurnUp(x) => x.None?
    case CItemUp(x) => x.None?
    case CDelta(_, x) => x.None?
    case CItemDone(x) => x.None?
    case CUsage(x) => x.None?
    case CError(x) => x.None?
    case CTurnDone(x) => x.None?
    case COther(_) => false
  }

  /** Losing such a call would lose a terminal event. */
  predicate Vital(c: Call) { c.CItemDone? || c.CError? || c.CTurnDone? }

  /** A vital call that does not decode ends the connection, and tells whoever
      listens to its thread that it is invalid; any other is ignored. */
  lemma GarbledCalls(w: World, r: Raw, t: ThreadId, id: SubId)
    requires !w.exited && !Defers(w, r) && Garbled(r.call)
    ensures var v := Step(w, Incoming(r));
            && (Vital(r.call) ==> v.exited)
            && (Vital(r.call) && r.thread == Some(t) && Listens(w, t, id) && w.boxes[id].thread == t ==>
                  id in v.boxes && WaitingFor(v, id) == [Event.Invalidated(t, ProtocolDrift)] && v.boxes[id].m.closed)
            && (!Vital(r.call) ==> v == w)
  {
    if Vital(r.call) && r.thread == Some(t) && Listens(w, t, id) && w.boxes[id].thread == t {
      var u := InvalidateRoute(w, t, ProtocolDrift);
      assert !Listed(u, id);
      assert Step(w, Incoming(r)).boxes[id] == u.boxes[id];
      var e := Event.Invalidated(t, ProtocolDrift);
      assert Mail.EventsOf([Mail.Queued(Weight(e), true, e)]) == [e];
    }
  }

  /** A vital call for a thread that cannot be updated ends the connection; any
      other leaves the logs alone and the router running. */
  lemma UnusableThreads(w: World, r: Raw, t: ThreadId, n: P.Notice)
    requires !w.exited && !Defers(w, r) && Decoded(r.call) == Some((t, n)) && !r.call.CTurnUp? && !Usable(w, t)
    ensures var v := Step(w, Incoming(r));
            v.log == w.log && (v.exited <==> Vital(r.call))
  {
    Found(w, t, r.hint);
  }

  // ------------------------------------------------------------ leaving

  lemma {:induction false} WithoutIs(subs: seq<SubId>, id: SubId, k: SubId)
    ensures k in Without(subs, id) <==> k in subs && k != id
  {
    if subs != [] {
      WithoutIs(subs[..|subs| - 1], id, k);
      assert subs == subs[..|subs| - 1] + [subs[|subs| - 1]];
    }
  }

  /** Whoever unsubscribes is listed no more, and nobody else is removed. */
  lemma UnsubscribedLeaves(w: World, id: SubId, t: ThreadId, k: SubId)
    requires !w.exited && t in w.routes
    ensures var v := Step(w, Cmd(Unsubscribe(id, t)));
            t in v.routes && (k in v.routes[t].subscribers <==> k in w.routes[t].subscribers && k != id)
  {
    WithoutIs(w.routes[t].subscribers, id, k);
  }

  /** When the router stops, every listener with room is told why, after
      everything that was waiting for it. */
  lemma FarewellIsHeard(w: World, t: ThreadId, id: SubId, exit: nat)
    requires !w.exited && Listens(w, t, id) && w.boxes[id].thread == t && Mail.Valid(w.boxes[id].m)
    requires Laws.TerminalRoom(WaitingFor(w, id), Event.ConnectionClosed(exit))
    ensures var v := Step(w, Stop(exit));
            && v.exited && id in v.boxes && v.boxes[id].m.closed
            && WaitingFor(v, id) == WaitingFor(w, id) + [Event.ConnectionClosed(exit)]
  {
    Laws.TakesTerminal(w.boxes[id].m, Event.ConnectionClosed(exit));
    assert Listed(w, id);
  }

  /** Receiving takes the oldest event that waits. */
  lemma ReceivedIsOldest(w: World, id: SubId)
    requires id in w.boxes && WaitingFor(w, id) != []
    ensures var v := Step(w, Receive(id));
            && id in v.boxes && v.boxes[id].got == w.boxes[id].got + [WaitingFor(w, id)[0]]
            && WaitingFor(v, id) == WaitingFor(w, id)[1..]
  {
    assert Mail.Pop(w.boxes[id].m).events == w.boxes[id].m.events[1..];
  }

  // -------------------------------------------------------- turn starts

  /** A turn start is accepted exactly when the thread is usable and no other
      start of it is pending; the route then waits for it and defers. */
  lemma StartIsAccepted(w: World, t: ThreadId, attempt: nat, hint: ThreadId)
    ensures var (v, accepted) := BeginStart(w, t, attempt, hint);
            && (accepted <==> Usable(w, t) && RouteOf(w, t).pending.None?)
            && (accepted ==> t in v.routes && v.routes[t].pending == Some(attempt) && v.routes[t].defer)
            && v.log == w.log && v.boxes == w.boxes
  {
    Found(w, t, hint);
  }

  /** While the route defers, a notification of the thread is put aside, whole
      and in order, unless 256 or too many bytes wait already. */
  lemma DeferredIsKept(w: World, r: Late)
    requires !w.exited && Defers(w, r)
    ensures var t := r.thread.value;
            var route, v := w.routes[t], Step(w, Incoming(r));
            |route.deferred| < THREAD_EVENT_CAPACITY &&
            route.deferredBytes + r.weight <= THREAD_MAILBOX_BYTE_BUDGET ==>
              && !v.exited && v.log == w.log && v.boxes == w.boxes && t in v.routes
              && v.routes[t].deferred == route.deferred + [r] && v.routes[t].p == route.p
  {
  }
}
