/** No terminal event is lost silently, over every run of the router. */
module RouterSafety {
  import opened Wrappers
  import opened ClientEvents
  import Mail = Mailbox
  import NameOrder
  import P = Projection
  import opened Router
  import opened BoxHistory

  predicate DistinctIds(s: seq<SubId>) { forall i, j :: 0 <= i < j < |s| ==> s[i] != s[j] }

  /** Subscriber lists name existing mailboxes of their own thread, once each. */
  predicate SubsOk(w: World, t: ThreadId)
    requires t in w.routes
  {
    && DistinctIds(w.routes[t].subscribers)
    && (forall id :: id in w.routes[t].subscribers ==> id in w.boxes && w.boxes[id].thread == t)
  }

  predicate BoxesOk(w: World) {
    && (forall t :: t in w.routes ==> SubsOk(w, t))
    && (forall id :: id in w.boxes ==>
          BoxOk(w.boxes[id], Log(w, w.boxes[id].thread), Listed(w, id), w.exited))
  }

  lemma {:induction false} KeepIs(subs: seq<SubId>, boxes: map<SubId, Box>)
    ensures forall id :: id in Keep(subs, boxes) <==> id in subs && Open(id, boxes)
    ensures DistinctIds(subs) ==> DistinctIds(Keep(subs, boxes))
    ensures |Keep(subs, boxes)| <= |subs|
  {
    if subs != [] {
      var n := |subs| - 1;
      KeepIs(subs[..n], boxes);
      assert subs == subs[..n] + [subs[n]];
    }
  }

  lemma {:induction false} WithoutIs(subs: seq<SubId>, id: SubId)
    ensures forall k :: k in Without(subs, id) <==> k in subs && k != id
    ensures DistinctIds(subs) ==> DistinctIds(Without(subs, id))
    ensures |Without(subs, id)| <= |subs|
  {
    if subs != [] {
      var n := |subs| - 1;
      WithoutIs(subs[..n], id);
      assert subs == subs[..n] + [subs[n]];
      if DistinctIds(subs) { assert subs[n] !in subs[..n]; }
    }
  }

  // ------------------------------------------------- one handler at a time

  /** Dropping closed mailboxes from the lists. */
  lemma PruneOk(w: World)
    requires BoxesOk(w)
    ensures BoxesOk(Prune(w))
  {
    var v := Prune(w);
    forall t | t in v.routes ensures SubsOk(v, t) { KeepIs(w.routes[t].subscribers, w.boxes); }
    forall id | id in v.boxes ensures BoxOk(v.boxes[id], Log(v, v.boxes[id].thread), Listed(v, id), v.exited) {
      var t := w.boxes[id].thread;
      if t in w.routes { KeepIs(w.routes[t].subscribers, w.boxes); }
    }
  }

  /** Anything that leaves boxes, log and subscriber lists alone. */
  lemma SameListsOk(w: World, v: World)
    requires BoxesOk(w) && v.boxes == w.boxes && v.log == w.log && v.exited == w.exited
    requires forall t :: t in v.routes && v.routes[t].subscribers != [] ==>
               t in w.routes && v.routes[t].subscribers == w.routes[t].subscribers
    requires forall t :: t in w.routes && w.routes[t].subscribers != [] ==>
               t in v.routes && v.routes[t].subscribers == w.routes[t].subscribers
    ensures BoxesOk(v)
  {
    forall t | t in v.routes ensures SubsOk(v, t) {
      if v.routes[t].subscribers != [] { assert SubsOk(w, t); }
    }
    forall id | id in v.boxes ensures BoxOk(v.boxes[id], Log(v, v.boxes[id].thread), Listed(v, id), v.exited) {
      assert Listed(v, id) == Listed(w, id);
    }
  }

  /** Removing subscribers whose owners closed them. */
  lemma LeaveOk(w: World, t: ThreadId, id: SubId)
    requires BoxesOk(w) && t in w.routes && (id in w.boxes ==> w.boxes[id].ownerClosed)
    ensures BoxesOk(SetRoute(w, t, w.routes[t].(subscribers := Without(w.routes[t].subscribers, id))))
  {
    WithoutIs(w.routes[t].subscribers, id);
    var v := SetRoute(w, t, w.routes[t].(subscribers := Without(w.routes[t].subscribers, id)));
    forall u | u in v.routes ensures SubsOk(v, u) { assert SubsOk(w, u); }
    forall k | k in v.boxes ensures BoxOk(v.boxes[k], Log(v, v.boxes[k].thread), Listed(v, k), v.exited) {
      assert BoxOk(w.boxes[k], Log(w, w.boxes[k].thread), Listed(w, k), w.exited);
    }
  }

  /** A terminal event reaches every open subscriber or cuts it short. */
  lemma PublishOk(w: World, t: ThreadId, e: Lifecycle)
    requires BoxesOk(w) && t in w.routes && !w.exited
    ensures BoxesOk(Publish(w, t, e))
  {
    var v := Publish(w, t, e);
    var subs := w.routes[t].subscribers;
    assert SubsOk(w, t);
    KeepIs(subs, v.boxes);
    forall id | id in subs
      ensures BoxOk(v.boxes[id], Log(v, t), !v.boxes[id].m.closed, false) && v.boxes[id].thread == t
    {
      OfferOk(w.boxes[id], Log(w, t), t, e);
    }
    forall u | u in v.routes ensures SubsOk(v, u) { assert SubsOk(w, u); }
    forall id | id in v.boxes ensures BoxOk(v.boxes[id], Log(v, v.boxes[id].thread), Listed(v, id), v.exited) {
      var b := w.boxes[id];
      assert BoxOk(b, Log(w, b.thread), Listed(w, id), w.exited);
      if id !in subs && b.thread == t { GrowOk(b, Log(w, t), e, false); }
    }
  }

  /** A change confined to the mailboxes one route lists. */
  lemma LocalOk(w: World, v: World, t: ThreadId)
    requires BoxesOk(w) && t in w.routes && t in v.routes
    requires v.boxes.Keys == w.boxes.Keys && v.log == w.log && v.exited == w.exited
    requires v.routes == w.routes[t := v.routes[t]] && DistinctIds(v.routes[t].subscribers)
    requires forall id :: id in v.routes[t].subscribers ==> id in w.routes[t].subscribers
    requires forall id :: id in v.boxes && id !in w.routes[t].subscribers ==> v.boxes[id] == w.boxes[id]
    requires forall id :: id in w.routes[t].subscribers && id in v.boxes ==>
               v.boxes[id].thread == t &&
               BoxOk(v.boxes[id], Log(v, t), id in v.routes[t].subscribers, v.exited)
    ensures BoxesOk(v)
  {
    forall u | u in v.routes ensures SubsOk(v, u) { assert SubsOk(w, u) && SubsOk(w, t); }
    forall id | id in v.boxes ensures BoxOk(v.boxes[id], Log(v, v.boxes[id].thread), Listed(v, id), v.exited) {
      if id !in w.routes[t].subscribers {
        assert BoxOk(w.boxes[id], Log(w, w.boxes[id].thread), Listed(w, id), w.exited);
        assert Listed(v, id) == Listed(w, id);
      }
    }
  }

  lemma SpreadAllOk(w: World, t: ThreadId, e: Passing)
    requires BoxesOk(w) && t in w.routes && !w.exited
    ensures BoxesOk(Spread(w, t, e))
  {
    var v := Spread(w, t, e);
    var subs := w.routes[t].subscribers;
    assert SubsOk(w, t);
    KeepIs(subs, v.boxes);
    forall id | id in subs && id in v.boxes
      ensures v.boxes[id].thread == t && BoxOk(v.boxes[id], Log(v, t), id in v.routes[t].subscribers, v.exited)
    {
      SpreadOk(w.boxes[id], Log(w, t), e);
    }
    LocalOk(w, v, t);
  }

  lemma InvalidateRouteOk(w: World, t: ThreadId, reason: Reason)
    requires BoxesOk(w) && t in w.routes && !w.exited
    ensures BoxesOk(InvalidateRoute(w, t, reason))
  {
    var v := InvalidateRoute(w, t, reason);
    var subs := w.routes[t].subscribers;
    assert SubsOk(w, t);
    forall id | id in subs && id in v.boxes
      ensures v.boxes[id].thread == t && BoxOk(v.boxes[id], Log(v, t), id in v.routes[t].subscribers, v.exited)
    {
      InvalidateOk(w.boxes[id], Log(w, t), t, reason, false);
    }
    LocalOk(w, v, t);
  }

  /** Giving up routes nobody listens to, and adding one. */
  lemma FreshRouteOk(w: World, gone: set<ThreadId>, t: ThreadId)
    requires BoxesOk(w) && t !in w.routes
    requires forall g :: g in gone ==> g in w.routes && w.routes[g].subscribers == []
    ensures BoxesOk(SetRoute(w.(routes := w.routes - gone), t, NEW_ROUTE))
  {
    SameListsOk(w, SetRoute(w.(routes := w.routes - gone), t, NEW_ROUTE));
  }

  lemma RouteForUpdateOk(w: World, t: ThreadId, hint: ThreadId)
    requires BoxesOk(w) && !w.exited
    ensures var (v, found) := RouteForUpdate(w, t, hint);
            && BoxesOk(v) && !v.exited && v.boxes == w.boxes
            && (found ==> ValidId(t) && t in v.routes && v.routes[t].p.invalidated.None?)
  {
    if ValidId(t) {
      PruneOk(w);
      var v := Prune(w);
      if t !in v.routes && |v.routes| < CLIENT_PROJECTION_CAPACITY {
        FreshRouteOk(v, {}, t);
        assert v.routes - {} == v.routes;
      } else if t !in v.routes && IdleRoutes(v) != {} {
        FreshRouteOk(v, {if hint in IdleRoutes(v) then hint else NameOrder.Least(IdleRoutes(v))}, t);
      }
    }
  }

  lemma ActOk(w: World, t: ThreadId, q: P.Projection, effect: P.Effect)
    requires BoxesOk(w) && !w.exited && t in w.routes
    ensures var v := Act(w, t, q, effect); BoxesOk(v) && !v.exited && t in v.routes
  {
    var v := SetRoute(w, t, w.routes[t].(p := q));
    SameListsOk(w, v);
    match effect
    case Quiet =>
    case Terminal(e) => PublishOk(v, t, e);
    case Lossy(e) => SpreadAllOk(v, t, e);
    case Drift => InvalidateRouteOk(v, t, ProtocolDrift);
  }

  /** Whatever a projection step publishes is dispatched on its thread, once,
      and nothing else is dispatched on any thread. */
  lemma StepIsDispatched(w: World, t: ThreadId, n: P.Notice, u: ThreadId)
    requires t in w.routes
    ensures var effect := P.Apply(w.routes[t].p, t, n).1;
            Log(ActOn(w, t, n), u) == Log(w, u) + if u == t && effect.Terminal? then [effect.e] else []
  {
    var effect := P.Apply(w.routes[t].p, t, n).1;
    assert Log(w, u) + [] == Log(w, u);
  }

  lemma UpdateOk(w: World, t: ThreadId, n: P.Notice, hint: ThreadId)
    requires BoxesOk(w) && !w.exited
    ensures var v := Update(w, t, n, hint).0; BoxesOk(v) && !v.exited
  {
    RouteForUpdateOk(w, t, hint);
    var (v, found) := RouteForUpdate(w, t, hint);
    if found {
      var (q, effect) := P.Apply(v.routes[t].p, t, n);
      ActOk(v, t, q, effect);
    }
  }

  lemma DirectOk(w: World, r: Raw)
    requires BoxesOk(w) && !w.exited
    ensures var v := Direct(w, r).0; BoxesOk(v) && !v.exited
  {
    match r.call {
      case CDelta(command, Some((t, turn, item, text))) =>
        if t in w.routes { SpreadAllOk(w, t, Event.Delta(command, turn, item, text)); }
      case CDelta(_, None) =>
      case COther(name) =>
        if r.thread.Some? && r.thread.value in w.routes {
          SpreadAllOk(w, r.thread.value, Event.Unknown(BoundedMethod(name)));
        }
      case _ =>
        if Decoded(r.call).Some? {
          UpdateOk(w, Decoded(r.call).value.0, Decoded(r.call).value.1, r.hint);
        } else if r.thread.Some? && r.thread.value in w.routes {
          InvalidateRouteOk(w, r.thread.value, ProtocolDrift);
        }
    }
  }

  lemma NotifyLateOk(w: World, r: Late)
    requires BoxesOk(w) && !w.exited
    ensures var v := NotifyLate(w, r).0; BoxesOk(v) && !v.exited
  {
    if Defers(w, r) {
      var t := r.thread.value;
      if Overflows(w.routes[t], r) { InvalidateRouteOk(w, t, Lagged); } else { SameListsOk(w, NotifyLate(w, r).0); }
    } else {
      DirectOk(w, r);
    }
  }

  lemma {:induction false} ReplayOk(w: World, rs: seq<Late>)
    requires BoxesOk(w) && !w.exited
    ensures var v := Replay(w, rs).0; BoxesOk(v) && !v.exited
  {
    if rs != [] {
      ReplayOk(w, rs[..|rs| - 1]);
      NotifyLateOk(Replay(w, rs[..|rs| - 1]).0, rs[|rs| - 1]);
    }
  }

  lemma StopDeferringOk(w: World, t: ThreadId)
    requires BoxesOk(w) && !w.exited
    ensures var v := StopDeferring(w, t).0; BoxesOk(v) && !v.exited
  {
    if t in w.routes {
      var v := SetRoute(w, t, w.routes[t].(defer := false, deferred := [], deferredBytes := 0));
      SameListsOk(w, v);
      ReplayOk(v, w.routes[t].deferred);
    }
  }

  lemma StartTurnOk(w: World, t: ThreadId, turn: Turn, hint: ThreadId)
    requires BoxesOk(w) && !w.exited
    ensures var v := StartTurn(w, t, turn, hint).0; BoxesOk(v) && !v.exited
  {
    UpdateOk(w, t, P.TurnUp(turn), hint);
  }

  lemma NotifyOk(w: World, r: Raw)
    requires BoxesOk(w) && !w.exited
    ensures var v := Notify(w, r).0; BoxesOk(v) && !v.exited
  {
    match r.call {
      case CTurnUp(Some((t, turn))) =>
        StartTurnOk(w, t, turn, r.hint);
        StopDeferringOk(StartTurn(w, t, turn, r.hint).0, t);
      case CTurnUp(None) =>
      case _ => NotifyLateOk(w, r);
    }
  }

  lemma FinishOk(w: World, t: ThreadId, attempt: nat)
    requires BoxesOk(w) && !w.exited
    ensures var v := FinishTurnStart(w, t, attempt).0; BoxesOk(v) && !v.exited
  {
    if t in w.routes && w.routes[t].pending == Some(attempt) {
      var v := SetRoute(w, t, w.routes[t].(pending := None));
      SameListsOk(w, v);
      StopDeferringOk(v, t);
    }
  }

  lemma BeginOk(w: World, t: ThreadId, attempt: nat, hint: ThreadId)
    requires BoxesOk(w) && !w.exited
    ensures var v := BeginStart(w, t, attempt, hint).0; BoxesOk(v) && !v.exited
  {
    RouteForUpdateOk(w, t, hint);
    SameListsOk(RouteForUpdate(w, t, hint).0, BeginStart(w, t, attempt, hint).0);
  }

  lemma JoinOk(w: World, id: SubId, t: ThreadId, hint: ThreadId, ackOk: bool)
    requires BoxesOk(w) && !w.exited && id !in w.boxes
    ensures var v := Join(w, id, t, hint, ackOk); BoxesOk(v) && !v.exited
  {
    var u := Prune(w);
    PruneOk(w);
    RouteForUpdateOk(u, t, hint);
    var (v, found) := RouteForUpdate(u, t, hint);
    if SubscriberCount(u) < CLIENT_SUBSCRIBER_CAPACITY && found &&
       |v.routes[t].subscribers| < THREAD_SUBSCRIBER_CAPACITY && ackOk {
      JoinedOk(v, id, t);
    }
  }

  lemma JoinedOk(w: World, id: SubId, t: ThreadId)
    requires BoxesOk(w) && !w.exited && id !in w.boxes && t in w.routes && ValidId(t)
    ensures BoxesOk(SetRoute(w.(boxes := w.boxes[id := NewBox(w, t)]), t,
                             w.routes[t].(subscribers := w.routes[t].subscribers + [id])))
  {
    var v := SetRoute(w.(boxes := w.boxes[id := NewBox(w, t)]), t,
                      w.routes[t].(subscribers := w.routes[t].subscribers + [id]));
    NewBoxOk(w, t);
    assert SubsOk(w, t) && id !in w.routes[t].subscribers;
    forall u | u in v.routes ensures SubsOk(v, u) { assert SubsOk(w, u); }
    forall k | k in v.boxes ensures BoxOk(v.boxes[k], Log(v, v.boxes[k].thread), Listed(v, k), v.exited) {
      if k != id { assert BoxOk(w.boxes[k], Log(w, w.boxes[k].thread), Listed(w, k), w.exited); }
    }
  }

  lemma ReleaseOk(w: World, t: ThreadId)
    requires BoxesOk(w) && !w.exited
    ensures var v := ReleaseRoute(w, t); BoxesOk(v) && !v.exited
  {
    PruneOk(w);
    SameListsOk(Prune(w), ReleaseRoute(w, t));
  }

  lemma HandleOk(w: World, c: Command)
    requires BoxesOk(w) && !w.exited && Legal(w, Cmd(c))
    ensures var v := Handle(w, c).0; BoxesOk(v) && !v.exited
  {
    match c {
      case Subscribe(id, t, hint, ackOk) => JoinOk(w, id, t, hint, ackOk);
      case Unsubscribe(id, t) => if t in w.routes { LeaveOk(w, t, id); }
      case ObserveTurn(t, attempt, turn, hint) =>
        StartTurnOk(w, t, turn, hint);
        FinishOk(StartTurn(w, t, turn, hint).0, t, attempt);
      case Begin(t, attempt, hint, ackOk) =>
        BeginOk(w, t, attempt, hint);
        FinishOk(BeginStart(w, t, attempt, hint).0, t, attempt);
      case Abort(t, attempt) => FinishOk(w, t, attempt);
      case ObserveThread(t, hint) => UpdateOk(w, t, P.ThreadUp, hint);
      case Ensure(t, hint) => RouteForUpdateOk(w, t, hint);
      case Release(t) => ReleaseOk(w, t);
    }
  }

  lemma ExitOk(w: World, exit: nat)
    requires BoxesOk(w) && !w.exited
    ensures BoxesOk(Exit(w, exit))
  {
    var v := Exit(w, exit);
    forall id | id in v.boxes ensures BoxOk(v.boxes[id], Log(v, v.boxes[id].thread), Listed(v, id), v.exited) {
      var b := w.boxes[id];
      assert BoxOk(b, Log(w, b.thread), Listed(w, id), false);
      if Listed(w, id) { FarewellOk(b, Log(w, b.thread), exit); }
    }
  }

  /** A change to one mailbox by its own owner. */
  lemma OneBoxOk(w: World, id: SubId, c: Box)
    requires BoxesOk(w) && id in w.boxes && c.thread == w.boxes[id].thread
    requires BoxOk(c, Log(w, c.thread), Listed(w, id), w.exited)
    ensures BoxesOk(w.(boxes := w.boxes[id := c]))
  {
    var v := w.(boxes := w.boxes[id := c]);
    forall u | u in v.routes ensures SubsOk(v, u) { assert SubsOk(w, u); }
    forall k | k in v.boxes ensures BoxOk(v.boxes[k], Log(v, v.boxes[k].thread), Listed(v, k), v.exited) {
      assert Listed(v, k) == Listed(w, k);
      if k != id { assert BoxOk(w.boxes[k], Log(w, w.boxes[k].thread), Listed(w, k), w.exited); }
    }
  }

  lemma ReceiveStepOk(w: World, id: SubId)
    requires BoxesOk(w)
    ensures BoxesOk(Step(w, Receive(id)))
  {
    if id in w.boxes && w.boxes[id].m.events != [] {
      var b := w.boxes[id];
      ReceiveOk(b, Log(w, b.thread), Listed(w, id), w.exited);
      OneBoxOk(w, id, b.(m := Mail.Pop(b.m), got := b.got + [b.m.events[0].event]));
    }
  }

  lemma DropStepOk(w: World, id: SubId)
    requires BoxesOk(w)
    ensures BoxesOk(Step(w, DropOwner(id)))
  {
    if id in w.boxes {
      var b := w.boxes[id];
      DropOk(b, Log(w, b.thread), Listed(w, id), w.exited);
      OneBoxOk(w, id, b.(m := Mail.Close(b.m), ownerClosed := true));
    }
  }

  lemma StepOk(w: World, i: Input)
    requires BoxesOk(w) && Legal(w, i)
    ensures BoxesOk(Step(w, i))
  {
    match i {
      case Cmd(c) =>
        if !w.exited {
          HandleOk(w, c);
          if !Handle(w, c).1 { ExitOk(Handle(w, c).0, TASK_FAILED); }
        }
      case Incoming(r) =>
        if !w.exited {
          NotifyOk(w, r);
          if !Notify(w, r).1 { ExitOk(Notify(w, r).0, PROTOCOL_VIOLATION); }
        }
      case Receive(id) => ReceiveStepOk(w, id);
      case DropOwner(id) => DropStepOk(w, id);
      case Stop(exit) => if !w.exited { ExitOk(w, exit); }
    }
  }

  /** No silent terminal loss. After every run: a mailbox still open is listed
      on its route, and what its owner received and what is queued are exactly
      the terminal events dispatched since it joined; a closed mailbox was
      closed by its owner, or ends in one invalidation notice after a prefix of
      them, or saw all of them and then the end of the connection. */
  lemma {:induction false} NoSilentTerminalLoss(inputs: seq<Input>)
    requires LegalRun(inputs)
    ensures BoxesOk(Run(inputs))
  {
    if inputs != [] {
      NoSilentTerminalLoss(inputs[..|inputs| - 1]);
      StepOk(Run(inputs[..|inputs| - 1]), inputs[|inputs| - 1]);
    }
  }

  lemma LastOnly(b: Box, log: seq<Lifecycle>, listed: bool, exited: bool, i: nat)
    requires BoxOk(b, log, listed, exited) && i < |Seen(b)| && Seen(b)[i].Invalidated?
    ensures i == |Seen(b)| - 1 && b.m.closed && !listed
  {
    var sent: seq<Lifecycle> := Sent(b, log);
    if i < |sent| { var e: Lifecycle := sent[i]; assert !e.Invalidated?; }
  }

  /** A mailbox holds at most one invalidation notice, and only
      as its last terminal event. */
  lemma NoticeComesLast(inputs: seq<Input>, id: SubId, i: nat)
    requires LegalRun(inputs) && id in Run(inputs).boxes && i < |Seen(Run(inputs).boxes[id])|
    requires Seen(Run(inputs).boxes[id])[i].Invalidated?
    ensures i == |Seen(Run(inputs).boxes[id])| - 1
    ensures Run(inputs).boxes[id].m.closed && !Listed(Run(inputs), id)
  {
    NoSilentTerminalLoss(inputs);
    var w := Run(inputs);
    var b := w.boxes[id];
    assert BoxOk(b, Log(w, b.thread), Listed(w, id), w.exited);
    LastOnly(b, Log(w, b.thread), Listed(w, id), w.exited, i);
  }
}
