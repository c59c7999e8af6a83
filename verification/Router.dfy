/**
 The client event router (src/codex/client.rs): routes by thread, bounded
 subscriber mailboxes, deferral of notifications while a turn start is
 pending. Each function is one handler call, which the single-owner router
 task runs to completion.

 Decoding is outside the model: a notification carries its decoded parameters,
 or None where decoding fails. Which idle route a full table gives up depends
 on the hash map's iteration order; every request carries the route that
 order would offer (`hint`), and an arbitrary hint covers every order.
 */
module Router {
  import opened Wrappers
  import opened ClientEvents
  import Mail = Mailbox
  import NameOrder
  import opened P = Projection
  import Totals

  type SubId = nat

  /** A subscriber's mailbox with its history: the thread it follows, what it
      was given on joining, the length of the thread's log at that moment, what
      its owner received, and whether its owner closed it. */
  datatype Box = Box(m: Mail.State, thread: ThreadId, replay: seq<Lifecycle>, since: nat, got: seq<Event>,
                     ownerClosed: bool)

  datatype Call =
    | CThread(thread: Option<ThreadId>)
    | CTurnUp(turnUp: Option<(ThreadId, Turn)>)
    | CItemUp(itemUp: Option<(ThreadId, TurnId, Item)>)
    | CDelta(command: bool, delta: Option<(ThreadId, TurnId, string, string)>)
    | CItemDone(itemDone: Option<(ThreadId, TurnId, Item)>)
    | CUsage(usage: Option<(ThreadId, TurnId, nat)>)
    | CError(error: Option<(ThreadId, TurnId, nat, bool)>)
    | CTurnDone(turnDone: Option<(ThreadId, Turn)>)
    | COther(name: string)

  /** A notification: the `threadId` found in its raw parameters, its memory
      weight, and the call it decodes to. */
  datatype Raw = Raw(thread: Option<ThreadId>, weight: nat, hint: ThreadId, call: Call)

  /** What can be deferred: anything but turn/started. */
  type Late = r: Raw | !r.call.CTurnUp? witness Raw(None, 0, "", COther(""))

  datatype Route = Route(subscribers: seq<SubId>, p: Projection, pending: Option<nat>, defer: bool,
                         deferred: seq<Late>, deferredBytes: nat)

  const NEW_ROUTE: Route := Route([], P.EMPTY, None, false, [], 0)

  /** `log` lists the terminal events dispatched for each thread. */
  datatype World = World(routes: map<ThreadId, Route>, boxes: map<SubId, Box>, log: map<ThreadId, seq<Lifecycle>>,
                         exited: bool)

  const START: World := World(map[], map[], map[], false)

  function Log(w: World, t: ThreadId): seq<Lifecycle> { if t in w.log then w.log[t] else [] }

  function SetRoute(w: World, t: ThreadId, r: Route): World { w.(routes := w.routes[t := r]) }

  predicate ValidId(s: string) { s != "" && |s| <= ROUTING_ID_BYTE_LIMIT }

  // ------------------------------------------------------- subscribers

  predicate Open(id: SubId, boxes: map<SubId, Box>) { id in boxes && !boxes[id].m.closed }

  /** retain: the subscribers whose mailbox is open. */
  function Keep(subs: seq<SubId>, boxes: map<SubId, Box>): seq<SubId> {
    if subs == [] then []
    else
      var n := |subs| - 1;
      Keep(subs[..n], boxes) + if Open(subs[n], boxes) then [subs[n]] else []
  }

  /** prune_subscribers */
  function Prune(w: World): World {
    w.(routes := map t | t in w.routes ::
         w.routes[t].(subscribers := Keep(w.routes[t].subscribers, w.boxes)))
  }

  function Lengths(routes: map<ThreadId, Route>): map<string, nat> {
    map t | t in routes :: |routes[t].subscribers|
  }

  function SubscriberCount(w: World): nat { Totals.Total(Lengths(w.routes)) }

  // ---------------------------------------------------------- dispatch

  function Offer(b: Box, t: ThreadId, e: Lifecycle): Box {
    if b.m.closed then b
    else
      var (m, ok) := Mail.PushTerminal(b.m, e);
      b.(m := if ok then m else Mail.Invalidate(b.m, t, Lagged))
  }

  function OfferAll(boxes: map<SubId, Box>, subs: seq<SubId>, t: ThreadId, e: Lifecycle): map<SubId, Box> {
    map id | id in boxes :: if id in subs then Offer(boxes[id], t, e) else boxes[id]
  }

  /** dispatch_terminal_to_route: a mailbox that cannot take the event is
      invalidated and its subscriber removed. */
  function Publish(w: World, t: ThreadId, e: Lifecycle): World
    requires t in w.routes
  {
    var subs := w.routes[t].subscribers;
    var boxes := OfferAll(w.boxes, subs, t, e);
    w.(boxes := boxes, routes := w.routes[t := w.routes[t].(subscribers := Keep(subs, boxes))],
       log := w.log[t := Log(w, t) + [e]])
  }

  function PushAll(boxes: map<SubId, Box>, subs: seq<SubId>, e: Passing): map<SubId, Box> {
    map id | id in boxes ::
      if id in subs then boxes[id].(m := Mail.PushLossy(boxes[id].m, e).0) else boxes[id]
  }

  /** dispatch_to_route: the lossy lane. */
  function Spread(w: World, t: ThreadId, e: Passing): World
    requires t in w.routes
  {
    var subs := w.routes[t].subscribers;
    var boxes := PushAll(w.boxes, subs, e);
    w.(boxes := boxes, routes := w.routes[t := w.routes[t].(subscribers := Keep(subs, boxes))])
  }

  /** dispatch */
  function SpreadIf(w: World, t: ThreadId, e: Passing): World {
    if t in w.routes then Spread(w, t, e) else w
  }

  function InvalidateAll(boxes: map<SubId, Box>, subs: seq<SubId>, t: ThreadId, reason: Reason): map<SubId, Box> {
    map id | id in boxes ::
      if id in subs then boxes[id].(m := Mail.Invalidate(boxes[id].m, t, reason)) else boxes[id]
  }

  /** invalidate_route */
  function InvalidateRoute(w: World, t: ThreadId, reason: Reason): World
    requires t in w.routes
  {
    var subs := w.routes[t].subscribers;
    w.(boxes := InvalidateAll(w.boxes, subs, t, reason),
       routes := w.routes[t := w.routes[t].(subscribers := [], p := P.Clear(w.routes[t].p, reason))])
  }

  // ------------------------------------------------------------ routes

  predicate Idle(r: Route) {
    && r.subscribers == [] && r.pending.None? && !r.defer && r.deferred == []
    && !r.p.threadStarted && r.p.started == {} && r.p.active == {} && r.p.startedItems == {}
    && r.p.completed.turns == map[] && r.p.usage == map[] && r.p.ledger.outcomes == map[]
  }

  function IdleRoutes(w: World): set<ThreadId> { set t | t in w.routes && Idle(w.routes[t]) }

  /** route_for_update: the flag says whether the route may be updated. */
  function RouteForUpdate(w: World, t: ThreadId, hint: ThreadId): (r: (World, bool))
    ensures r.1 ==> t in r.0.routes && r.0.routes[t].p.invalidated.None?
  {
    if !ValidId(t) then (w, false)
    else
      var v := Prune(w);
      if t in v.routes then (v, v.routes[t].p.invalidated.None?)
      else if |v.routes| < CLIENT_PROJECTION_CAPACITY then (SetRoute(v, t, NEW_ROUTE), true)
      else if IdleRoutes(v) == {} then (v, false)
      else
        var gone := if hint in IdleRoutes(v) then hint else NameOrder.Least(IdleRoutes(v));
        (SetRoute(v.(routes := v.routes - {gone}), t, NEW_ROUTE), true)
  }

  /** Store a projection and carry out what its step asked for. */
  function Act(w: World, t: ThreadId, q: Projection, effect: Effect): World
    requires t in w.routes
  {
    var v := SetRoute(w, t, w.routes[t].(p := q));
    match effect
    case Quiet => v
    case Terminal(e) => Publish(v, t, e)
    case Lossy(e) => Spread(v, t, e)
    case Drift => InvalidateRoute(v, t, ProtocolDrift)
  }

  function ActOn(w: World, t: ThreadId, n: Notice): World
    requires t in w.routes
  {
    var (q, effect) := P.Apply(w.routes[t].p, t, n);
    Act(w, t, q, effect)
  }

  /** The route_* functions: find the route and apply the notice. */
  function Update(w: World, t: ThreadId, n: Notice, hint: ThreadId): (World, bool) {
    var (v, found) := RouteForUpdate(w, t, hint);
    if found then (ActOn(v, t, n), true) else (v, false)
  }

  /** route_turn_started also refuses a turn that invalidates the route. */
  function StartTurn(w: World, t: ThreadId, turn: Turn, hint: ThreadId): (World, bool) {
    var (v, found) := RouteForUpdate(w, t, hint);
    if found then (ActOn(v, t, TurnUp(turn)), !P.TurnUpStep(v.routes[t].p, turn).1.Drift?) else (v, false)
  }

  // ----------------------------------------------------- notifications

  predicate Authoritative(c: Call) { c.CItemDone? || c.CError? || c.CTurnDone? }

  function Decoded(c: Call): Option<(ThreadId, Notice)> {
    match c
    case CThread(Some(t)) => Some((t, ThreadUp))
    case CTurnUp(Some((t, turn))) => Some((t, TurnUp(turn)))
    case CItemUp(Some((t, turn, item))) => Some((t, ItemUp(turn, item)))
    case CItemDone(Some((t, turn, item))) => Some((t, ItemDone(turn, item)))
    case CUsage(Some((t, turn, usage))) => Some((t, UsageNow(turn, usage)))
    case CError(Some((t, turn, weight, retry))) => Some((t, Problem(turn, weight, retry)))
    case CTurnDone(Some((t, turn))) => Some((t, TurnDone(turn)))
    case _ => None
  }

  /** report_invalid_notification */
  function ReportInvalid(w: World, authoritative: bool, t: Option<ThreadId>): World {
    if authoritative && t.Some? && t.value in w.routes then InvalidateRoute(w, t.value, ProtocolDrift) else w
  }

  function BoundedMethod(name: string): string {
    if |name| <= ROUTING_ID_BYTE_LIMIT then name else "oversized-method"
  }

  /** The dispatch of one notification that is not deferred. False is a fault:
      the router shuts the connection down. */
  function Direct(w: World, r: Raw): (World, bool) {
    match r.call
    case CDelta(command, Some((t, turn, item, text))) =>
      (if ValidId(t) && ValidId(turn) && ValidId(item)
       then SpreadIf(w, t, Event.Delta(command, turn, item, text)) else w, true)
    case CDelta(_, None) => (w, true)
    case COther(name) =>
      (if r.thread.Some? then SpreadIf(w, r.thread.value, Event.Unknown(BoundedMethod(name))) else w, true)
    case _ =>
      match Decoded(r.call)
      case None => (ReportInvalid(w, Authoritative(r.call), r.thread), !Authoritative(r.call))
      case Some((t, n)) =>
        var (v, found) := Update(w, t, n, r.hint);
        (v, found || !Authoritative(r.call))
  }

  predicate Defers(w: World, r: Raw) {
    r.thread.Some? && r.thread.value in w.routes && w.routes[r.thread.value].defer
  }

  predicate Overflows(route: Route, r: Raw) {
    |route.deferred| >= THREAD_EVENT_CAPACITY || route.deferredBytes + r.weight > THREAD_MAILBOX_BYTE_BUDGET
  }

  /** route_notification for anything but turn/started. */
  function NotifyLate(w: World, r: Late): (World, bool) {
    if Defers(w, r) then
      var t := r.thread.value;
      var route := w.routes[t];
      if Overflows(route, r) then (InvalidateRoute(w, t, Lagged), !Authoritative(r.call))
      else (SetRoute(w, t, route.(deferred := route.deferred + [r], deferredBytes := route.deferredBytes + r.weight)),
            true)
    else Direct(w, r)
  }

  /** Deliver notifications in order, up to the first fault. */
  function Replay(w: World, rs: seq<Late>): (World, bool) {
    if rs == [] then (w, true)
    else
      var (v, ok) := Replay(w, rs[..|rs| - 1]);
      if ok then NotifyLate(v, rs[|rs| - 1]) else (v, false)
  }

  /** stop_deferring_notifications */
  function StopDeferring(w: World, t: ThreadId): (World, bool) {
    if t in w.routes then
      Replay(SetRoute(w, t, w.routes[t].(defer := false, deferred := [], deferredBytes := 0)), w.routes[t].deferred)
    else (w, true)
  }

  /** route_notification */
  function Notify(w: World, r: Raw): (World, bool) {
    match r.call
    case CTurnUp(Some((t, turn))) => StopDeferring(StartTurn(w, t, turn, r.hint).0, t)
    case CTurnUp(None) => (w, true)
    case _ => NotifyLate(w, r)
  }

  // ---------------------------------------------------------- commands

  datatype Command =
    | Subscribe(id: SubId, thread: ThreadId, hint: ThreadId, ackOk: bool)
    | Unsubscribe(id: SubId, thread: ThreadId)
    | ObserveTurn(thread: ThreadId, attempt: nat, turn: Turn, hint: ThreadId)
    | Begin(thread: ThreadId, attempt: nat, hint: ThreadId, ackOk: bool)
    | Abort(thread: ThreadId, attempt: nat)
    | ObserveThread(thread: ThreadId, hint: ThreadId)
    | Ensure(thread: ThreadId, hint: ThreadId)
    | Release(thread: ThreadId)

  function Without(subs: seq<SubId>, id: SubId): seq<SubId> {
    if subs == [] then []
    else Without(subs[..|subs| - 1], id) + if subs[|subs| - 1] == id then [] else [subs[|subs| - 1]]
  }

  /** A mailbox as its subscriber first gets it. */
  function NewBox(w: World, t: ThreadId): Box
    requires t in w.routes
  {
    var e := Event.ThreadStarted(t);
    if w.routes[t].p.threadStarted
    then Box(Mail.PushTerminal(Mail.EMPTY, e).0, t, [e], |Log(w, t)|, [], false)
    else Box(Mail.EMPTY, t, [], |Log(w, t)|, [], false)
  }

  /** Subscribe. When the requester is gone (`ackOk` false) nobody holds the
      mailbox and the subscriber is removed again. */
  function Join(w: World, id: SubId, t: ThreadId, hint: ThreadId, ackOk: bool): World {
    var u := Prune(w);
    if SubscriberCount(u) >= CLIENT_SUBSCRIBER_CAPACITY then u
    else
      var (v, found) := RouteForUpdate(u, t, hint);
      if !found || |v.routes[t].subscribers| >= THREAD_SUBSCRIBER_CAPACITY || !ackOk then v
      else SetRoute(v.(boxes := v.boxes[id := NewBox(v, t)]), t,
                    v.routes[t].(subscribers := v.routes[t].subscribers + [id]))
  }

  /** finish_turn_start */
  function FinishTurnStart(w: World, t: ThreadId, attempt: nat): (World, bool) {
    if t in w.routes && w.routes[t].pending == Some(attempt)
    then StopDeferring(SetRoute(w, t, w.routes[t].(pending := None)), t)
    else (w, true)
  }

  /** BeginTurnStart up to its acknowledgement. */
  function BeginStart(w: World, t: ThreadId, attempt: nat, hint: ThreadId): (World, bool) {
    var (v, found) := RouteForUpdate(w, t, hint);
    if found && v.routes[t].pending.None?
    then (SetRoute(v, t, v.routes[t].(pending := Some(attempt), defer := true)), true)
    else (v, false)
  }

  predicate Releasable(r: Route) {
    r.subscribers == [] && r.pending.None? && !r.defer && r.deferred == [] && r.p.active == {}
  }

  /** ReleaseRoute */
  function ReleaseRoute(w: World, t: ThreadId): World {
    var v := Prune(w);
    if t in v.routes && Releasable(v.routes[t]) then v.(routes := v.routes - {t}) else v
  }

  /** handle_router_command; false is a fault. */
  function Handle(w: World, c: Command): (World, bool) {
    match c
    case Subscribe(id, t, hint, ackOk) => (Join(w, id, t, hint, ackOk), true)
    case Unsubscribe(id, t) =>
      (if t in w.routes
       then SetRoute(w, t, w.routes[t].(subscribers := Without(w.routes[t].subscribers, id))) else w, true)
    case ObserveTurn(t, attempt, turn, hint) => FinishTurnStart(StartTurn(w, t, turn, hint).0, t, attempt)
    case Begin(t, attempt, hint, ackOk) =>
      var (v, accepted) := BeginStart(w, t, attempt, hint);
      if accepted && !ackOk then FinishTurnStart(v, t, attempt) else (v, true)
    case Abort(t, attempt) => FinishTurnStart(w, t, attempt)
    case ObserveThread(t, hint) => (Update(w, t, ThreadUp, hint).0, true)
    case Ensure(t, hint) => (RouteForUpdate(w, t, hint).0, true)
    case Release(t) => (ReleaseRoute(w, t), true)
  }

  // -------------------------------------------------------------- runs

  datatype Input =
    | Cmd(command: Command)
    | Incoming(raw: Raw)
    | Receive(id: SubId)
    | DropOwner(id: SubId)
    | Stop(exit: nat)

  function Farewell(b: Box, exit: nat): Box {
    var (m, ok) := Mail.PushTerminal(b.m, Event.ConnectionClosed(exit));
    b.(m := if ok then Mail.Close(m) else Mail.Invalidate(b.m, b.thread, Lagged))
  }

  predicate Listed(w: World, id: SubId) {
    id in w.boxes && w.boxes[id].thread in w.routes && id in w.routes[w.boxes[id].thread].subscribers
  }

  /** close_subscribers */
  function Exit(w: World, exit: nat): World {
    World(map[], map id | id in w.boxes :: if Listed(w, id) then Farewell(w.boxes[id], exit) else w.boxes[id],
          w.log, true)
  }

  const TASK_FAILED: nat := 1
  const PROTOCOL_VIOLATION: nat := 2

  function OrExit(result: (World, bool), exit: nat): World {
    if result.1 then result.0 else Exit(result.0, exit)
  }

  function Step(w: World, i: Input): World {
    match i
    case Cmd(c) => if w.exited then w else OrExit(Handle(w, c), TASK_FAILED)
    case Incoming(r) => if w.exited then w else OrExit(Notify(w, r), PROTOCOL_VIOLATION)
    case Receive(id) =>
      if id in w.boxes && w.boxes[id].m.events != [] then
        var b := w.boxes[id];
        w.(boxes := w.boxes[id := b.(m := Mail.Pop(b.m), got := b.got + [b.m.events[0].event])])
      else w
    case DropOwner(id) =>
      if id in w.boxes then
        w.(boxes := w.boxes[id := w.boxes[id].(m := Mail.Close(w.boxes[id].m), ownerClosed := true)])
      else w
    case Stop(exit) => if w.exited then w else Exit(w, exit)
  }

  /** Subscription ids come from a counter, and Unsubscribe is sent only by the
      drop of a subscription, which has closed its mailbox first. */
  predicate Legal(w: World, i: Input) {
    match i
    case Cmd(Subscribe(id, _, _, _)) => id !in w.boxes
    case Cmd(Unsubscribe(id, _)) => id in w.boxes ==> w.boxes[id].ownerClosed
    case _ => true
  }

  predicate LegalRun(inputs: seq<Input>) {
    inputs == [] || (LegalRun(inputs[..|inputs| - 1]) && Legal(Run(inputs[..|inputs| - 1]), inputs[|inputs| - 1]))
  }

  function Run(inputs: seq<Input>): World {
    if inputs == [] then START else Step(Run(inputs[..|inputs| - 1]), inputs[|inputs| - 1])
  }
}
