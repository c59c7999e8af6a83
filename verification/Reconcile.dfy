/**
 One reconciliation pass over the managed threads of an external endpoint
 (src/codex/external_recovery.rs, `reconcile_epoch`, `reconcile_thread`,
 `await_request`, `route_reconcile_event`, `ReconcileMailboxes`).

 The peer and the store are arbitrary: every request comes with the events
 that arrive before it ends and the way it ends, and a page is any function of
 how many were asked before and of the cursor sent. Serialised sizes are part
 of the data; None is a value that does not serialise.
 */
module Reconcile {
  import opened Wrappers
  import opened TerminalFold

  const EVENT_CAPACITY: nat := 256
  const MAILBOX_BYTES: nat := 4 * 1024 * 1024
  const ENDPOINT_BYTES: nat := 64 * 1024 * 1024
  const THREAD_BYTES: nat := 32 * 1024 * 1024
  const PAGE_CAPACITY: nat := 32
  const MANAGED_CAPACITY: nat := 64

  type ThreadId = string

  type EventFact = f: Fact | !f.Snapshot? && !f.Listing? witness QuietEvent

  datatype Event = Unowned | Closed(failure: EpochFailure) | About(thread: ThreadId, fact: EventFact)

  datatype StoreReply = Applied | Conflicting | Stale | Unstored

  /** An event, its serialised size, and what the store answers if asked to
      record it. */
  datatype Arrival = Arrival(event: Event, weight: Option<nat>, reply: StoreReply)

  datatype Ending<T> = Answer(value: T) | Broken(failure: EpochFailure)

  datatype Exchange<T> = Exchange(before: seq<Arrival>, ending: Ending<T>)

  datatype Snap = Snap(id: TurnId, status: TurnStatus, members: seq<Option<string>>)

  datatype Entry = Entry(turn: TurnId, item: Option<string>)

  datatype ThreadReply = ThreadReply(id: ThreadId, turns: seq<Snap>, bytes: Option<nat>)

  datatype Page<T> = Page(data: seq<T>, next: Option<string>, bytes: Option<nat>)

  datatype Request =
    | Resume(thread: ThreadId)
    | Read(thread: ThreadId)
    | TurnsPage(thread: ThreadId, cursor: Option<string>)
    | ItemsPage(thread: ThreadId, turn: TurnId, cursor: Option<string>)

  /** A request that was sent, and the arrivals routed while it was pending. */
  datatype Exchanged = Exchanged(request: Request, seen: seq<Arrival>)

  datatype Script = Script(
    resume: Exchange<ThreadReply>,
    read: Exchange<ThreadReply>,
    turnPage: (nat, Option<string>) -> Exchange<Page<Snap>>,
    itemPage: (nat, TurnId, Option<string>) -> Exchange<Page<Entry>>,
    apply: StoreReply,
    fence: StoreReply,
    marked: bool)

  /** An event that ends a turn or an item. */
  predicate IsTerminal(f: EventFact) { (f.TurnEvent? && f.status.Ended?) || (f.ItemEvent? && f.item.Some?) }

  /** The arrival ends a turn or an item of the thread. */
  predicate Ends(a: Arrival, t: ThreadId) {
    a.event.About? && a.event.thread == t && IsTerminal(a.event.fact)
  }

  predicate Holds(s: State, f: EventFact) {
    match f
    case TurnEvent(turn, Ended(how)) => turn in s.turns && s.turns[turn] == how
    case ItemEvent(turn, Some(k)) => (turn, k) in s.items
    case _ => true
  }

  /** The facts about a thread among the arrivals, in order. */
  function FactsIn(u: ThreadId, arrivals: seq<Arrival>): seq<EventFact> {
    if arrivals == [] then []
    else
      var n := |arrivals| - 1;
      FactsIn(u, arrivals[..n]) +
      if arrivals[n].event.About? && arrivals[n].event.thread == u then [arrivals[n].event.fact] else []
  }

  /** The facts about a thread in everything routed so far. */
  function FactsAbout(u: ThreadId, history: seq<Exchanged>): seq<EventFact> {
    if history == [] then []
    else FactsAbout(u, history[..|history| - 1]) + FactsIn(u, history[|history| - 1].seen)
  }

  /** One more arrival was routed during the last request. */
  function Noted(history: seq<Exchanged>, a: Arrival): seq<Exchanged>
    requires history != []
  {
    var n := |history| - 1;
    history[..n] + [Exchanged(history[n].request, history[n].seen + [a])]
  }

  lemma NotedFacts(u: ThreadId, history: seq<Exchanged>, a: Arrival)
    requires history != []
    ensures FactsAbout(u, Noted(history, a)) ==
            FactsAbout(u, history) +
            if a.event.About? && a.event.thread == u then [a.event.fact] else []
  {
    var n := |history| - 1;
    var seen := history[n].seen;
    assert Noted(history, a)[..n] == history[..n];
    assert (seen + [a])[..|seen|] == seen;
  }

  lemma SentFacts(u: ThreadId, history: seq<Exchanged>, request: Request)
    ensures FactsAbout(u, history + [Exchanged(request, [])]) == FactsAbout(u, history)
  {
    assert (history + [Exchanged(request, [])])[..|history|] == history;
  }

  function FactsOf(received: map<ThreadId, seq<EventFact>>, u: ThreadId): seq<EventFact> {
    if u in received then received[u] else []
  }

  /** What counts as received is what arrived during the requests sent. */
  ghost predicate Accounts(owned: set<ThreadId>, received: map<ThreadId, seq<EventFact>>, history: seq<Exchanged>) {
    forall u {:trigger FactsAbout(u, history)} :: u in owned ==> FactsOf(received, u) == FactsAbout(u, history)
  }

  lemma SentAccounts(
      owned: set<ThreadId>, received: map<ThreadId, seq<EventFact>>, history: seq<Exchanged>, request: Request)
    requires Accounts(owned, received, history)
    ensures Accounts(owned, received, history + [Exchanged(request, [])])
  {
    forall u | u in owned ensures FactsOf(received, u) == FactsAbout(u, history + [Exchanged(request, [])]) {
      SentFacts(u, history, request);
    }
  }

  lemma NotedAccounts(
      owned: set<ThreadId>, received: map<ThreadId, seq<EventFact>>, history: seq<Exchanged>, a: Arrival)
    requires Accounts(owned, received, history) && history != []
    requires a.event.About? ==> a.event.thread !in owned
    ensures Accounts(owned, received, Noted(history, a))
  {
    forall u | u in owned ensures FactsOf(received, u) == FactsAbout(u, Noted(history, a)) {
      NotedFacts(u, history, a);
    }
  }

  /** The arrival now counts as received, and is in the history. */
  predicate Routed(received: map<ThreadId, seq<EventFact>>, history: seq<Exchanged>, a: Arrival,
                   more: map<ThreadId, seq<EventFact>>, longer: seq<Exchanged>)
    requires history != [] && a.event.About?
  {
    var t := a.event.thread;
    more == received[t := FactsOf(received, t) + [a.event.fact]] && longer == Noted(history, a)
  }

  lemma RoutedAccounts(
      owned: set<ThreadId>, received: map<ThreadId, seq<EventFact>>, history: seq<Exchanged>, a: Arrival)
    requires Accounts(owned, received, history) && history != [] && a.event.About?
    ensures var t := a.event.thread;
            Accounts(owned, received[t := FactsOf(received, t) + [a.event.fact]], Noted(history, a))
  {
    var t := a.event.thread;
    var more := received[t := FactsOf(received, t) + [a.event.fact]];
    forall u | u in owned ensures FactsOf(more, u) == FactsAbout(u, Noted(history, a)) {
      NotedFacts(u, history, a);
    }
  }

  lemma {:induction false} FactsInHas(u: ThreadId, arrivals: seq<Arrival>, f: EventFact)
    ensures f in FactsIn(u, arrivals) <==> exists a :: a in arrivals && a.event == About(u, f)
  {
    if arrivals != [] {
      var n := |arrivals| - 1;
      FactsInHas(u, arrivals[..n], f);
      assert arrivals == arrivals[..n] + [arrivals[n]];
    }
  }

  lemma {:induction false} FactsAboutHas(u: ThreadId, history: seq<Exchanged>, i: nat, f: EventFact)
    requires i < |history| && f in FactsIn(u, history[i].seen)
    ensures f in FactsAbout(u, history)
  {
    var n := |history| - 1;
    if i < n {
      assert history[..n][i] == history[i];
      FactsAboutHas(u, history[..n], i, f);
    }
  }

  /** The entry is of this request; everything that arrived before the answer
      was routed, or a first part of it when the request did not succeed. */
  predicate Ran<T>(e: Exchanged, request: Request, x: Exchange<T>, ok: bool) {
    e.request == request && e.seen <= x.before && (ok ==> e.seen == x.before)
  }

  /** The entries are one request per cursor, in order. */
  predicate PagesRan<T>(log: seq<Exchanged>, ask: Option<string> -> Request,
                        page: (nat, Option<string>) -> Exchange<Page<T>>, asked: seq<Option<string>>, ok: bool) {
    && |log| == |asked|
    && forall i :: 0 <= i < |log| ==> Ran(log[i], ask(asked[i]), page(i, asked[i]), ok || i < |log| - 1)
  }

  function AskTurns(t: ThreadId): Option<string> -> Request { c => TurnsPage(t, c) }
  function AskItems(t: ThreadId, turn: TurnId): Option<string> -> Request { c => ItemsPage(t, turn, c) }

  lemma PagesNext<T>(log: seq<Exchanged>, e: Exchanged, ask: Option<string> -> Request,
                     page: (nat, Option<string>) -> Exchange<Page<T>>, asked: seq<Option<string>>,
                     cursor: Option<string>, ok: bool)
    requires PagesRan(log, ask, page, asked, true)
    requires Ran(e, ask(cursor), page(|asked|, cursor), ok)
    ensures PagesRan(log + [e], ask, page, asked + [cursor], ok)
  {
  }

  lemma PagesPart<T>(log: seq<Exchanged>, ask: Option<string> -> Request,
                     page: (nat, Option<string>) -> Exchange<Page<T>>, asked: seq<Option<string>>)
    ensures PagesRan(log, ask, page, asked, true) ==> PagesRan(log, ask, page, asked, false)
  {
  }

  type Chain = (nat, seq<Option<string>>)

  /** The pages of the turn are the entries from its base on. */
  predicate ChainRan(log: seq<Exchanged>, t: ThreadId, turn: TurnId, chain: Chain,
                     itemPage: (nat, TurnId, Option<string>) -> Exchange<Page<Entry>>) {
    && chain.0 + |chain.1| <= |log|
    && PagesRan(log[chain.0..chain.0 + |chain.1|], AskItems(t, turn), PagesOf(itemPage, turn, chain.0), chain.1, true)
  }

  /** Every entry is a page of exactly the chain at its place. */
  predicate InChain(log: seq<Exchanged>, t: ThreadId, chains: map<TurnId, Chain>, i: nat)
    requires i < |log|
  {
    && log[i].request.ItemsPage? && log[i].request.thread == t && log[i].request.turn in chains
    && var chain := chains[log[i].request.turn];
       chain.0 <= i < chain.0 + |chain.1|
  }

  predicate OnlyItems(log: seq<Exchanged>, t: ThreadId) {
    forall i :: 0 <= i < |log| ==> log[i].request.ItemsPage? && log[i].request.thread == t
  }

  /** The item pages read: the chains of the turns, one after another, with
      nothing besides. */
  predicate ItemsRan(log: seq<Exchanged>, t: ThreadId, chains: map<TurnId, Chain>,
                     itemPage: (nat, TurnId, Option<string>) -> Exchange<Page<Entry>>) {
    && (forall i :: 0 <= i < |log| ==> InChain(log, t, chains, i))
    && (forall turn :: turn in chains ==> ChainRan(log, t, turn, chains[turn], itemPage))
  }

  lemma ItemsNext(log: seq<Exchanged>, more: seq<Exchanged>, t: ThreadId, chains: map<TurnId, Chain>, turn: TurnId,
                  asked: seq<Option<string>>, itemPage: (nat, TurnId, Option<string>) -> Exchange<Page<Entry>>)
    requires ItemsRan(log, t, chains, itemPage) && turn !in chains
    requires PagesRan(more, AskItems(t, turn), PagesOf(itemPage, turn, |log|), asked, true)
    ensures ItemsRan(log + more, t, chains[turn := (|log|, asked)], itemPage)
  {
    var all, next := log + more, chains[turn := (|log|, asked)];
    forall i | 0 <= i < |all| ensures InChain(all, t, next, i) {
      if i < |log| {
        assert InChain(log, t, chains, i);
      } else {
        assert all[i] == more[i - |log|];
        assert Ran(more[i - |log|], AskItems(t, turn)(asked[i - |log|]),
                   PagesOf(itemPage, turn, |log|)(i - |log|, asked[i - |log|]), true);
      }
    }
    forall u | u in next ensures ChainRan(all, t, u, next[u], itemPage) {
      if u == turn {
        assert all[|log|..|log| + |asked|] == more;
      } else {
        assert ChainRan(log, t, u, chains[u], itemPage);
        var c := chains[u];
        assert all[c.0..c.0 + |c.1|] == log[c.0..c.0 + |c.1|];
      }
    }
  }

  /** Where the requests of one thread stand: two reads of the thread, then
      turn pages, then item pages. */
  predicate Layout(log: seq<Exchanged>, t: ThreadId, turns: nat, items: nat) {
    && |log| <= 2 + turns + items
    && (|log| > 0 ==> log[0].request == Resume(t)) && (|log| > 1 ==> log[1].request == Read(t))
    && (forall i :: 2 <= i < |log| && i < 2 + turns ==> log[i].request.TurnsPage? && log[i].request.thread == t)
    && (forall i :: 2 + turns <= i < |log| ==> log[i].request.ItemsPage? && log[i].request.thread == t)
  }

  /** The pages read for one thread, and the facts they and the events gave. */
  datatype Reading = Reading(turnPages: seq<Option<string>>, itemPages: nat, chains: map<TurnId, Chain>,
                             facts: seq<Fact>)

  /** terminal_from_event and the store's answer: why recording live fails. */
  function LiveFailure(f: EventFact, reply: StoreReply): Option<EpochFailure> {
    if f.QuietEvent? then None
    else if !IsTerminal(f) then Some(Violation)
    else
      match reply
      case Applied | Conflicting => None
      case Stale => Some(ConnectionLost)
      case Unstored => Some(StoreFailed)
  }

  /** The cursor an answered page gave. */
  function NextOf<T>(x: Exchange<Page<T>>): Option<string> {
    if x.ending.Answer? then x.ending.value.next else None
  }

  /** The pages asked for were all answered; the first was asked for without a
      cursor and each later one with the cursor the page before gave; no cursor
      was sent twice. */
  predicate Linked<T>(page: (nat, Option<string>) -> Exchange<Page<T>>, asked: seq<Option<string>>) {
    && (asked != [] ==> asked[0].None?)
    && (forall i :: 0 <= i < |asked| ==> page(i, asked[i]).ending.Answer?)
    && (forall i :: 1 <= i < |asked| ==> asked[i].Some? && NextOf(page(i - 1, asked[i - 1])) == asked[i])
    && (forall i, j :: 0 <= i < j < |asked| ==> asked[i] != asked[j])
  }

  /** The whole chain: the last page gave no cursor. */
  predicate Followed<T>(page: (nat, Option<string>) -> Exchange<Page<T>>, asked: seq<Option<string>>) {
    asked != [] && Linked(page, asked) && NextOf(page(|asked| - 1, asked[|asked| - 1])).None?
  }

  function SnapFact(x: Snap): Fact { Snapshot(x.id, x.status, x.members) }

  function EntryFact(x: Entry): Fact { Listing(x.turn, x.item) }

  /** Every turn on the pages is among the facts. */
  predicate TurnsIn(page: (nat, Option<string>) -> Exchange<Page<Snap>>, asked: seq<Option<string>>, facts: seq<Fact>) {
    forall i, x :: 0 <= i < |asked| && page(i, asked[i]).ending.Answer? && x in page(i, asked[i]).ending.value.data ==>
      SnapFact(x) in facts
  }

  class Pass {
    const managed: set<ThreadId>
    const uncertain: set<ThreadId>
    var ready: set<ThreadId>
    var events: map<ThreadId, seq<EventFact>>
    var threadBytes: map<ThreadId, nat>
    var endpointBytes: nat
    var overflow: set<ThreadId>
    /** Events routed for each certain thread, and the threads that reconciled. */
    ghost var received: map<ThreadId, seq<EventFact>>
    ghost var settled: set<ThreadId>
    /** What reached the store. */
    ghost var submitted: map<ThreadId, State>
    ghost var recorded: set<(ThreadId, EventFact)>
    /** The requests sent, in order. */
    ghost var history: seq<Exchanged>
    /** Threads that had an event dropped or a reply over the byte limits. */
    ghost var spilled: set<ThreadId>

    /** Reading leaves these alone; what spilled stays so. */
    ghost predicate Steady(ready: set<ThreadId>, settled: set<ThreadId>, submitted: map<ThreadId, State>,
                           spilled: set<ThreadId>)
      reads `ready, `settled, `submitted, `spilled
    {
      this.ready == ready && this.settled == settled && this.submitted == submitted && spilled <= this.spilled
    }

    function Queue(t: ThreadId): seq<EventFact>
      reads `events
    {
      if t in events then events[t] else []
    }

    ghost function Got(t: ThreadId): seq<EventFact>
      reads `received
    {
      FactsOf(received, t)
    }

    ghost predicate Kept(t: ThreadId, f: EventFact)
      reads `submitted, `recorded
    {
      (t in submitted && Holds(submitted[t], f)) || (t, f) in recorded
    }

    /** The mailbox of a thread still to be reconciled has lost nothing. */
    ghost predicate Waiting(t: ThreadId)
      reads `ready, `overflow, `events, `received
    {
      t in managed && t !in uncertain && t !in ready && t !in overflow ==> Queue(t) == Got(t)
    }

    /** Every terminal event of the thread has reached the store. */
    ghost predicate Covered(t: ThreadId)
      reads `received, `submitted, `recorded
    {
      forall f :: f in Got(t) && IsTerminal(f) ==> Kept(t, f)
    }

    ghost predicate Tied()
      reads `received, `history
    {
      Accounts(managed - uncertain, received, history)
    }

    ghost predicate ValidBut(t: ThreadId)
      reads `ready, `settled, `overflow, `events, `received, `submitted, `recorded, `history, `spilled
    {
      && Tied() && settled <= ready && settled !! uncertain && overflow <= spilled
      && (forall u :: u != t ==> Waiting(u))
      && (forall u :: u in settled ==> Covered(u))
    }

    ghost predicate Valid()
      reads `ready, `settled, `overflow, `events, `received, `submitted, `recorded, `history, `spilled
    {
      && Tied() && settled <= ready && settled !! uncertain && overflow <= spilled
      && (forall u :: Waiting(u))
      && (forall u :: u in settled ==> Covered(u))
    }

    constructor (managed: set<ThreadId>, uncertain: set<ThreadId>)
      ensures this.managed == managed && this.uncertain == uncertain && Valid()
      ensures ready == {} && settled == {} && history == []
    {
      this.managed, this.uncertain := managed, uncertain;
      ready, events, threadBytes, endpointBytes, overflow := {}, map[], map[], 0, {};
      received, settled, submitted, recorded, history, spilled := map[], {}, map[], {}, [], {};
    }

    function Held(t: ThreadId): nat
      reads `threadBytes
    {
      if t in threadBytes then threadBytes[t] else 0
    }

    /** One more event of this size would break a limit. */
    predicate Full(t: ThreadId, bytes: nat)
      reads `events, `threadBytes, `endpointBytes
    {
      |Queue(t)| >= EVENT_CAPACITY || Held(t) + bytes > MAILBOX_BYTES || endpointBytes + bytes > ENDPOINT_BYTES
    }

    /** ReconcileMailboxes::push; false is a value that does not serialise. A
        thread overflows exactly when a limit would break; otherwise the event
        is queued and counted. */
    method Push(t: ThreadId, f: EventFact, weight: Option<nat>) returns (ok: bool)
      modifies `events, `threadBytes, `endpointBytes, `overflow, `spilled
      ensures spilled == old(spilled) + (overflow - old(overflow))
      ensures ok <==> t in old(overflow) || weight.Some?
      ensures overflow == if weight.Some? && old(Full(t, weight.value)) then old(overflow) + {t} else old(overflow)
      ensures t !in old(overflow) && weight.Some? ==>
                (t in overflow <==>
                   || |old(Queue(t))| >= 256 || old(Held(t)) + weight.value > 4 * 1024 * 1024
                   || old(endpointBytes) + weight.value > 64 * 1024 * 1024)
      ensures t !in overflow && ok ==>
                && events == old(events)[t := old(Queue(t)) + [f]]
                && Held(t) == old(Held(t)) + weight.value && endpointBytes == old(endpointBytes) + weight.value
      ensures t in overflow || !ok ==> endpointBytes == old(endpointBytes)
      ensures t in overflow || !ok ==> forall u :: u != t ==> Queue(u) == old(Queue(u))
      ensures !ok ==> Queue(t) == old(Queue(t)) && overflow == old(overflow)
    {
      if t in overflow {
        return true;
      }
      if weight.None? {
        return false;
      }
      var bytes := weight.value;
      var queue := if t in events then events[t] else [];
      var held := if t in threadBytes then threadBytes[t] else 0;
      events := events[t := queue];
      threadBytes := threadBytes[t := held];
      if |queue| >= EVENT_CAPACITY || held + bytes > MAILBOX_BYTES || endpointBytes + bytes > ENDPOINT_BYTES {
        overflow, spilled := overflow + {t}, spilled + {t};
        return true;
      }
      threadBytes := threadBytes[t := held + bytes];
      endpointBytes := endpointBytes + bytes;
      events := events[t := queue + [f]];
      assert events == old(events)[t := old(Queue(t)) + [f]];
      return true;
    }

    /** ReconcileMailboxes::take */
    method Take(t: ThreadId) returns (fs: seq<EventFact>)
      modifies `events, `threadBytes, `endpointBytes
      ensures fs == old(Queue(t)) && Queue(t) == [] && forall u :: u != t ==> Queue(u) == old(Queue(u))
      ensures endpointBytes == if old(endpointBytes) >= old(Held(t)) then old(endpointBytes) - old(Held(t)) else 0
      ensures Held(t) == 0 && forall u :: u != t ==> Held(u) == old(Held(u))
    {
      fs := if t in events then events[t] else [];
      var bytes := if t in threadBytes then threadBytes[t] else 0;
      endpointBytes := if endpointBytes >= bytes then endpointBytes - bytes else 0;
      threadBytes := threadBytes - {t};
      events := events - {t};
    }

    /** apply_live_event */
    method ApplyLive(t: ThreadId, f: EventFact, reply: StoreReply) returns (r: Option<EpochFailure>)
      modifies `recorded
      ensures r == LiveFailure(f, reply)
      ensures r.None? <==> f.QuietEvent? || (IsTerminal(f) && (reply.Applied? || reply.Conflicting?))
      ensures r.Some? ==>
                r.value == if !IsTerminal(f) then Violation else if reply.Stale? then ConnectionLost else StoreFailed
      ensures recorded == old(recorded) + if r.None? && IsTerminal(f) then {(t, f)} else {}
    {
      match f {
        case ForeignEvent => return Some(Violation);
        case QuietEvent => return None;
        case TurnEvent(_, status) => if !status.Ended? { return Some(Violation); }
        case ItemEvent(_, item) => if item.None? { return Some(Violation); }
      }
      match reply {
        case Applied | Conflicting =>
          recorded := recorded + {(t, f)};
          return None;
        case Stale => return Some(ConnectionLost);
        case Unstored => return Some(StoreFailed);
      }
    }

    /** Why an event fails the pass, if it does. */
    function RouteFailure(a: Arrival, ready: set<ThreadId>, overflow: set<ThreadId>): Option<EpochFailure>
      requires a.event.About?
    {
      var t := a.event.thread;
      if t !in managed then Some(Violation)
      else if t in uncertain then None
      else if t in ready then LiveFailure(a.event.fact, a.reply)
      else if t in overflow || a.weight.Some? then None
      else Some(Violation)
    }

    /** An arrival nobody is waiting for. */
    ghost method Note(a: Arrival)
      requires Valid() && history != []
      requires a.event.Unowned? || (a.event.About? && a.event.thread in uncertain)
      modifies `history
      ensures Valid() && history == Noted(old(history), a)
    {
      NotedAccounts(managed - uncertain, received, history, a);
      history := Noted(history, a);
    }

    ghost method Send(request: Request)
      requires Valid()
      modifies `history
      ensures Valid() && history == old(history) + [Exchanged(request, [])]
    {
      SentAccounts(managed - uncertain, received, history, request);
      history := history + [Exchanged(request, [])];
    }

    /** route_reconcile_event. An event counts as received once it is routed;
        one that fails the pass is the last thing the pass sees. */
    method RouteEvent(a: Arrival) returns (r: Option<EpochFailure>)
      requires Valid() && !a.event.Closed? && history != []
      modifies this
      ensures Valid() && Steady(old(ready), old(settled), old(submitted), old(spilled))
      ensures old(recorded) <= recorded
      ensures a.event.Unowned? ==> r.None?
      ensures a.event.About? ==> r == RouteFailure(a, old(ready), old(overflow))
      ensures a.event.About? ==>
                var t, f := a.event.thread, a.event.fact;
                (r.None? <==>
                   && t in managed
                   && (|| t in uncertain
                       || (t in ready && f.QuietEvent?)
                       || (t in ready && IsTerminal(f) && (a.reply.Applied? || a.reply.Conflicting?))
                       || (t !in ready && (t in old(overflow) || a.weight.Some?))))
      ensures r.None? && a.event.About? && a.event.thread !in uncertain ==>
                received == old(received)[a.event.thread := old(Got(a.event.thread)) + [a.event.fact]]
      ensures r.Some? || a.event.Unowned? || a.event.thread in uncertain ==> received == old(received)
      ensures r.Some? ==> history == old(history) && overflow == old(overflow)
      ensures r.None? ==> history == Noted(old(history), a)
    {
      if a.event.Unowned? {
        Note(a);
        return None;
      }
      var t, f := a.event.thread, a.event.fact;
      if t !in managed {
        return Some(Violation);
      }
      if t in uncertain {
        Note(a);
        return None;
      }
      if t in ready {
        r := RecordLive(a);
      } else {
        r := Buffer(a);
      }
    }

    /** An event of a thread already reconciled goes to the store. */
    method RecordLive(a: Arrival) returns (r: Option<EpochFailure>)
      requires Valid() && history != [] && a.event.About? && a.event.thread in ready
      modifies `recorded, `received, `history
      ensures Valid() && old(recorded) <= recorded && r == LiveFailure(a.event.fact, a.reply)
      ensures r.Some? ==> received == old(received) && history == old(history)
      ensures r.None? ==> Routed(old(received), old(history), a, received, history)
    {
      var t, f := a.event.thread, a.event.fact;
      r := ApplyLive(t, f, a.reply);
      if r.None? {
        RoutedAccounts(managed - uncertain, received, history, a);
        received := received[t := FactsOf(received, t) + [f]];
        history := Noted(history, a);
      }
      forall u ensures Waiting(u) { assert old(Waiting(u)); }
      forall u | u in settled ensures Covered(u) { assert old(Covered(u)); }
    }

    /** An event of a thread still to be reconciled waits for its turn. */
    method Buffer(a: Arrival) returns (r: Option<EpochFailure>)
      requires Valid() && history != [] && a.event.About?
      requires a.event.thread in managed && a.event.thread !in uncertain && a.event.thread !in ready
      modifies `events, `threadBytes, `endpointBytes, `overflow, `received, `history, `spilled
      ensures Valid() && old(spilled) <= spilled
      ensures r == if a.event.thread in old(overflow) || a.weight.Some? then None else Some(Violation)
      ensures r.Some? ==> received == old(received) && history == old(history) && overflow == old(overflow)
      ensures r.None? ==> Routed(old(received), old(history), a, received, history)
    {
      var t, f := a.event.thread, a.event.fact;
      var ok := Push(t, f, a.weight);
      r := if ok then None else Some(Violation);
      if ok {
        RoutedAccounts(managed - uncertain, received, history, a);
        received := received[t := FactsOf(received, t) + [f]];
        history := Noted(history, a);
      }
      forall u ensures Waiting(u) { assert old(Waiting(u)); }
      forall u | u in settled ensures Covered(u) { assert old(Covered(u)); }
    }

    /** The arrival ends whatever request is pending. */
    predicate Stops(a: Arrival, ready: set<ThreadId>, overflow: set<ThreadId>, e: EpochFailure) {
      || a.event == Closed(e)
      || (a.event.About? && RouteFailure(a, ready, overflow) == Some(e))
    }

    /** The request fails once its first n arrivals are routed. */
    predicate Fails<T>(x: Exchange<T>, n: nat, ready: set<ThreadId>, overflow: set<ThreadId>, e: EpochFailure) {
      if n < |x.before| then Stops(x.before[n], ready, overflow, e) else x.ending == Broken(e)
    }

    /** Something about the request makes it fail. */
    predicate Breaks<T>(x: Exchange<T>, ready: set<ThreadId>, e: EpochFailure) {
      x.ending == Broken(e) || exists i :: 0 <= i < |x.before| && Stops(x.before[i], ready, {}, e)
    }

    lemma FailsBreaks<T>(x: Exchange<T>, n: nat, ready: set<ThreadId>, overflow: set<ThreadId>, e: EpochFailure)
      requires Fails(x, n, ready, overflow, e)
      ensures Breaks(x, ready, e)
    {
      if n < |x.before| {
        assert Stops(x.before[n], ready, {}, e);
      }
    }

    /** The request breaks, its answer does not serialise, or it is about
        another thread. */
    predicate SnapSnag(t: ThreadId, x: Exchange<ThreadReply>, ready: set<ThreadId>, e: Failure) {
      || (e.Epoch? && Breaks(x, ready, e.failure))
      || (x.ending.Answer? && x.ending.value.bytes.None? && e == Epoch(Violation))
      || (x.ending.Answer? && x.ending.value.id != t && e == Uncertain(ProtocolViolation))
    }

    /** The page that comes next breaks or does not serialise. */
    predicate PageSnag<T>(page: (nat, Option<string>) -> Exchange<Page<T>>, asked: seq<Option<string>>,
                          cursor: Option<string>, ready: set<ThreadId>, e: Failure) {
      var x := page(|asked|, cursor);
      && Reached(page, asked, cursor)
      && (|| (e.Epoch? && Breaks(x, ready, e.failure))
          || (x.ending.Answer? && x.ending.value.bytes.None? && e == Epoch(Violation)))
    }

    /** A page on the way is at fault, or there are too many or a cursor repeats. */
    ghost predicate ChainSnag<T>(page: (nat, Option<string>) -> Exchange<Page<T>>, room: nat, ready: set<ThreadId>,
                                 e: Failure) {
      || (exists asked, cursor :: PageSnag(page, asked, cursor, ready, e))
      || (e == Uncertain(PageLimit) && exists asked :: Stuck(page, asked, room))
    }

    /** The same for the items of a turn; an item of another turn is a fault. */
    ghost predicate ItemsSnag(page: (nat, Option<string>) -> Exchange<Page<Entry>>, turn: TurnId, room: nat,
                              ready: set<ThreadId>, e: Failure) {
      || ChainSnag(page, room, ready, e)
      || (e == Uncertain(ProtocolViolation) && exists asked, cursor :: Strays(page, asked, cursor, turn))
    }

    /** After the chains of other turns, the pages of this turn are at fault. */
    ghost predicate TurnSnag(t: ThreadId, itemPage: (nat, TurnId, Option<string>) -> Exchange<Page<Entry>>,
                             log: seq<Exchanged>, chains: map<TurnId, Chain>, facts: seq<Fact>, turn: TurnId,
                             ready: set<ThreadId>, e: Failure) {
      && |log| <= PAGE_CAPACITY && AllListedIn(log, t, chains, itemPage, facts) && turn !in chains
      && ItemsSnag(PagesOf(itemPage, turn, |log|), turn, PAGE_CAPACITY - |log|, ready, e)
    }

    /** What is wrong with the answers to the requests about the thread. */
    ghost predicate Unread(t: ThreadId, script: Script, ready: set<ThreadId>, e: Failure) {
      || SnapSnag(t, script.resume, ready, e) || SnapSnag(t, script.read, ready, e)
      || ChainSnag(script.turnPage, PAGE_CAPACITY, ready, e)
      || exists log, chains, facts, turn :: TurnSnag(t, script.itemPage, log, chains, facts, turn, ready, e)
    }

    /** Why the thread cannot be read: too many bytes, a faulty answer, or
        answers that do not fold. */
    ghost predicate Snagged(t: ThreadId, script: Script, e: Failure)
      reads `ready, `spilled
    {
      (e == Uncertain(BufferOverflow) && t in spilled) || Unread(t, script, ready, e) || Clash(script, e)
    }

    /** Why the thread is not reconciled: it cannot be read, what was read and
        what arrived do not fold together, or the store does not take it. */
    ghost predicate Why(t: ThreadId, script: Script, ready: set<ThreadId>, spilled: bool, events: seq<EventFact>,
                        e: Failure) {
      || (e == Uncertain(BufferOverflow) && spilled) || Unread(t, script, ready, e)
      || Discord(script, events, e) || Untaken(script.apply, e)
    }

    lemma SnaggedIsWhy(t: ThreadId, script: Script, events: seq<EventFact>, e: Failure)
      requires Snagged(t, script, e)
      ensures Why(t, script, ready, t in spilled, events, e)
    {
      if Clash(script, e) {
        ClashIsDiscord(script, events, e);
      }
    }

    lemma UntakenIsWhy(t: ThreadId, script: Script, facts: seq<Fact>, events: seq<EventFact>, e: Failure)
      requires AllShown(script, facts)
      requires || (e == Uncertain(BufferOverflow) && t in spilled) || Project(facts + events) == Err(e)
               || Untaken(script.apply, e)
      ensures Why(t, script, ready, t in spilled, events, e)
    {
    }

    /** At some point of the history there was a reason. */
    ghost predicate Explained(history: seq<Exchanged>, spilled: set<ThreadId>, t: ThreadId, script: Script,
                              ready: set<ThreadId>, e: Failure) {
      exists n: nat :: n <= |history| && Why(t, script, ready, t in spilled, FactsAbout(t, history[..n]), e)
    }

    lemma StaysExplained(h: seq<Exchanged>, more: seq<Exchanged>, spilled: set<ThreadId>, later: set<ThreadId>,
                         t: ThreadId, script: Script, ready: set<ThreadId>, e: Failure)
      requires Explained(h, spilled, t, script, ready, e) && h <= more && spilled <= later
      ensures Explained(more, later, t, script, ready, e)
    {
      var n: nat :| n <= |h| && Why(t, script, ready, t in spilled, FactsAbout(t, h[..n]), e);
      assert more[..n] == h[..n];
      assert Why(t, script, ready, t in later, FactsAbout(t, more[..n]), e);
    }

    /** Every thread that did not reconcile has a reason, given the threads
        reconciled before it. */
    ghost predicate AllExplained(history: seq<Exchanged>, spilled: set<ThreadId>, threads: seq<ThreadId>,
                                 scripts: map<ThreadId, Script>, outcomes: map<ThreadId, Result<(), Failure>>) {
      forall i :: 0 <= i < |threads| && threads[i] in scripts && threads[i] in outcomes && outcomes[threads[i]].Err? ==>
        Explained(history, spilled, threads[i], scripts[threads[i]], Before(threads, i), outcomes[threads[i]].error)
    }

    lemma KeptExplained(h: seq<Exchanged>, more: seq<Exchanged>, spilled: set<ThreadId>, later: set<ThreadId>,
                        threads: seq<ThreadId>, scripts: map<ThreadId, Script>,
                        outcomes: map<ThreadId, Result<(), Failure>>)
      requires AllExplained(h, spilled, threads, scripts, outcomes) && h <= more && spilled <= later
      ensures AllExplained(more, later, threads, scripts, outcomes)
    {
      forall j | 0 <= j < |threads| && threads[j] in scripts && threads[j] in outcomes && outcomes[threads[j]].Err?
        ensures Explained(more, later, threads[j], scripts[threads[j]], Before(threads, j), outcomes[threads[j]].error)
      {
        StaysExplained(h, more, spilled, later, threads[j], scripts[threads[j]], Before(threads, j),
                       outcomes[threads[j]].error);
      }
    }

    lemma ExplainedNext(h: seq<Exchanged>, more: seq<Exchanged>, spilled: set<ThreadId>, later: set<ThreadId>,
                        threads: seq<ThreadId>, i: nat, scripts: map<ThreadId, Script>,
                        outcomes: map<ThreadId, Result<(), Failure>>, outcome: Result<(), Failure>)
      requires AllExplained(h, spilled, threads, scripts, outcomes) && h <= more && spilled <= later
      requires i < |threads| && threads[i] in scripts
      requires forall j, k :: 0 <= j < k < |threads| ==> threads[j] != threads[k]
      requires outcome.Err? ==>
                 Explained(more, later, threads[i], scripts[threads[i]], Before(threads, i), outcome.error)
      ensures AllExplained(more, later, threads, scripts, outcomes[threads[i] := outcome])
    {
      KeptExplained(h, more, spilled, later, threads, scripts, outcomes);
    }

    /** The same for the items of one turn. */
    ghost predicate Stalled(t: ThreadId, script: Script, page: (nat, Option<string>) -> Exchange<Page<Entry>>,
                            turn: TurnId, room: nat, e: Failure)
      reads `ready, `spilled
    {
      || (e == Uncertain(BufferOverflow) && t in spilled) || ItemsSnag(page, turn, room, ready, e)
      || Clash(script, e)
    }

    lemma StuckTurns(t: ThreadId, script: Script, asked: seq<Option<string>>)
      requires Stuck(script.turnPage, asked, PAGE_CAPACITY)
      ensures Snagged(t, script, Uncertain(PageLimit))
    {
    }

    lemma StuckItems(t: ThreadId, script: Script, page: (nat, Option<string>) -> Exchange<Page<Entry>>, turn: TurnId,
                     room: nat, asked: seq<Option<string>>)
      requires Stuck(page, asked, room)
      ensures Stalled(t, script, page, turn, room, Uncertain(PageLimit))
    {
    }

    /** await_request: route what arrives until the request ends. The request
        joins the history with what was routed; the result is the peer's when
        everything was, and else the first arrival that could not be. */
    method AwaitRequest<T>(request: Request, x: Exchange<T>) returns (r: Result<T, EpochFailure>)
      requires Valid()
      modifies this
      ensures Valid() && Steady(old(ready), old(settled), old(submitted), old(spilled))
      ensures |history| == |old(history)| + 1 && old(history) <= history
      ensures Ran(history[|old(history)|], request, x, r.Ok?)
      ensures r.Err? ==> Fails(x, |history[|old(history)|].seen|, ready, overflow, r.error)
      ensures r.Ok? ==> x.ending == Answer(r.value)
    {
      Send(request);
      for i := 0 to |x.before|
        invariant Valid() && Steady(old(ready), old(settled), old(submitted), old(spilled))
        invariant history == old(history) + [Exchanged(request, x.before[..i])]
      {
        if x.before[i].event.Closed? {
          return Err(x.before[i].event.failure);
        }
        var failure := RouteEvent(x.before[i]);
        if failure.Some? {
          return Err(failure.value);
        }
        assert x.before[..i + 1] == x.before[..i] + [x.before[i]];
      }
      match x.ending {
        case Answer(value) => return Ok(value);
        case Broken(failure) => return Err(failure);
      }
    }

    /** add_response_bytes */
    method AddBytes(ghost t: ThreadId, bytes: Option<nat>, p: TerminalProjection) returns (r: Result<(), Failure>)
      requires Valid()
      modifies `endpointBytes, `spilled, p`bytes
      ensures Valid() && spilled == old(spilled) + if r == Err(Uncertain(BufferOverflow)) then {t} else {}
      ensures bytes.None? ==> r == Err(Epoch(Violation))
      ensures bytes.None? ==> p.bytes == old(p.bytes) && endpointBytes == old(endpointBytes)
      ensures bytes.Some? ==> p.bytes == old(p.bytes) + bytes.value && endpointBytes == old(endpointBytes) + bytes.value
      ensures bytes.Some? ==>
                r == if p.bytes > THREAD_BYTES || endpointBytes > ENDPOINT_BYTES
                     then Err(Uncertain(BufferOverflow)) else Ok(())
    {
      if bytes.None? {
        return Err(Epoch(Violation));
      }
      p.bytes := p.bytes + bytes.value;
      endpointBytes := endpointBytes + bytes.value;
      if p.bytes > THREAD_BYTES || endpointBytes > ENDPOINT_BYTES {
        spilled := spilled + {t};
        return Err(Uncertain(BufferOverflow));
      }
      return Ok(());
    }

    /** add_turn for each: the fold of the facts added, or its failure. */
    static method AddTurns(snaps: seq<Snap>, p: TerminalProjection) returns (r: Result<(), Failure>)
      requires p.Valid()
      modifies p
      ensures r.Ok? ==> p.Valid() && p.facts == old(p.facts) + SnapFacts(snaps)
      ensures r.Err? ==> AddAll(EMPTY, old(p.facts) + SnapFacts(snaps)) == Err(r.error)
    {
      ghost var fs := SnapFacts(snaps);
      for i := 0 to |snaps|
        invariant p.Valid() && p.facts == old(p.facts) + fs[..i]
      {
        FoldAt(old(p.facts), fs, i);
        r := p.AddTurn(snaps[i].id, snaps[i].status, snaps[i].members);
        if r.Err? {
          return;
        }
      }
      assert fs[..|snaps|] == fs;
      return Ok(());
    }

    /** One more page of turns. */
    method ReadTurnPage(t: ThreadId, page: (nat, Option<string>) -> Exchange<Page<Snap>>, ghost script: Script,
                        ghost start: nat, asked: seq<Option<string>>, cursor: Option<string>, p: TerminalProjection)
      returns (r: Result<Option<string>, Failure>)
      requires Valid() && p.Valid() && start <= |history| && page == script.turnPage
      requires AllShown(script, p.facts) && Reached(page, asked, cursor)
      requires PagesRan(history[start..], AskTurns(t), page, asked, true) && TurnsIn(page, asked, p.facts)
      modifies this, p
      ensures Valid() && Steady(old(ready), old(settled), old(submitted), old(spilled))
      ensures old(history) <= history && PagesRan(history[start..], AskTurns(t), page, asked + [cursor], r.Ok?)
      ensures r.Ok? ==> page(|asked|, cursor).ending.Answer? && r.value == NextOf(page(|asked|, cursor))
      ensures r.Ok? ==> p.Valid() && old(p.facts) <= p.facts && TurnsIn(page, asked + [cursor], p.facts)
      ensures if r.Ok? then AllShown(script, p.facts) else Snagged(t, script, r.error)
    {
      ghost var facts := p.facts;
      var answer := AwaitRequest(TurnsPage(t, cursor), page(|asked|, cursor));
      ghost var log, e := old(history)[start..], history[|old(history)|];
      assert history[start..] == log + [e];
      PagesNext(log, e, AskTurns(t), page, asked, cursor, answer.Ok?);
      PagesPart(history[start..], AskTurns(t), page, asked + [cursor]);
      if answer.Err? {
        FailsBreaks(page(|asked|, cursor), |e.seen|, ready, overflow, answer.error);
        assert PageSnag(page, asked, cursor, ready, Epoch(answer.error));
        return Err(Epoch(answer.error));
      }
      r := AddPage(t, answer.value, p);
      PageShown(script, |asked|, cursor);
      if r.Ok? {
        PageIn(page, asked, cursor, facts, p.facts);
      } else {
        PageFaults(t, script, asked, cursor, facts, r.error);
      }
    }

    /** What is wrong with an answered page of turns. */
    ghost predicate PageFault(t: ThreadId, page: Page<Snap>, facts: seq<Fact>, e: Failure)
      reads `spilled
    {
      || (page.bytes.None? && e == Epoch(Violation)) || (e == Uncertain(BufferOverflow) && t in spilled)
      || AddAll(EMPTY, facts + SnapFacts(page.data)) == Err(e)
    }

    lemma PageFaults(t: ThreadId, script: Script, asked: seq<Option<string>>, cursor: Option<string>,
                     facts: seq<Fact>, e: Failure)
      requires Reached(script.turnPage, asked, cursor) && AllShown(script, facts)
      requires script.turnPage(|asked|, cursor).ending.Answer?
      requires PageFault(t, script.turnPage(|asked|, cursor).ending.value, facts, e)
      ensures Snagged(t, script, e)
    {
      var page := script.turnPage(|asked|, cursor).ending.value;
      PageShown(script, |asked|, cursor);
      if page.bytes.None? && e == Epoch(Violation) {
        assert PageSnag(script.turnPage, asked, cursor, ready, e);
      } else if AddAll(EMPTY, facts + SnapFacts(page.data)) == Err(e) {
        Clashes(script, facts, SnapFacts(page.data), e);
      }
    }

    /** What an answered page of turns holds. */
    method AddPage(ghost t: ThreadId, page: Page<Snap>, p: TerminalProjection)
      returns (r: Result<Option<string>, Failure>)
      requires Valid() && p.Valid()
      modifies `endpointBytes, `spilled, p
      ensures Valid() && old(spilled) <= spilled
      ensures r.Err? ==> PageFault(t, page, old(p.facts), r.error)
      ensures r.Ok? ==> r.value == page.next && p.Valid() && p.facts == old(p.facts) + SnapFacts(page.data)
      ensures r.Ok? ==> forall y :: y in page.data ==> SnapFact(y) in p.facts
    {
      var counted := AddBytes(t, page.bytes, p);
      if counted.Err? {
        return Err(counted.error);
      }
      var added := AddTurns(page.data, p);
      if added.Err? {
        return Err(added.error);
      }
      SnapsIn(page.data, old(p.facts));
      return Ok(page.next);
    }

    /** The pages of the turn list, at most 32 of them: the requests sent are
        one per cursor asked for and no others. */
    method ListTurns(t: ThreadId, page: (nat, Option<string>) -> Exchange<Page<Snap>>, ghost script: Script,
                     p: TerminalProjection)
      returns (r: Result<(), Failure>, asked: seq<Option<string>>, ghost failed: bool)
      requires Valid() && p.Valid() && page == script.turnPage && AllShown(script, p.facts)
      modifies this, p
      ensures Valid() && Steady(old(ready), old(settled), old(submitted), old(spilled))
      ensures |asked| <= PAGE_CAPACITY && old(history) <= history
      ensures PagesRan(history[|old(history)|..], AskTurns(t), page, asked, !failed)
      ensures failed ==> r.Err?
      ensures r.Err? && !failed ==> r == Err(Uncertain(PageLimit)) && Stuck(page, asked, PAGE_CAPACITY)
      ensures r.Ok? ==> p.Valid() && old(p.facts) <= p.facts && Followed(page, asked) && TurnsIn(page, asked, p.facts)
      ensures if r.Ok? then AllShown(script, p.facts) else Snagged(t, script, r.error)
    {
      ghost var start := |history|;
      var cursor: Option<string> := None;
      var seen: set<string> := {};
      asked, failed := [], false;
      while |asked| < PAGE_CAPACITY
        invariant Valid() && Steady(old(ready), old(settled), old(submitted), old(spilled))
        invariant old(history) <= history && PagesRan(history[start..], AskTurns(t), page, asked, true)
        invariant p.Valid() && old(p.facts) <= p.facts && TurnsIn(page, asked, p.facts) && AllShown(script, p.facts)
        invariant !failed && |asked| < PAGE_CAPACITY && Underway(page, asked, cursor, seen)
        decreases PAGE_CAPACITY - |asked|
      {
        ghost var before := asked;
        var next := ReadTurnPage(t, page, script, start, asked, cursor, p);
        asked := asked + [cursor];
        if next.Err? {
          r, failed := Err(next.error), true;
          return;
        }
        NextPage(page, before, cursor, seen, PAGE_CAPACITY);
        cursor := next.value;
        if cursor.None? {
          r := Ok(());
          return;
        }
        if |asked| == PAGE_CAPACITY || cursor.value in seen {
          StuckTurns(t, script, asked);
          r := Err(Uncertain(PageLimit));
          return;
        }
        seen := seen + {cursor.value};
      }
      assert false;
    }

    /** add_listed_item for each, up to one of another turn. */
    static method AddEntries(turn: TurnId, entries: seq<Entry>, p: TerminalProjection) returns (r: Result<(), Failure>)
      requires p.Valid()
      modifies p
      ensures p.allTurns == old(p.allTurns)
      ensures r.Ok? ==> p.Valid() && p.facts == old(p.facts) + EntryFacts(entries) && !Mixed(turn, entries)
      ensures r.Err? ==> EntryFault(turn, entries, old(p.facts), r.error)
    {
      ghost var fs := EntryFacts(entries);
      for i := 0 to |entries|
        invariant p.Valid() && p.facts == old(p.facts) + fs[..i] && p.allTurns == old(p.allTurns)
        invariant forall k :: 0 <= k < i ==> entries[k].turn == turn
      {
        if entries[i].turn != turn {
          assert Mixed(turn, entries);
          return Err(Uncertain(ProtocolViolation));
        }
        FoldAt(old(p.facts), fs, i);
        r := p.AddListedItem(entries[i].turn, entries[i].item);
        if r.Err? {
          return;
        }
      }
      assert fs[..|entries|] == fs;
      return Ok(());
    }

    /** What an answered page of items holds. */
    method AddItemPage(ghost t: ThreadId, turn: TurnId, page: Page<Entry>, p: TerminalProjection)
      returns (r: Result<Option<string>, Failure>)
      requires Valid() && p.Valid()
      modifies `endpointBytes, `spilled, p
      ensures Valid() && old(spilled) <= spilled && p.allTurns == old(p.allTurns)
      ensures r.Ok? ==> r.value == page.next && p.Valid() && p.facts == old(p.facts) + EntryFacts(page.data)
      ensures r.Ok? ==> AllListed(turn, page.data, p.facts)
      ensures r.Err? ==> ItemFault(t, turn, page, old(p.facts), r.error)
    {
      var counted := AddBytes(t, page.bytes, p);
      if counted.Err? {
        return Err(counted.error);
      }
      var added := AddEntries(turn, page.data, p);
      if added.Err? {
        return Err(added.error);
      }
      AllEntriesIn(turn, page.data, old(p.facts));
      return Ok(page.next);
    }

    /** What is wrong with an answered page of items. */
    ghost predicate ItemFault(t: ThreadId, turn: TurnId, page: Page<Entry>, facts: seq<Fact>, e: Failure)
      reads `spilled
    {
      || (page.bytes.None? && e == Epoch(Violation)) || (e == Uncertain(BufferOverflow) && t in spilled)
      || EntryFault(turn, page.data, facts, e)
    }

    lemma ItemFaults(t: ThreadId, script: Script, turn: TurnId, base: nat, asked: seq<Option<string>>,
                     cursor: Option<string>, room: nat, facts: seq<Fact>, e: Failure)
      requires var page := PagesOf(script.itemPage, turn, base);
               && Reached(page, asked, cursor) && AllShown(script, facts)
               && page(|asked|, cursor).ending.Answer?
               && ItemFault(t, turn, page(|asked|, cursor).ending.value, facts, e)
      ensures Stalled(t, script, PagesOf(script.itemPage, turn, base), turn, room, e)
    {
      var chain := PagesOf(script.itemPage, turn, base);
      var page := chain(|asked|, cursor).ending.value;
      ItemsShown(script, turn, base, |asked|, cursor);
      if page.bytes.None? && e == Epoch(Violation) {
        assert PageSnag(chain, asked, cursor, ready, e);
      } else if AddAll(EMPTY, facts + EntryFacts(page.data)) == Err(e) {
        Clashes(script, facts, EntryFacts(page.data), e);
      } else if e == Uncertain(ProtocolViolation) {
        assert Strays(chain, asked, cursor, turn);
      }
    }

    /** One more page of items. */
    method ReadItemPage(t: ThreadId, turn: TurnId, page: (nat, Option<string>) -> Exchange<Page<Entry>>,
                        ghost script: Script, ghost base: nat, ghost room: nat, ghost start: nat,
                        asked: seq<Option<string>>, cursor: Option<string>, p: TerminalProjection)
      returns (r: Result<Option<string>, Failure>)
      requires Valid() && p.Valid() && start <= |history| && page == PagesOf(script.itemPage, turn, base)
      requires AllShown(script, p.facts) && Reached(page, asked, cursor)
      requires PagesRan(history[start..], AskItems(t, turn), page, asked, true) && EntriesIn(page, turn, asked, p.facts)
      modifies this, p
      ensures Valid() && Steady(old(ready), old(settled), old(submitted), old(spilled))
      ensures old(history) <= history && PagesRan(history[start..], AskItems(t, turn), page, asked + [cursor], r.Ok?)
      ensures p.allTurns == old(p.allTurns)
      ensures r.Ok? ==> page(|asked|, cursor).ending.Answer? && r.value == NextOf(page(|asked|, cursor))
      ensures r.Ok? ==> p.Valid() && old(p.facts) <= p.facts && EntriesIn(page, turn, asked + [cursor], p.facts)
      ensures if r.Ok? then AllShown(script, p.facts) else Stalled(t, script, page, turn, room, r.error)
    {
      ghost var facts := p.facts;
      var answer := AwaitRequest(ItemsPage(t, turn, cursor), page(|asked|, cursor));
      ghost var log, e := old(history)[start..], history[|old(history)|];
      assert history[start..] == log + [e];
      PagesNext(log, e, AskItems(t, turn), page, asked, cursor, answer.Ok?);
      PagesPart(history[start..], AskItems(t, turn), page, asked + [cursor]);
      if answer.Err? {
        FailsBreaks(page(|asked|, cursor), |e.seen|, ready, overflow, answer.error);
        assert PageSnag(page, asked, cursor, ready, Epoch(answer.error));
        return Err(Epoch(answer.error));
      }
      r := AddItemPage(t, turn, answer.value, p);
      ItemsShown(script, turn, base, |asked|, cursor);
      if r.Ok? {
        EntriesNext(page, turn, asked, cursor, facts, p.facts);
      } else {
        ItemFaults(t, script, turn, base, asked, cursor, room, facts, r.error);
      }
    }

    /** The item pages of one turn, at most `room` of them. */
    method ListItems(t: ThreadId, page: (nat, Option<string>) -> Exchange<Page<Entry>>, ghost script: Script,
                     ghost base: nat, turn: TurnId, room: nat, p: TerminalProjection)
      returns (r: Result<(), Failure>, asked: seq<Option<string>>, ghost failed: bool)
      requires Valid() && p.Valid() && page == PagesOf(script.itemPage, turn, base) && AllShown(script, p.facts)
      modifies this, p
      ensures Valid() && Steady(old(ready), old(settled), old(submitted), old(spilled))
      ensures old(history) <= history && PagesRan(history[|old(history)|..], AskItems(t, turn), page, asked, !failed)
      ensures p.allTurns == old(p.allTurns) && |asked| <= room
      ensures failed ==> r.Err?
      ensures r.Err? && !failed ==> r == Err(Uncertain(PageLimit)) && Stuck(page, asked, room)
      ensures r.Ok? ==> p.Valid() && old(p.facts) <= p.facts && Followed(page, asked)
      ensures r.Ok? ==> EntriesIn(page, turn, asked, p.facts)
      ensures if r.Ok? then AllShown(script, p.facts) else Stalled(t, script, page, turn, room, r.error)
    {
      ghost var start := |history|;
      var cursor: Option<string> := None;
      var seen: set<string> := {};
      asked, failed := [], false;
      while |asked| < room
        invariant Valid() && Steady(old(ready), old(settled), old(submitted), old(spilled))
        invariant old(history) <= history && PagesRan(history[start..], AskItems(t, turn), page, asked, true)
        invariant p.Valid() && old(p.facts) <= p.facts && p.allTurns == old(p.allTurns)
        invariant !failed && |asked| <= room && Underway(page, asked, cursor, seen)
        invariant EntriesIn(page, turn, asked, p.facts) && AllShown(script, p.facts)
        invariant |asked| == room ==> Stuck(page, asked, room)
        decreases room - |asked|
      {
        ghost var before := asked;
        var next := ReadItemPage(t, turn, page, script, base, room, start, asked, cursor, p);
        asked := asked + [cursor];
        if next.Err? {
          r, failed := Err(next.error), true;
          return;
        }
        NextPage(page, before, cursor, seen, room);
        cursor := next.value;
        if cursor.None? {
          r := Ok(());
          return;
        }
        if cursor.value in seen {
          StuckItems(t, script, page, turn, room, asked);
          r := Err(Uncertain(PageLimit));
          return;
        }
        seen := seen + {cursor.value};
      }
      StuckItems(t, script, page, turn, room, asked);
      r := Err(Uncertain(PageLimit));
    }

    /** The item pages of every turn, at most 32 in all: `count` is the number
        of requests sent, and on success they are the chains of the turns. */
    method ListAllItems(t: ThreadId, itemPage: (nat, TurnId, Option<string>) -> Exchange<Page<Entry>>,
                        ghost script: Script, p: TerminalProjection)
      returns (r: Result<(), Failure>, count: nat, chains: map<TurnId, Chain>)
      requires Valid() && p.Valid() && itemPage == script.itemPage && AllShown(script, p.facts)
      modifies this, p
      ensures Valid() && Steady(old(ready), old(settled), old(submitted), old(spilled))
      ensures old(history) <= history && |history| - |old(history)| == count <= PAGE_CAPACITY
      ensures OnlyItems(history[|old(history)|..], t)
      ensures r.Ok? ==> ItemsRan(history[|old(history)|..], t, chains, itemPage)
      ensures r.Ok? ==> p.Valid() && old(p.facts) <= p.facts
      ensures r.Ok? ==> forall turn :: turn in old(p.allTurns) ==> ListedIn(itemPage, chains, turn, p.facts)
      ensures if r.Ok? then AllShown(script, p.facts) else Snagged(t, script, r.error)
    {
      ghost var start := |history|;
      var todo := p.allTurns;
      count, chains, r := 0, map[], Ok(());
      while todo != {}
        invariant Valid() && Steady(old(ready), old(settled), old(submitted), old(spilled))
        invariant old(history) <= history && |history| - start == count <= PAGE_CAPACITY
        invariant AllListedIn(history[start..], t, chains, itemPage, p.facts) && AllShown(script, p.facts)
        invariant p.Valid() && old(p.facts) <= p.facts && p.allTurns == old(p.allTurns) && r.Ok?
        invariant todo <= p.allTurns && forall turn :: turn in chains <==> turn in p.allTurns && turn !in todo
        decreases todo
      {
        var turn :| turn in todo;
        var asked: seq<Option<string>>;
        r, asked := ListChain(t, itemPage, script, turn, count, chains, start, p);
        var base := count;
        count := base + |asked|;
        if r.Err? {
          return;
        }
        chains := chains[turn := (base, asked)];
        todo := todo - {turn};
      }
      OnlyItemsWhole(history[start..], t, chains, itemPage);
    }

    /** The item pages of the next turn, after `count` pages of other turns. */
    method ListChain(t: ThreadId, itemPage: (nat, TurnId, Option<string>) -> Exchange<Page<Entry>>,
                     ghost script: Script, turn: TurnId, count: nat, ghost chains: map<TurnId, Chain>,
                     ghost start: nat, p: TerminalProjection)
      returns (r: Result<(), Failure>, asked: seq<Option<string>>)
      requires itemPage == script.itemPage && AllShown(script, p.facts)
      requires Valid() && p.Valid() && turn !in chains
      requires start + count == |history| && count <= PAGE_CAPACITY
      requires AllListedIn(history[start..], t, chains, itemPage, p.facts)
      modifies this, p
      ensures Valid() && Steady(old(ready), old(settled), old(submitted), old(spilled))
      ensures old(history) <= history && start + count + |asked| == |history| && count + |asked| <= PAGE_CAPACITY
      ensures p.allTurns == old(p.allTurns) && OnlyItems(history[start..], t)
      ensures r.Ok? ==> p.Valid() && old(p.facts) <= p.facts
      ensures r.Ok? ==> AllListedIn(history[start..], t, chains[turn := (count, asked)], itemPage, p.facts)
      ensures if r.Ok? then AllShown(script, p.facts) else Snagged(t, script, r.error)
    {
      ghost var log := history[start..];
      assert |log| == count;
      ghost var failed: bool;
      r, asked, failed := ListItems(t, PagesOf(itemPage, turn, count), script, count, turn,
                                    PAGE_CAPACITY - count, p);
      ghost var more := history[|old(history)|..];
      assert history[start..] == log + more;
      ChainRead(log, more, t, chains, turn, asked, script, old(p.facts), p.facts, r, failed);
    }

    /** One more chain: the pages read, and how reading them ended. */
    ghost predicate ChainEnds(t: ThreadId, script: Script, turn: TurnId, base: nat, asked: seq<Option<string>>,
                              facts: seq<Fact>, after: seq<Fact>, r: Result<(), Failure>, failed: bool)
      reads `ready, `spilled
    {
      var page := PagesOf(script.itemPage, turn, base);
      if r.Ok? then !failed && facts <= after && Followed(page, asked) && EntriesIn(page, turn, asked, after)
      else base <= PAGE_CAPACITY && Stalled(t, script, page, turn, PAGE_CAPACITY - base, r.error)
    }

    lemma ChainRead(log: seq<Exchanged>, more: seq<Exchanged>, t: ThreadId, chains: map<TurnId, Chain>, turn: TurnId,
                    asked: seq<Option<string>>, script: Script, facts: seq<Fact>, after: seq<Fact>,
                    r: Result<(), Failure>, failed: bool)
      requires AllListedIn(log, t, chains, script.itemPage, facts) && turn !in chains
      requires PagesRan(more, AskItems(t, turn), PagesOf(script.itemPage, turn, |log|), asked, !failed)
      requires ChainEnds(t, script, turn, |log|, asked, facts, after, r, failed)
      ensures OnlyItems(log + more, t)
      ensures if r.Err? then Snagged(t, script, r.error)
              else AllListedIn(log + more, t, chains[turn := (|log|, asked)], script.itemPage, after)
    {
      OnlyItemsNext(log, more, t, chains, turn, asked, script.itemPage, facts, !failed);
      if r.Ok? {
        ItemsNext(log, more, t, chains, turn, asked, script.itemPage);
        ListedNextTurn(chains, turn, (|log|, asked), script.itemPage, facts, after);
      } else if ItemsSnag(PagesOf(script.itemPage, turn, |log|), turn, PAGE_CAPACITY - |log|, ready, r.error) {
        assert TurnSnag(t, script.itemPage, log, chains, facts, turn, ready, r.error);
      }
    }

    /** resume and read: a snapshot of the thread itself. */
    method ReadSnapshot(t: ThreadId, request: Request, x: Exchange<ThreadReply>, ghost script: Script,
                        p: TerminalProjection)
      returns (r: Result<(), Failure>)
      requires Valid() && p.Valid() && AllShown(script, p.facts) && (x == script.resume || x == script.read)
      modifies this, p
      ensures Valid() && Steady(old(ready), old(settled), old(submitted), old(spilled))
      ensures |history| == |old(history)| + 1 && old(history) <= history
      ensures Ran(history[|old(history)|], request, x, r.Ok?)
      ensures r.Ok? ==> p.Valid() && x.ending.Answer? && x.ending.value.id == t
      ensures r.Ok? ==> SnapsAmong(x, p.facts) && old(p.facts) <= p.facts
      ensures if r.Ok? then AllShown(script, p.facts) else Snagged(t, script, r.error)
    {
      var answer := AwaitRequest(request, x);
      if answer.Err? {
        FailsBreaks(x, |history[|old(history)|].seen|, ready, overflow, answer.error);
        return Err(Epoch(answer.error));
      }
      r := AddBytes(t, answer.value.bytes, p);
      if r.Err? {
        return;
      }
      if answer.value.id != t {
        return Err(Uncertain(ProtocolViolation));
      }
      ghost var facts := p.facts;
      r := AddTurns(answer.value.turns, p);
      SnapsIn(answer.value.turns, facts);
      assert AllShown(script, SnapFacts(answer.value.turns));
      if r.Err? {
        Clashes(script, facts, SnapFacts(answer.value.turns), r.error);
      }
    }

    static method AddEvents(fs: seq<EventFact>, p: TerminalProjection) returns (r: Result<(), Failure>)
      requires p.Valid()
      modifies p
      ensures r.Ok? ==> p.Valid() && p.facts == old(p.facts) + fs
      ensures r.Err? ==> AddAll(EMPTY, old(p.facts) + fs) == Err(r.error)
    {
      for i := 0 to |fs|
        invariant p.Valid() && p.facts == old(p.facts) + fs[..i]
      {
        FoldAt(old(p.facts), fs, i);
        r := p.AddEvent(fs[i]);
        if r.Err? {
          return;
        }
      }
      assert fs[..|fs|] == fs;
      return Ok(());
    }

    /** The buffered events of a thread, unless some had to be dropped. */
    method TakeBuffered(t: ThreadId) returns (r: Result<seq<EventFact>, Failure>)
      requires Valid() && t in managed && t !in uncertain && t !in ready
      modifies `events, `threadBytes, `endpointBytes, `overflow
      ensures ValidBut(t) && r == if t in old(overflow) then Err(Uncertain(BufferOverflow)) else Ok(Got(t))
    {
      assert Waiting(t);
      if t in overflow {
        overflow := overflow - {t};
        r := Err(Uncertain(BufferOverflow));
      } else {
        var fs := Take(t);
        r := Ok(fs);
      }
      forall u | u != t ensures Waiting(u) { assert old(Waiting(u)); }
    }

    ghost method SubmitTo(t: ThreadId, s: State)
      requires ValidBut(t) && t !in settled
      modifies `submitted
      ensures ValidBut(t) && submitted == old(submitted)[t := s]
    {
      submitted := submitted[t := s];
      forall u | u in settled ensures Covered(u) { assert old(Covered(u)); }
    }

    /** The buffered events join the projection, and listed items follow. */
    static method Conclude(fs: seq<EventFact>, p: TerminalProjection) returns (r: Result<(), Failure>)
      requires p.Valid()
      modifies p
      ensures r.Ok? ==> Project(old(p.facts) + fs) == Ok(p.Abstract())
      ensures r.Ok? ==> forall f :: f in fs && IsTerminal(f) ==> Holds(p.Abstract(), f)
      ensures r.Err? ==> Project(old(p.facts) + fs) == Err(r.error)
    {
      r := AddEvents(fs, p);
      if r.Err? {
        return;
      }
      r := p.FoldListedItems();
      if r.Ok? {
        AllHeld(p.facts, old(p.facts), fs);
      }
    }

    /** The buffered events join the projection, which goes to the store. */
    method Submit(t: ThreadId, apply: StoreReply, p: TerminalProjection) returns (r: Result<(), Failure>)
      requires Valid() && p.Valid() && t in managed && t !in uncertain && t !in ready
      modifies `events, `threadBytes, `endpointBytes, `overflow, `submitted, p
      ensures ValidBut(t) && SameBut(old(submitted), submitted, t)
      ensures var want := Project(old(p.facts) + old(Got(t)));
              if t in old(overflow) then r == Err(Uncertain(BufferOverflow))
              else if want.Err? then r == Err(want.error)
              else
                match apply
                case Applied => r.Ok?
                case Conflicting => r == Err(Uncertain(ConflictingTerminal))
                case Stale => r == Err(Epoch(ConnectionLost))
                case Unstored => r == Err(Epoch(StoreFailed))
      ensures r.Ok? ==> Covered(t) && t in submitted && Project(old(p.facts) + old(Got(t))) == Ok(submitted[t])
      ensures r.Err? ==>
                || (r.error == Uncertain(BufferOverflow) && t in spilled)
                || Project(old(p.facts) + Got(t)) == Err(r.error) || Untaken(apply, r.error)
    {
      var taken := TakeBuffered(t);
      if taken.Err? {
        return Err(taken.error);
      }
      r := Conclude(taken.value, p);
      if r.Err? {
        return;
      }
      SubmitTo(t, p.Abstract());
      r := Stored(apply);
    }

    /** What the store's answer to a projection means for its thread. */
    static method Stored(apply: StoreReply) returns (r: Result<(), Failure>)
      ensures if r.Ok? then apply.Applied? else Untaken(apply, r.error)
    {
      match apply {
        case Applied => return Ok(());
        case Conflicting => return Err(Uncertain(ConflictingTerminal));
        case Stale => return Err(Epoch(ConnectionLost));
        case Unstored => return Err(Epoch(StoreFailed));
      }
    }

    /** The snapshots: two reads of the thread, then the pages of its turns. */
    method ReadTurns(t: ThreadId, script: Script, p: TerminalProjection)
      returns (r: Result<(), Failure>, turnPages: seq<Option<string>>)
      requires Valid() && p.Valid() && AllShown(script, p.facts)
      modifies this, p
      ensures Valid() && Steady(old(ready), old(settled), old(submitted), old(spilled))
      ensures |turnPages| <= PAGE_CAPACITY && old(history) <= history
      ensures Layout(history[|old(history)|..], t, |turnPages|, 0)
      ensures r.Ok? ==> p.Valid() && TurnsRead(history[|old(history)|..], t, script, turnPages, p.facts)
      ensures if r.Ok? then AllShown(script, p.facts) else Snagged(t, script, r.error)
    {
      ghost var start := |history|;
      turnPages := [];
      r := ReadSnapshot(t, Resume(t), script.resume, script, p);
      if r.Err? {
        return;
      }
      ghost var first, resumed := history, p.facts;
      r := ReadSnapshot(t, Read(t), script.read, script, p);
      if r.Err? {
        return;
      }
      ghost var second, read := history, p.facts;
      ghost var failed: bool;
      r, turnPages, failed := ListTurns(t, script.turnPage, script, p);
      assert history[start..] == [first[start]] + [second[start + 1]] + history[|second|..];
      PagesAsk(history[|second|..], t, script.turnPage, turnPages, !failed);
    }

    /** Everything there is to ask about the thread. */
    method ReadAll(
        t: ThreadId, script: Script,
        p: TerminalProjection) returns (r: Result<(), Failure>, ghost read: Reading)
      requires Valid() && p.Valid() && AllShown(script, p.facts)
      modifies this, p
      ensures Valid() && Steady(old(ready), old(settled), old(submitted), old(spilled))
      ensures old(history) <= history && |read.turnPages| <= PAGE_CAPACITY && read.itemPages <= PAGE_CAPACITY
      ensures Layout(history[|old(history)|..], t, |read.turnPages|, read.itemPages)
      ensures r.Ok? ==> p.Valid() && read.facts == p.facts && Complete(history[|old(history)|..], t, script, read)
      ensures if r.Ok? then AllShown(script, p.facts) else Snagged(t, script, r.error)
    {
      ghost var start := |history|;
      var turnPages: seq<Option<string>>;
      r, turnPages := ReadTurns(t, script, p);
      read := Reading(turnPages, 0, map[], p.facts);
      if r.Err? {
        return;
      }
      AllTurnsNamed(script, turnPages, p);
      ghost var listed, sofar := p.facts, history;
      var count: nat, chains: map<TurnId, Chain>;
      r, count, chains := ListAllItems(t, script.itemPage, script, p);
      assert history[start..] == sofar[start..] + history[|sofar|..];
      read := Reading(turnPages, count, chains, p.facts);
      if r.Ok? {
        CompleteAll(sofar[start..], history[|sofar|..], t, script, read, listed);
      }
    }

    /** reconcile_thread. Its requests are two reads of the thread, at most 32
        turn pages and at most 32 item pages. Ok means every page chain was
        followed to its end through distinct cursors, everything on them and
        every event received so far is in the submitted projection, and so
        nothing received is lost. */
    method ReconcileThread(t: ThreadId, script: Script) returns (r: Result<(), Failure>, ghost read: Reading)
      requires Valid() && t in managed && t !in uncertain && t !in ready
      modifies this
      ensures ValidBut(t) && ready == old(ready) && settled == old(settled)
      ensures old(history) <= history && SameBut(old(submitted), submitted, t)
      ensures |read.turnPages| <= PAGE_CAPACITY && read.itemPages <= PAGE_CAPACITY
      ensures Layout(history[|old(history)|..], t, |read.turnPages|, read.itemPages)
      ensures r.Ok? ==> script.apply.Applied?
      ensures r.Ok? ==> Covered(t) && t in submitted && Project(read.facts) == Ok(submitted[t])
      ensures r.Ok? ==> forall f :: f in Got(t) ==> f in read.facts
      ensures r.Ok? ==> Complete(history[|old(history)|..], t, script, read)
      ensures old(spilled) <= spilled && (r.Err? ==> Why(t, script, ready, t in spilled, Got(t), r.error))
    {
      var p := new TerminalProjection();
      r, read := ReadAll(t, script, p);
      if r.Err? {
        SnaggedIsWhy(t, script, Got(t), r.error);
        return;
      }
      ghost var facts := p.facts + Got(t);
      ghost var shown := p.facts;
      r := Submit(t, script.apply, p);
      if r.Err? {
        UntakenIsWhy(t, script, shown, Got(t), r.error);
      }
      CompleteGrows(history[|old(history)|..], t, script, read, facts);
      read := read.(facts := facts);
    }

    /** Every terminal event that arrived for the thread has reached the store. */
    ghost predicate NothingLost(t: ThreadId)
      reads `history, `submitted, `recorded
    {
      forall i, a :: 0 <= i < |history| && a in history[i].seen && Ends(a, t) ==> Kept(t, a.event.fact)
    }

    lemma SettledLosesNothing()
      requires Tied() && settled <= managed && settled !! uncertain && forall t :: t in settled ==> Covered(t)
      ensures forall t :: t in settled ==> NothingLost(t)
    {
      forall t, i, a | t in settled && 0 <= i < |history| && a in history[i].seen && Ends(a, t)
        ensures Kept(t, a.event.fact)
      {
        FactsInHas(t, history[i].seen, a.event.fact);
        FactsAboutHas(t, history, i, a.event.fact);
        assert Covered(t);
      }
    }

    /** The settled threads were read whole and submitted, as their scripts say. */
    ghost predicate AllReconciled(scripts: map<ThreadId, Script>)
      reads `settled, `history, `submitted
    {
      forall t :: t in settled ==> t in scripts && Reconciled(history, submitted, t, scripts[t])
    }

    /** One thread of the pass: fence, reconcile, mark. */
    method ReconcileNext(t: ThreadId, script: Script)
      returns (r: Result<(), EpochFailure>, outcome: Option<Result<(), Failure>>)
      requires Valid() && t in managed && t !in uncertain && t !in ready
      modifies this
      ensures ValidBut(t) && old(history) <= history && SameBut(old(submitted), submitted, t)
      ensures settled == if outcome.Some? && outcome.value.Ok? then old(settled) + {t} else old(settled)
      ensures outcome.Some? && outcome.value.Ok? ==> Reconciled(history, submitted, t, script)
      ensures outcome.None? <==> !script.fence.Applied?
      ensures r == StepResult(script, outcome)
      ensures r.Ok? <==> outcome.Some? && (outcome.value.Err? ==> outcome.value.error.Uncertain? && script.marked)
      ensures outcome.Some? && outcome.value.Ok? ==> script.apply.Applied?
      ensures old(spilled) <= spilled
      ensures outcome.Some? && outcome.value.Err? ==>
                Why(t, script, old(ready), t in spilled, Got(t), outcome.value.error)
      ensures r.Ok? ==> Valid() && ready == old(ready) + {t}
    {
      outcome := None;
      if script.fence.Unstored? {
        return Err(StoreFailed), None;
      }
      if !script.fence.Applied? {
        return Err(ConnectionLost), None;
      }
      var result, read := ReconcileThread(t, script);
      outcome := Some(result);
      if result.Ok? {
        assert history[|old(history)|..|history|] == history[|old(history)|..];
        assert Stretch(history, submitted, t, script, |old(history)|, |history|, read);
      }
      r := Settle(t, script, result);
    }

    /** The thread is ready when it reconciled or could be marked uncertain. */
    method Settle(t: ThreadId, script: Script, result: Result<(), Failure>) returns (r: Result<(), EpochFailure>)
      requires ValidBut(t) && t !in uncertain && t !in ready && (result.Ok? ==> Covered(t))
      modifies `ready, `settled
      ensures ValidBut(t) && settled == old(settled) + if result.Ok? then {t} else {}
      ensures r == StepResult(script, Some(result))
      ensures r.Ok? <==> (result.Err? ==> result.error.Uncertain? && script.marked)
      ensures r.Ok? ==> Valid() && ready == old(ready) + {t}
    {
      match result {
        case Ok(_) => MakeReady(t, true);
        case Err(Uncertain(_)) =>
          if !script.marked {
            return Err(StoreFailed);
          }
          MakeReady(t, false);
        case Err(Epoch(failure)) => return Err(failure);
      }
      return Ok(());
    }

    /** The same, for the pass: what held of the threads before still holds. */
    method ReconcileAmong(t: ThreadId, scripts: map<ThreadId, Script>)
      returns (r: Result<(), EpochFailure>, outcome: Option<Result<(), Failure>>)
      requires Valid() && t in managed && t !in uncertain && t !in ready && t in scripts
      requires settled <= managed && AllReconciled(scripts)
      modifies this
      ensures AllReconciled(scripts) && forall u :: u in settled ==> NothingLost(u)
      ensures settled == if outcome.Some? && outcome.value.Ok? then old(settled) + {t} else old(settled)
      ensures outcome.None? <==> !scripts[t].fence.Applied?
      ensures r == StepResult(scripts[t], outcome)
      ensures r.Ok? ==> Valid() && ready == old(ready) + {t}
      ensures old(history) <= history && old(spilled) <= spilled
      ensures outcome.Some? && outcome.value.Err? ==>
                Explained(history, spilled, t, scripts[t], old(ready), outcome.value.error)
    {
      ghost var sofar, stored := history, submitted;
      assert t !in settled;
      r, outcome := ReconcileNext(t, scripts[t]);
      forall u | u in settled && u != t ensures u in scripts && Reconciled(history, submitted, u, scripts[u]) {
        StaysReconciled(sofar, stored, history, submitted, u, scripts[u], t);
      }
      SettledLosesNothing();
      assert history[..|history|] == history && Got(t) == FactsAbout(t, history);
    }

    /** What the outcomes tell: a thread reconciled exactly when its outcome is
        Ok, and then it was read whole and has lost nothing; any other outcome
        has a reason. */
    ghost predicate Told(threads: seq<ThreadId>, scripts: map<ThreadId, Script>,
                         outcomes: map<ThreadId, Result<(), Failure>>)
      reads `settled, `history, `submitted, `recorded, `spilled
    {
      && (forall t :: t in settled <==> t in outcomes && outcomes[t].Ok?)
      && AllReconciled(scripts) && (forall t :: t in settled ==> NothingLost(t))
      && AllExplained(history, spilled, threads, scripts, outcomes)
    }

    /** The pass has come to the i-th thread. */
    ghost predicate InPass(threads: seq<ThreadId>, scripts: map<ThreadId, Script>,
                           outcomes: map<ThreadId, Result<(), Failure>>, i: nat)
      reads `ready, `settled, `overflow, `events, `received, `submitted, `recorded, `history, `spilled
      requires i <= |threads|
    {
      && Valid() && settled <= managed && ready == Before(threads, i)
      && Told(threads, scripts, outcomes) && Passed(threads[..i], scripts, outcomes)
    }

    /** The i-th thread of the pass. */
    method ReconcileAt(threads: seq<ThreadId>, i: nat, scripts: map<ThreadId, Script>,
                       outcomes: map<ThreadId, Result<(), Failure>>)
      returns (r: Result<(), EpochFailure>, after: map<ThreadId, Result<(), Failure>>)
      requires i < |threads| && InPass(threads, scripts, outcomes, i)
      requires forall j, k :: 0 <= j < k < |threads| ==> threads[j] != threads[k]
      requires threads[i] in managed && threads[i] !in uncertain && threads[i] in scripts
      modifies this
      ensures Told(threads, scripts, after)
      ensures if r.Ok? then InPass(threads, scripts, after, i + 1) else EndedAt(threads, scripts, after, i, r)
    {
      var t := threads[i];
      ghost var sofar, full := history, spilled;
      var outcome: Option<Result<(), Failure>>;
      r, outcome := ReconcileAmong(t, scripts);
      if outcome.None? {
        KeptExplained(sofar, history, full, spilled, threads, scripts, outcomes);
        after := outcomes;
      } else {
        ExplainedNext(sofar, history, full, spilled, threads, i, scripts, outcomes, outcome.value);
        after := outcomes[t := outcome.value];
      }
      PassedNext(threads, i, scripts, outcomes, outcome, after);
    }

    /** reconcile_epoch over the certain threads, in store order, with each
        thread's outcome. Whatever the peer and the store do, and however the
        pass ends, a thread with outcome Ok has had all its pages read and its
        projection submitted, and every terminal event that arrived for it in
        any request of the pass has reached the store: in that projection, or
        recorded live. A thread with another outcome has a reason for it. */
    method ReconcileEpoch(threads: seq<ThreadId>, scripts: map<ThreadId, Script>)
      returns (r: Result<(), EpochFailure>, outcomes: map<ThreadId, Result<(), Failure>>)
      requires Valid() && ready == {} && settled == {} && history == []
      requires forall i, j :: 0 <= i < j < |threads| ==> threads[i] != threads[j]
      requires forall t :: t in threads <==> t in managed && t !in uncertain
      requires forall t :: t in threads ==> t in scripts
      modifies this
      ensures forall t :: t in settled <==> t in outcomes && outcomes[t].Ok?
      ensures AllReconciled(scripts) && forall t :: t in settled ==> NothingLost(t)
      ensures AllExplained(history, spilled, threads, scripts, outcomes)
      ensures |managed| > MANAGED_CAPACITY ==> r == Err(StoreFailed) && outcomes == map[]
      ensures |managed| <= MANAGED_CAPACITY ==> PassEnded(threads, scripts, outcomes, r)
      ensures r.Ok? ==> Valid() && forall t :: t in threads ==> t in ready
    {
      outcomes := map[];
      if |managed| > MANAGED_CAPACITY {
        return Err(StoreFailed), outcomes;
      }
      for i := 0 to |threads|
        invariant InPass(threads, scripts, outcomes, i)
      {
        r, outcomes := ReconcileAt(threads, i, scripts, outcomes);
        if r.Err? {
          return;
        }
      }
      assert threads[..|threads|] == threads;
      r := Ok(());
    }

    method MakeReady(t: ThreadId, ok: bool)
      requires ValidBut(t) && t !in uncertain && (ok ==> Covered(t))
      modifies `ready, `settled
      ensures Valid() && ready == old(ready) + {t} && settled == old(settled) + if ok then {t} else {}
    {
      ready := ready + {t};
      settled := settled + if ok then {t} else {};
      forall u ensures Waiting(u) { if u != t { assert old(Waiting(u)); } }
      forall u | u in settled ensures Covered(u) { assert u == t || old(Covered(u)); }
    }
  }

  function SnapFacts(snaps: seq<Snap>): seq<Fact> {
    seq(|snaps|, i requires 0 <= i < |snaps| => SnapFact(snaps[i]))
  }

  lemma SnapsIn(snaps: seq<Snap>, facts: seq<Fact>)
    ensures forall x :: x in snaps ==> SnapFact(x) in facts + SnapFacts(snaps)
  {
    forall x | x in snaps ensures SnapFact(x) in facts + SnapFacts(snaps) {
      var i :| 0 <= i < |snaps| && snaps[i] == x;
      assert (facts + SnapFacts(snaps))[|facts| + i] == SnapFact(x);
    }
  }

  /** The fold of one more of the new facts; where it fails, all of them do. */
  lemma FoldAt(facts: seq<Fact>, fs: seq<Fact>, i: nat)
    requires i < |fs| && AddAll(EMPTY, facts + fs[..i]).Ok?
    ensures facts + fs[..i + 1] == facts + fs[..i] + [fs[i]]
    ensures var r := Add(AddAll(EMPTY, facts + fs[..i]).value, fs[i]);
            AddAll(EMPTY, facts + fs[..i + 1]) == r && (r.Err? ==> AddAll(EMPTY, facts + fs) == r)
  {
    var before, after := facts + fs[..i], facts + fs[..i + 1];
    OneMore(facts, fs, i);
    FoldNext(EMPTY, before, fs[i]);
    if AddAll(EMPTY, after).Err? {
      FailsWhole(facts, fs, i + 1, after);
    }
  }

  lemma OneMore(facts: seq<Fact>, fs: seq<Fact>, i: nat)
    requires i < |fs|
    ensures facts + fs[..i + 1] == facts + fs[..i] + [fs[i]]
  {
    assert fs[..i + 1] == fs[..i] + [fs[i]];
  }

  lemma FailsWhole(facts: seq<Fact>, fs: seq<Fact>, n: nat, part: seq<Fact>)
    requires n <= |fs| && part == facts + fs[..n] && AddAll(EMPTY, part).Err?
    ensures AddAll(EMPTY, facts + fs) == AddAll(EMPTY, part)
  {
    assert (facts + fs)[..|part|] == part;
    FoldStaysFailed(EMPTY, facts + fs, |part|);
  }

  function EntryFacts(entries: seq<Entry>): seq<Fact> {
    seq(|entries|, i requires 0 <= i < |entries| => EntryFact(entries[i]))
  }

  predicate PageShows(x: Exchange<Page<Snap>>, f: Fact) { x.ending.Answer? && f in SnapFacts(x.ending.value.data) }

  predicate ItemShows(x: Exchange<Page<Entry>>, f: Fact) { x.ending.Answer? && f in EntryFacts(x.ending.value.data) }

  /** Some answer shows the fact. */
  ghost predicate Shown(script: Script, f: Fact) {
    || (script.resume.ending.Answer? && f in SnapFacts(script.resume.ending.value.turns))
    || (script.read.ending.Answer? && f in SnapFacts(script.read.ending.value.turns))
    || (exists k: nat, c :: PageShows(script.turnPage(k, c), f))
    || (exists k: nat, turn, c :: ItemShows(script.itemPage(k, turn, c), f))
  }

  ghost predicate AllShown(script: Script, facts: seq<Fact>) {
    forall f {:trigger Shown(script, f)} :: f in facts ==> Shown(script, f)
  }

  lemma PageShown(script: Script, k: nat, c: Option<string>)
    requires script.turnPage(k, c).ending.Answer?
    ensures AllShown(script, SnapFacts(script.turnPage(k, c).ending.value.data))
  {
    forall f | f in SnapFacts(script.turnPage(k, c).ending.value.data) ensures Shown(script, f) {
      assert PageShows(script.turnPage(k, c), f);
    }
  }

  lemma ItemsShown(script: Script, turn: TurnId, base: nat, k: nat, c: Option<string>)
    requires PagesOf(script.itemPage, turn, base)(k, c).ending.Answer?
    ensures AllShown(script, EntryFacts(PagesOf(script.itemPage, turn, base)(k, c).ending.value.data))
  {
    var x := script.itemPage(base + k, turn, c);
    assert x == PagesOf(script.itemPage, turn, base)(k, c);
    forall f | f in EntryFacts(x.ending.value.data) ensures Shown(script, f) {
      assert ItemShows(script.itemPage(base + k, turn, c), f);
    }
  }

  /** Facts the answers show do not fold together. */
  ghost predicate Clash(script: Script, e: Failure) {
    exists facts: seq<Fact> :: AllShown(script, facts) && AddAll(EMPTY, facts) == Err(e)
  }

  /** What the answers show does not fold together with the events. */
  ghost predicate Discord(script: Script, events: seq<EventFact>, e: Failure) {
    exists facts: seq<Fact> :: AllShown(script, facts) && Project(facts + events) == Err(e)
  }

  lemma ClashIsDiscord(script: Script, events: seq<EventFact>, e: Failure)
    requires Clash(script, e)
    ensures Discord(script, events, e)
  {
    var facts: seq<Fact> :| AllShown(script, facts) && AddAll(EMPTY, facts) == Err(e);
    var all: seq<Fact> := facts + events;
    assert all[..|facts|] == facts;
    FoldStaysFailed(EMPTY, all, |facts|);
    assert Project(facts + events) == Err(e);
  }

  /** The store does not take the projection. */
  predicate Untaken(apply: StoreReply, e: Failure) {
    match apply
    case Applied => false
    case Conflicting => e == Uncertain(ConflictingTerminal)
    case Stale => e == Epoch(ConnectionLost)
    case Unstored => e == Epoch(StoreFailed)
  }

  function Before(threads: seq<ThreadId>, i: nat): set<ThreadId>
    requires i <= |threads|
  {
    set t | t in threads[..i]
  }

  lemma Clashes(script: Script, facts: seq<Fact>, more: seq<Fact>, e: Failure)
    requires AllShown(script, facts) && AllShown(script, more) && AddAll(EMPTY, facts + more) == Err(e)
    ensures Clash(script, e)
  {
    assert AllShown(script, facts + more);
  }

  predicate Mixed(turn: TurnId, entries: seq<Entry>) {
    exists i :: 0 <= i < |entries| && entries[i].turn != turn
  }

  /** An entry is of another turn, or the entries do not fold. */
  predicate EntryFault(turn: TurnId, entries: seq<Entry>, facts: seq<Fact>, e: Failure) {
    || (e == Uncertain(ProtocolViolation) && Mixed(turn, entries))
    || AddAll(EMPTY, facts + EntryFacts(entries)) == Err(e)
  }

  /** The page that comes next lists an item of another turn. */
  predicate Strays(page: (nat, Option<string>) -> Exchange<Page<Entry>>, asked: seq<Option<string>>,
                   cursor: Option<string>, turn: TurnId) {
    var x := page(|asked|, cursor);
    && Reached(page, asked, cursor)
    && x.ending.Answer? && Mixed(turn, x.ending.value.data)
  }

  /** No page is left to ask for: the limit is reached, or a cursor repeats. */
  predicate Stuck<T>(page: (nat, Option<string>) -> Exchange<Page<T>>, asked: seq<Option<string>>, room: nat) {
    && Linked(page, asked)
    && (asked != [] ==> NextOf(page(|asked| - 1, asked[|asked| - 1])).Some?)
    && (|asked| == room || (asked != [] && NextOf(page(|asked| - 1, asked[|asked| - 1])) in asked))
  }

  /** What one thread does to the pass, by its outcome if its fence held. */
  function StepResult(script: Script, outcome: Option<Result<(), Failure>>): Result<(), EpochFailure> {
    match outcome
    case None => Err(if script.fence.Unstored? then StoreFailed else ConnectionLost)
    case Some(Ok(_)) => Ok(())
    case Some(Err(Epoch(failure))) => Err(failure)
    case Some(Err(Uncertain(_))) => if script.marked then Ok(()) else Err(StoreFailed)
  }

  /** These threads, and only they, have outcomes, and none stopped the pass. */
  ghost predicate Passed(
      threads: seq<ThreadId>, scripts: map<ThreadId, Script>, outcomes: map<ThreadId, Result<(), Failure>>) {
    && (forall t :: t in outcomes <==> t in threads)
    && (forall t :: t in outcomes && t in scripts ==> StepResult(scripts[t], Some(outcomes[t])).Ok?)
  }

  /** The pass ended at the i-th thread, for the reason it gives. */
  ghost predicate EndedAt(threads: seq<ThreadId>, scripts: map<ThreadId, Script>,
                          outcomes: map<ThreadId, Result<(), Failure>>, i: nat, r: Result<(), EpochFailure>) {
    && i < |threads| && threads[i] in scripts && r.Err?
    && Passed(threads[..i], scripts, outcomes - {threads[i]})
    && r == StepResult(scripts[threads[i]],
                       if threads[i] in outcomes then Some(outcomes[threads[i]]) else None)
    && (threads[i] in outcomes <==> scripts[threads[i]].fence.Applied?)
  }

  lemma PassedNext(threads: seq<ThreadId>, i: nat, scripts: map<ThreadId, Script>,
                   outcomes: map<ThreadId, Result<(), Failure>>, outcome: Option<Result<(), Failure>>,
                   after: map<ThreadId, Result<(), Failure>>)
    requires i < |threads| && threads[i] in scripts && forall j :: 0 <= j < i ==> threads[j] != threads[i]
    requires Passed(threads[..i], scripts, outcomes) && (outcome.None? <==> !scripts[threads[i]].fence.Applied?)
    requires after == if outcome.None? then outcomes else outcomes[threads[i] := outcome.value]
    ensures Before(threads, i + 1) == Before(threads, i) + {threads[i]} && threads[i] !in outcomes
    ensures var r := StepResult(scripts[threads[i]], outcome);
            if r.Ok? then Passed(threads[..i + 1], scripts, after) else EndedAt(threads, scripts, after, i, r)
  {
    assert threads[..i + 1] == threads[..i] + [threads[i]] && threads[i] !in threads[..i];
    assert after - {threads[i]} == outcomes;
  }

  /** Every thread passed, or the pass ended at one of them. */
  ghost predicate PassEnded(threads: seq<ThreadId>, scripts: map<ThreadId, Script>,
                            outcomes: map<ThreadId, Result<(), Failure>>, r: Result<(), EpochFailure>) {
    if r.Ok? then Passed(threads, scripts, outcomes) else exists i :: EndedAt(threads, scripts, outcomes, i, r)
  }

  /** Every turn the reply shows is among the facts. */
  predicate SnapsAmong(x: Exchange<ThreadReply>, facts: seq<Fact>) {
    x.ending.Answer? ==> forall y :: y in x.ending.value.turns ==> SnapFact(y) in facts
  }

  predicate SnapNamed(snaps: seq<Snap>, turn: TurnId) {
    exists k :: 0 <= k < |snaps| && snaps[k].id == turn
  }

  /** Some page names the turn. */
  predicate PageNames(page: (nat, Option<string>) -> Exchange<Page<Snap>>, asked: seq<Option<string>>, turn: TurnId) {
    exists i :: 0 <= i < |asked| && page(i, asked[i]).ending.Answer? &&
                SnapNamed(page(i, asked[i]).ending.value.data, turn)
  }

  /** A reply to resume, to read or to a request for a page names the turn. */
  predicate Names(script: Script, asked: seq<Option<string>>, turn: TurnId) {
    || (script.resume.ending.Answer? && SnapNamed(script.resume.ending.value.turns, turn))
    || (script.read.ending.Answer? && SnapNamed(script.read.ending.value.turns, turn))
    || PageNames(script.turnPage, asked, turn)
  }

  /** The requests for the thread and its turns, all answered, and the turns
      they showed. */
  predicate TurnsRead(log: seq<Exchanged>, t: ThreadId, script: Script, asked: seq<Option<string>>, facts: seq<Fact>) {
    && |log| == 2 + |asked|
    && Ran(log[0], Resume(t), script.resume, true) && script.resume.ending.Answer?
    && Ran(log[1], Read(t), script.read, true) && script.read.ending.Answer?
    && PagesRan(log[2..], AskTurns(t), script.turnPage, asked, true) && Followed(script.turnPage, asked)
    && SnapsAmong(script.resume, facts) && SnapsAmong(script.read, facts) && TurnsIn(script.turnPage, asked, facts)
  }

  /** Everything there was to ask about the thread was asked and answered, and
      what the answers show is among the facts. */
  ghost predicate Complete(log: seq<Exchanged>, t: ThreadId, script: Script, read: Reading) {
    var n := 2 + |read.turnPages|;
    && |log| == n + read.itemPages
    && TurnsRead(log[..n], t, script, read.turnPages, read.facts)
    && ItemsRan(log[n..], t, read.chains, script.itemPage)
    && forall turn :: Names(script, read.turnPages, turn) ==>
         ListedIn(script.itemPage, read.chains, turn, read.facts)
  }

  lemma CompleteAll(turnLog: seq<Exchanged>, itemLog: seq<Exchanged>, t: ThreadId, script: Script, read: Reading,
                    listed: seq<Fact>)
    requires TurnsRead(turnLog, t, script, read.turnPages, listed) && listed <= read.facts
    requires ItemsRan(itemLog, t, read.chains, script.itemPage) && |itemLog| == read.itemPages
    requires forall turn :: Names(script, read.turnPages, turn) ==>
               ListedIn(script.itemPage, read.chains, turn, read.facts)
    ensures Complete(turnLog + itemLog, t, script, read)
  {
    var log, n := turnLog + itemLog, 2 + |read.turnPages|;
    assert log[..n] == turnLog && log[n..] == itemLog;
    TurnsGrow(script.turnPage, read.turnPages, listed, read.facts);
  }

  lemma CompleteGrows(log: seq<Exchanged>, t: ThreadId, script: Script, read: Reading, facts: seq<Fact>)
    requires Complete(log, t, script, read) && read.facts <= facts
    ensures Complete(log, t, script, read.(facts := facts))
  {
    TurnsGrow(script.turnPage, read.turnPages, read.facts, facts);
    forall turn | Names(script, read.turnPages, turn) ensures ListedIn(script.itemPage, read.chains, turn, facts) {
      assert ListedIn(script.itemPage, read.chains, turn, read.facts);
      var chain := read.chains[turn];
      ListedGrows(PagesOf(script.itemPage, turn, chain.0), turn, chain.1, read.facts, facts);
    }
  }

  /** The maps agree except on one thread. */
  ghost predicate SameBut(a: map<ThreadId, State>, b: map<ThreadId, State>, t: ThreadId) {
    forall u :: u != t ==> (u in a <==> u in b) && (u in a ==> a[u] == b[u])
  }

  /** The requests from one point of the history to another were the whole
      reading of the thread, and the store was given its projection. */
  ghost predicate Stretch(history: seq<Exchanged>, submitted: map<ThreadId, State>, t: ThreadId, script: Script,
                    from: nat, to: nat, read: Reading) {
    && from <= to <= |history| && Complete(history[from..to], t, script, read)
    && t in submitted && Project(read.facts) == Ok(submitted[t])
  }

  ghost predicate Reconciled(history: seq<Exchanged>, submitted: map<ThreadId, State>, t: ThreadId, script: Script) {
    exists from: nat, to: nat, read :: Stretch(history, submitted, t, script, from, to, read)
  }

  lemma StaysReconciled(h: seq<Exchanged>, s: map<ThreadId, State>, more: seq<Exchanged>, later: map<ThreadId, State>,
                        t: ThreadId, script: Script, other: ThreadId)
    requires Reconciled(h, s, t, script) && h <= more && SameBut(s, later, other) && t != other
    ensures Reconciled(more, later, t, script)
  {
    var from: nat, to: nat, read :| Stretch(h, s, t, script, from, to, read);
    assert more[from..to] == h[from..to];
    assert Stretch(more, later, t, script, from, to, read);
  }

  lemma PagesAsk(log: seq<Exchanged>, t: ThreadId, page: (nat, Option<string>) -> Exchange<Page<Snap>>,
                 asked: seq<Option<string>>, ok: bool)
    requires PagesRan(log, AskTurns(t), page, asked, ok)
    ensures forall i :: 0 <= i < |log| ==> log[i].request.TurnsPage? && log[i].request.thread == t
  {
  }

  lemma OnlyItemsNext(log: seq<Exchanged>, more: seq<Exchanged>, t: ThreadId, chains: map<TurnId, Chain>, turn: TurnId,
                      asked: seq<Option<string>>, itemPage: (nat, TurnId, Option<string>) -> Exchange<Page<Entry>>,
                      facts: seq<Fact>, ok: bool)
    requires AllListedIn(log, t, chains, itemPage, facts)
    requires PagesRan(more, AskItems(t, turn), PagesOf(itemPage, turn, |log|), asked, ok)
    ensures OnlyItems(log + more, t)
  {
    OnlyItemsWhole(log, t, chains, itemPage);
    assert forall i :: 0 <= i < |more| ==> more[i].request == AskItems(t, turn)(asked[i]);
  }

  lemma OnlyItemsWhole(log: seq<Exchanged>, t: ThreadId, chains: map<TurnId, Chain>,
                       itemPage: (nat, TurnId, Option<string>) -> Exchange<Page<Entry>>)
    requires ItemsRan(log, t, chains, itemPage)
    ensures OnlyItems(log, t)
  {
    forall i | 0 <= i < |log| ensures log[i].request.ItemsPage? && log[i].request.thread == t {
      assert InChain(log, t, chains, i);
    }
  }

  lemma NamedInAll(snaps: seq<Snap>, turn: TurnId, p: TerminalProjection)
    requires p.Valid() && SnapNamed(snaps, turn) && forall x :: x in snaps ==> SnapFact(x) in p.facts
    ensures turn in p.allTurns
  {
    AddAllIs(p.facts);
    var k :| 0 <= k < |snaps| && snaps[k].id == turn;
    assert SnapFact(snaps[k]) in p.facts && Mentions(SnapFact(snaps[k]), turn);
    CollectItems(p.facts, turn, "");
  }

  lemma AllTurnsNamed(script: Script, asked: seq<Option<string>>, p: TerminalProjection)
    requires p.Valid() && TurnsIn(script.turnPage, asked, p.facts)
    requires SnapsAmong(script.resume, p.facts) && SnapsAmong(script.read, p.facts)
    ensures forall turn :: Names(script, asked, turn) ==> turn in p.allTurns
  {
    forall turn | Names(script, asked, turn) ensures turn in p.allTurns {
      if PageNames(script.turnPage, asked, turn) {
        var i :| 0 <= i < |asked| && script.turnPage(i, asked[i]).ending.Answer? &&
                 SnapNamed(script.turnPage(i, asked[i]).ending.value.data, turn);
        NamedInAll(script.turnPage(i, asked[i]).ending.value.data, turn, p);
      } else if script.resume.ending.Answer? && SnapNamed(script.resume.ending.value.turns, turn) {
        NamedInAll(script.resume.ending.value.turns, turn, p);
      } else {
        NamedInAll(script.read.ending.value.turns, turn, p);
      }
    }
  }

  lemma TurnsGrow(
      page: (nat, Option<string>) -> Exchange<Page<Snap>>, asked: seq<Option<string>>, facts: seq<Fact>,
      more: seq<Fact>)
    requires TurnsIn(page, asked, facts) && facts <= more
    ensures TurnsIn(page, asked, more)
  {
  }

  /** A successful projection holds every terminal event among its facts. */
  lemma AllHeld(facts: seq<Fact>, base: seq<Fact>, fs: seq<EventFact>)
    requires facts == base + fs && Project(facts).Ok?
    ensures forall f :: f in fs && IsTerminal(f) ==> Holds(Project(facts).value, f)
  {
    forall f | f in fs && IsTerminal(f) ensures Holds(Project(facts).value, f) {
      assert f in facts;
      if f.TurnEvent? {
        assert Says(f, f.turn, f.status.how);
        StatusHeld(facts, f, f.turn, f.status.how);
      } else {
        assert Observes(f, f.turn, f.item.value);
        ItemsHeld(facts, f.turn, f.item.value);
      }
    }
  }

  /** The pages of one turn, after `base` pages of other turns. */
  function PagesOf(itemPage: (nat, TurnId, Option<string>) -> Exchange<Page<Entry>>, turn: TurnId, base: nat):
    (nat, Option<string>) -> Exchange<Page<Entry>>
  {
    (k: nat, c: Option<string>) => itemPage(base + k, turn, c)
  }

  predicate AllListed(turn: TurnId, entries: seq<Entry>, facts: seq<Fact>) {
    forall x :: x in entries ==> x.turn == turn && EntryFact(x) in facts
  }

  /** Every item on the pages of the turn is among the facts, under that turn. */
  predicate EntriesIn(page: (nat, Option<string>) -> Exchange<Page<Entry>>, turn: TurnId,
                      asked: seq<Option<string>>, facts: seq<Fact>) {
    forall i :: 0 <= i < |asked| && page(i, asked[i]).ending.Answer? ==>
      AllListed(turn, page(i, asked[i]).ending.value.data, facts)
  }

  /** The chain recorded for the turn was followed to its end, and every item
      on it is among the facts. */
  predicate ListedIn(itemPage: (nat, TurnId, Option<string>) -> Exchange<Page<Entry>>,
                     chains: map<TurnId, Chain>, turn: TurnId, facts: seq<Fact>) {
    && turn in chains
    && Followed(PagesOf(itemPage, turn, chains[turn].0), chains[turn].1)
    && EntriesIn(PagesOf(itemPage, turn, chains[turn].0), turn, chains[turn].1, facts)
  }

  /** The chains read so far, and every item on them among the facts. */
  ghost predicate AllListedIn(log: seq<Exchanged>, t: ThreadId, chains: map<TurnId, Chain>,
                              itemPage: (nat, TurnId, Option<string>) -> Exchange<Page<Entry>>, facts: seq<Fact>) {
    && ItemsRan(log, t, chains, itemPage)
    && forall turn {:trigger ListedIn(itemPage, chains, turn, facts)} ::
         turn in chains ==> ListedIn(itemPage, chains, turn, facts)
  }

  lemma ListedNextTurn(chains: map<TurnId, Chain>, turn: TurnId, chain: Chain,
                       itemPage: (nat, TurnId, Option<string>) -> Exchange<Page<Entry>>,
                       facts: seq<Fact>, more: seq<Fact>)
    requires facts <= more && forall u :: u in chains ==> ListedIn(itemPage, chains, u, facts)
    requires Followed(PagesOf(itemPage, turn, chain.0), chain.1)
    requires EntriesIn(PagesOf(itemPage, turn, chain.0), turn, chain.1, more)
    ensures var next := chains[turn := chain];
            forall u :: u in next ==> ListedIn(itemPage, next, u, more)
  {
    forall u | u in chains && u != turn ensures ListedIn(itemPage, chains[turn := chain], u, more) {
      assert ListedIn(itemPage, chains, u, facts);
      ListedGrows(PagesOf(itemPage, u, chains[u].0), u, chains[u].1, facts, more);
    }
  }

  lemma AllEntriesIn(turn: TurnId, entries: seq<Entry>, facts: seq<Fact>)
    requires !Mixed(turn, entries)
    ensures AllListed(turn, entries, facts + EntryFacts(entries))
  {
    forall x | x in entries ensures x.turn == turn && EntryFact(x) in facts + EntryFacts(entries) {
      var i :| 0 <= i < |entries| && entries[i] == x;
      assert (facts + EntryFacts(entries))[|facts| + i] == EntryFact(x);
    }
  }

  lemma ListedGrows(page: (nat, Option<string>) -> Exchange<Page<Entry>>, turn: TurnId,
                    asked: seq<Option<string>>, facts: seq<Fact>, more: seq<Fact>)
    requires EntriesIn(page, turn, asked, facts) && facts <= more
    ensures EntriesIn(page, turn, asked, more)
  {
  }

  lemma EntriesNext(page: (nat, Option<string>) -> Exchange<Page<Entry>>, turn: TurnId,
                    asked: seq<Option<string>>, cursor: Option<string>, facts: seq<Fact>, more: seq<Fact>)
    requires EntriesIn(page, turn, asked, facts) && facts <= more
    requires page(|asked|, cursor).ending.Answer?
    requires AllListed(turn, page(|asked|, cursor).ending.value.data, more)
    ensures EntriesIn(page, turn, asked + [cursor], more)
  {
    ListedGrows(page, turn, asked, facts, more);
  }

  /** `cursor` is what the next request must send. */
  predicate Due<T>(page: (nat, Option<string>) -> Exchange<Page<T>>, asked: seq<Option<string>>,
                   cursor: Option<string>) {
    if asked == [] then cursor.None?
    else cursor.Some? && cursor !in asked && NextOf(page(|asked| - 1, asked[|asked| - 1])) == cursor
  }

  /** Exactly the cursors given so far, the next one included. */
  ghost predicate Remembers(seen: set<string>, asked: seq<Option<string>>, cursor: Option<string>) {
    forall c :: c in seen <==> cursor == Some(c) || Some(c) in asked
  }

  lemma RememberNext(seen: set<string>, asked: seq<Option<string>>, cursor: Option<string>, next: string)
    requires Remembers(seen, asked, cursor)
    ensures next in seen <==> Some(next) in asked + [cursor]
    ensures Remembers(seen + {next}, asked + [cursor], Some(next))
  {
  }

  lemma LinkNext<T>(page: (nat, Option<string>) -> Exchange<Page<T>>, asked: seq<Option<string>>,
                    cursor: Option<string>)
    requires Linked(page, asked) && Due(page, asked, cursor)
    requires page(|asked|, cursor).ending.Answer?
    ensures Linked(page, asked + [cursor])
  {
    var more := asked + [cursor];
    forall i | 1 <= i < |more| ensures more[i].Some? && NextOf(page(i - 1, more[i - 1])) == more[i] {
      if i < |asked| { assert asked[i].Some?; }
    }
  }

  /** The request with this cursor comes next. */
  predicate Reached<T>(page: (nat, Option<string>) -> Exchange<Page<T>>, asked: seq<Option<string>>,
                       cursor: Option<string>) {
    Linked(page, asked) && Due(page, asked, cursor)
  }

  ghost predicate Underway<T>(page: (nat, Option<string>) -> Exchange<Page<T>>, asked: seq<Option<string>>,
                              cursor: Option<string>, seen: set<string>) {
    Reached(page, asked, cursor) && Remembers(seen, asked, cursor)
  }

  /** An answered page ends the chain, leaves it stuck, or leads on. */
  lemma NextPage<T>(page: (nat, Option<string>) -> Exchange<Page<T>>, asked: seq<Option<string>>,
                    cursor: Option<string>, seen: set<string>, room: nat)
    requires Underway(page, asked, cursor, seen) && page(|asked|, cursor).ending.Answer?
    ensures var more, next := asked + [cursor], NextOf(page(|asked|, cursor));
            if next.None? then Followed(page, more)
            else
              && (next.value in seen || |more| == room ==> Stuck(page, more, room))
              && (next.value !in seen ==> Underway(page, more, next, seen + {next.value}))
  {
    LinkNext(page, asked, cursor);
    var more, next := asked + [cursor], NextOf(page(|asked|, cursor));
    assert more[|more| - 1] == cursor;
    if next.Some? {
      RememberNext(seen, asked, cursor, next.value);
    }
  }

  lemma PageIn(page: (nat, Option<string>) -> Exchange<Page<Snap>>, asked: seq<Option<string>>, cursor: Option<string>,
               facts: seq<Fact>, more: seq<Fact>)
    requires TurnsIn(page, asked, facts) && facts <= more && page(|asked|, cursor).ending.Answer?
    requires forall y :: y in page(|asked|, cursor).ending.value.data ==> SnapFact(y) in more
    ensures TurnsIn(page, asked + [cursor], more)
  {
    var longer := asked + [cursor];
    forall i, x | 0 <= i < |longer| && page(i, longer[i]).ending.Answer? && x in page(i, longer[i]).ending.value.data
      ensures SnapFact(x) in more
    {
      if i < |asked| { assert longer[i] == asked[i]; }
    }
  }
}
