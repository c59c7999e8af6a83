/**
 Events and payloads of the client router (src/codex/client.rs). A string
 stands for its UTF-8 bytes, so its length is its byte length. Serialised
 sizes and fingerprints are computed by code outside this model and are fields
 of the payloads.
 */
module ClientEvents {
  import opened Wrappers

  const THREAD_EVENT_CAPACITY: nat := 256
  const THREAD_TERMINAL_CAPACITY: nat := 64
  const THREAD_OUTCOME_CAPACITY: nat := 64
  const THREAD_SUBSCRIBER_CAPACITY: nat := 4
  const CLIENT_SUBSCRIBER_CAPACITY: nat := 64
  const CLIENT_PROJECTION_CAPACITY: nat := 64
  const THREAD_MAILBOX_BYTE_BUDGET: nat := 4 * 1024 * 1024
  const THREAD_PROJECTION_BYTE_BUDGET: nat := 4 * 1024 * 1024
  const THREAD_DELTA_BYTE_LIMIT: nat := 512 * 1024
  const ROUTING_ID_BYTE_LIMIT: nat := 1024

  type ThreadId = string
  type TurnId = string

  /** saturating_sub */
  function Minus(n: nat, k: nat): nat { if n >= k then n - k else 0 }

  datatype Reason = Lagged | ProtocolDrift

  datatype Item = Item(id: Option<string>, fingerprint: nat, weight: nat)

  /** `contents` is the weight of status, error and items inside an outcome. */
  datatype Turn = Turn(id: TurnId, fingerprint: nat, weight: nat, contents: nat)

  datatype Outcome = Outcome(thread: ThreadId, turn: Turn, usage: Option<nat>)

  datatype Event =
    | ThreadStarted(thread: ThreadId)
    | TurnStarted(started: Turn)
    | ItemStarted(turn: TurnId, item: Item)
    | Delta(command: bool, turn: TurnId, itemId: string, text: string)
    | ItemCompleted(turn: TurnId, item: Item)
    | UsageUpdated(turn: TurnId, usage: nat)
    | TurnCompleted(outcome: Outcome)
    | Failure(turn: TurnId, weight: nat, retry: bool)
    | Invalidated(thread: ThreadId, reason: Reason)
    | Unknown(name: string)
    | ConnectionClosed(exit: nat)

  /** outcome_memory_weight */
  function OutcomeWeight(o: Outcome): nat {
    256 + |o.thread| + |o.turn.id| + o.turn.contents
  }

  /** event_memory_weight */
  function Weight(e: Event): nat {
    match e
    case Delta(_, turn, item, text) => 128 + |turn| + |item| + |text|
    case Unknown(m) => 128 + |m|
    case ThreadStarted(t) => 128 + |t|
    case TurnStarted(turn) => 128 + turn.weight
    case ItemStarted(turn, item) => 128 + |turn| + item.weight
    case ItemCompleted(turn, item) => 128 + |turn| + item.weight
    case UsageUpdated(turn, _) => 128 + |turn|
    case TurnCompleted(o) => OutcomeWeight(o)
    case Failure(turn, w, _) => 128 + |turn| + w
    case _ => 128
  }

  datatype Stream = Stream(turn: TurnId, itemId: string, command: bool)

  /** delta_stream */
  function StreamOf(e: Event): Option<Stream> {
    match e
    case Delta(command, turn, item, _) => Some(Stream(turn, item, command))
    case _ => None
  }

  /** The kinds the router sends down the must-not-lose lane. */
  predicate IsTerminal(e: Event) {
    e.ThreadStarted? || e.TurnStarted? || e.ItemCompleted? || e.TurnCompleted? || e.Failure? ||
    e.Invalidated? || e.ConnectionClosed?
  }

  /** The terminal events dispatched while the router runs. */
  type Lifecycle = e: Event |
    e.ThreadStarted? || e.TurnStarted? || e.ItemCompleted? || e.TurnCompleted? || e.Failure?
    witness Event.ThreadStarted("")

  /** The events of the lossy lane. */
  type Passing = e: Event | !IsTerminal(e) witness Event.Unknown("")

  function Terminals(es: seq<Event>): seq<Event> {
    if es == [] then []
    else Terminals(es[..|es| - 1]) + if IsTerminal(es[|es| - 1]) then [es[|es| - 1]] else []
  }

  lemma {:induction false} TerminalsAppend(s: seq<Event>, t: seq<Event>)
    ensures Terminals(s + t) == Terminals(s) + Terminals(t)
  {
    if t == [] {
      assert s + t == s;
    } else {
      var n := |t| - 1;
      assert (s + t)[..|s + t| - 1] == s + t[..n];
      TerminalsAppend(s, t[..n]);
    }
  }
}
