/** The thread projection as the source keeps it: tables changed in place. */
module ProjectionCell {
  import opened Wrappers
  import opened ClientEvents
  import Completed = CompletedItems
  import Ledger
  import P = Projection

  class ThreadProjection {
    var threadStarted: bool
    var invalidated: Option<Reason>
    var startedTurns: set<TurnId>
    var activeTurns: set<TurnId>
    var startedItems: set<(TurnId, string)>
    var completedItems: map<TurnId, Completed.Items>
    var completedIdBytes: nat
    var usage: map<TurnId, nat>
    var outcomes: map<TurnId, Outcome>
    var terminalFingerprints: map<TurnId, nat>
    var outcomeOrder: seq<TurnId>
    var outcomeWeights: map<TurnId, nat>
    var outcomeBytes: nat

    function Outcomes(): Ledger.Ledger
      reads this
    {
      Ledger.Ledger(outcomes, terminalFingerprints, outcomeOrder, outcomeWeights, outcomeBytes)
    }

    function Abstract(): P.Projection
      reads this
    {
      P.Projection(threadStarted, invalidated, startedTurns, activeTurns, startedItems,
                   Completed.Table(completedItems, completedIdBytes), usage, Outcomes())
    }

    constructor ()
      ensures Abstract() == P.EMPTY
    {
      threadStarted, invalidated := false, None;
      startedTurns, activeTurns, startedItems := {}, {}, {};
      completedItems, completedIdBytes, usage := map[], 0, map[];
      outcomes, terminalFingerprints, outcomeOrder, outcomeWeights, outcomeBytes := map[], map[], [], map[], 0;
    }

    method ThreadStarted(thread: ThreadId) returns (effect: P.Effect)
      modifies this
      ensures (Abstract(), effect) == P.ThreadUpStep(old(Abstract()), thread)
    {
      if invalidated.Some? || threadStarted {
        effect := P.Quiet;
      } else {
        threadStarted := true;
        effect := P.Terminal(Event.ThreadStarted(thread));
      }
    }

    method TurnStarted(turn: Turn) returns (effect: P.Effect)
      modifies this
      ensures (Abstract(), effect) == P.TurnUpStep(old(Abstract()), turn)
    {
      if |turn.id| > ROUTING_ID_BYTE_LIMIT ||
         (|startedTurns| >= THREAD_TERMINAL_CAPACITY && turn.id !in startedTurns) {
        return P.Drift;
      }
      if invalidated.Some? || turn.id in outcomes {
        return P.Quiet;
      }
      var inserted := turn.id !in startedTurns;
      startedTurns := startedTurns + {turn.id};
      activeTurns := activeTurns + {turn.id};
      effect := if inserted then P.Terminal(Event.TurnStarted(turn)) else P.Quiet;
    }

    method ItemStarted(turnId: TurnId, item: Item) returns (effect: P.Effect)
      modifies this
      ensures (Abstract(), effect) == P.ItemUpStep(old(Abstract()), turnId, item)
    {
      if item.id.None? {
        return P.Lossy(Event.ItemStarted(turnId, item));
      }
      var key := (turnId, item.id.value);
      if |item.id.value| > ROUTING_ID_BYTE_LIMIT || |turnId| > ROUTING_ID_BYTE_LIMIT ||
         (|startedItems| >= THREAD_EVENT_CAPACITY && key !in startedItems) {
        return P.Drift;
      }
      effect := if key in startedItems then P.Quiet else P.Lossy(Event.ItemStarted(turnId, item));
      startedItems := startedItems + {key};
    }

    method ItemCompleted(turnId: TurnId, item: Item) returns (effect: P.Effect)
      modifies this
      ensures (Abstract(), effect) == P.ItemDoneStep(old(Abstract()), turnId, item)
    {
      if turnId in outcomes {
        return P.Quiet;
      }
      if turnId !in completedItems && |completedItems| >= THREAD_TERMINAL_CAPACITY {
        return P.Drift;
      }
      var upsert := RecordItem(turnId, item);
      if upsert == Completed.Conflict || |turnId| > ROUTING_ID_BYTE_LIMIT ||
         Completed.Len(completedItems[turnId]) > THREAD_EVENT_CAPACITY ||
         completedIdBytes > THREAD_PROJECTION_BYTE_BUDGET {
        effect := P.Drift;
      } else {
        effect := if upsert == Completed.New then P.Terminal(Event.ItemCompleted(turnId, item)) else P.Quiet;
      }
    }

    method RecordItem(turnId: TurnId, item: Item) returns (upsert: Completed.Upsert)
      modifies `completedItems, `completedIdBytes
      ensures Completed.Table(completedItems, completedIdBytes) ==
              Completed.Record(old(Completed.Table(completedItems, completedIdBytes)), turnId, item)
      ensures upsert ==
              Completed.Put(Completed.ItemsOf(old(Completed.Table(completedItems, completedIdBytes)), turnId), item).1
      ensures turnId in completedItems
    {
      var entry := if turnId in completedItems then completedItems[turnId] else Completed.NO_ITEMS;
      var (items, outcome) := Completed.Put(entry, item);
      completedItems := completedItems[turnId := items];
      completedIdBytes := Minus(completedIdBytes, Completed.Retained(entry)) + Completed.Retained(items);
      upsert := outcome;
    }

    method UsageUpdated(turnId: TurnId, amount: nat) returns (effect: P.Effect)
      modifies this
      ensures (Abstract(), effect) == P.UsageStep(old(Abstract()), turnId, amount)
    {
      if |turnId| > ROUTING_ID_BYTE_LIMIT {
        return P.Drift;
      }
      if turnId !in outcomes {
        if turnId !in usage && |usage| >= THREAD_TERMINAL_CAPACITY {
          return P.Drift;
        }
        usage := usage[turnId := amount];
      }
      effect := P.Lossy(Event.UsageUpdated(turnId, amount));
    }

    method PopOldest()
      requires outcomeOrder != []
      modifies `outcomes, `terminalFingerprints, `outcomeOrder, `outcomeWeights, `outcomeBytes
      ensures Outcomes() == Ledger.PopOldest(old(Outcomes()))
    {
      var oldest := outcomeOrder[0];
      outcomeOrder := outcomeOrder[1..];
      outcomes := outcomes - {oldest};
      terminalFingerprints := terminalFingerprints - {oldest};
      if oldest in outcomeWeights {
        outcomeBytes := Minus(outcomeBytes, outcomeWeights[oldest]);
        outcomeWeights := outcomeWeights - {oldest};
      } else {
        assert outcomeWeights - {oldest} == outcomeWeights;
      }
    }

    /** The loop that evicts the oldest outcomes until the new one fits. */
    method MakeRoom(weight: nat)
      modifies `outcomes, `terminalFingerprints, `outcomeOrder, `outcomeWeights, `outcomeBytes
      ensures Outcomes() == Ledger.Evict(old(Outcomes()), weight)
    {
      while (|outcomes| >= THREAD_OUTCOME_CAPACITY || outcomeBytes + weight > THREAD_PROJECTION_BYTE_BUDGET) &&
            outcomeOrder != []
        invariant Ledger.Evict(Outcomes(), weight) == Ledger.Evict(old(Outcomes()), weight)
        decreases |outcomeOrder|
      {
        PopOldest();
      }
    }

    method Record(outcome: Outcome)
      modifies `outcomes, `terminalFingerprints, `outcomeOrder, `outcomeWeights, `outcomeBytes
      ensures Outcomes() == Ledger.Retain(old(Outcomes()), outcome)
    {
      var weight := OutcomeWeight(outcome);
      MakeRoom(weight);
      outcomeBytes := outcomeBytes + weight;
      outcomeOrder := outcomeOrder + [outcome.turn.id];
      outcomeWeights := outcomeWeights[outcome.turn.id := weight];
      terminalFingerprints := terminalFingerprints[outcome.turn.id := outcome.turn.fingerprint];
      outcomes := outcomes[outcome.turn.id := outcome];
    }

    method DropItems(turnId: TurnId)
      modifies `completedItems, `completedIdBytes
      ensures Completed.Table(completedItems, completedIdBytes) ==
              Completed.Drop(old(Completed.Table(completedItems, completedIdBytes)), turnId)
    {
      if turnId in completedItems {
        completedIdBytes := Minus(completedIdBytes, Completed.Retained(completedItems[turnId]));
        completedItems := completedItems - {turnId};
      }
    }

    method CloseTurn(turnId: TurnId)
      modifies `usage, `completedItems, `completedIdBytes, `startedTurns, `activeTurns, `startedItems
      ensures Abstract() == P.Forget(old(Abstract()), turnId)
    {
      usage := usage - {turnId};
      startedTurns := startedTurns - {turnId};
      activeTurns := activeTurns - {turnId};
      startedItems := P.Outside(startedItems, turnId);
      DropItems(turnId);
    }

    /** Move a turn from the open tables to the retained outcomes. */
    method Complete(outcome: Outcome)
      modifies this
      ensures Abstract() ==
              P.Forget(old(Abstract()), outcome.turn.id).(ledger := Ledger.Retain(old(Outcomes()), outcome))
    {
      CloseTurn(outcome.turn.id);
      Record(outcome);
    }

    method TurnCompleted(thread: ThreadId, turn: Turn) returns (effect: P.Effect)
      modifies this
      ensures (Abstract(), effect) == P.TurnDoneStep(old(Abstract()), thread, turn)
    {
      if |turn.id| > ROUTING_ID_BYTE_LIMIT {
        return P.Drift;
      }
      if turn.id in terminalFingerprints {
        return if terminalFingerprints[turn.id] != turn.fingerprint then P.Drift else P.Quiet;
      }
      var outcome := Outcome(thread, turn, if turn.id in usage then Some(usage[turn.id]) else None);
      if OutcomeWeight(outcome) > THREAD_PROJECTION_BYTE_BUDGET {
        usage := usage - {turn.id};
        return P.Drift;
      }
      Complete(outcome);
      effect := P.Terminal(Event.TurnCompleted(outcome));
    }

    method Invalidate(reason: Reason)
      modifies this
      ensures Abstract() == P.Clear(old(Abstract()), reason)
    {
      invalidated := Some(reason);
      startedTurns, activeTurns, startedItems := {}, {}, {};
      completedItems, completedIdBytes, usage := map[], 0, map[];
    }
  }
}
