/** What a stored order says: exactly what the broker answered when the order was placed and reconciled. */
module ExecutionRecords {
  import opened Common
  import opened OrderStore
  import opened ExecutionProtocol

  /** The broker's answer to a call's placement, in a run: none before it was asked. */
  function PlaceAnswer(steps: seq<Step>, id: int): Option<PlaceOutcome> {
    if steps == [] then None else
    var before, step := steps[..|steps| - 1], steps[|steps| - 1];
    var s := Run(INITIAL, before);
    if step.Place? && step.id == id && id in s.calls && s.calls[id].Placing? then Some(step.outcome)
    else PlaceAnswer(before, id)
  }

  /** What the broker said when the call was reconciled. */
  function ReconcileAnswer(steps: seq<Step>, id: int): Option<ReconcileOutcome> {
    if steps == [] then None else
    var before, step := steps[..|steps| - 1], steps[|steps| - 1];
    var s := Run(INITIAL, before);
    if step.Reconcile? && step.id == id && id in s.calls && s.calls[id].Reconciling? then Some(step.answer)
    else ReconcileAnswer(before, id)
  }

  /** A refused placement is kept with its error, and blocks any further order under the key. */
  ghost predicate TellsError(record: Record, error: string) {
    && record.brokerResponse == error && record.brokerOrderId.None? && record.finalReconciliation == ""
    && record.status.UNKNOWN_REQUIRES_RECONCILIATION? && record.reconciliationState.BLOCKING_DUPLICATES?
  }

  /** An accepted placement, not reconciled yet: the broker's status, its order id and its response. */
  ghost predicate TellsPlacement(record: Record, placed: PlaceOutcome)
    requires placed.Placed?
  {
    && record.status == placed.status && record.brokerOrderId == placed.brokerOrderId
    && record.brokerResponse == placed.raw && record.finalReconciliation == "" && record.reconciliationState.REQUIRED?
  }

  /**
   After reconciliation: the broker's id and response stay, and with an id the status is the one reconciled,
   unknown exactly when it blocks duplicates; without an id the order's status is unknown.
   */
  ghost predicate TellsReconciliation(record: Record, placed: PlaceOutcome, answer: Option<ReconcileOutcome>)
    requires placed.Placed?
  {
    && record.brokerOrderId == placed.brokerOrderId && record.brokerResponse == placed.raw
    && (record.reconciliationState.RECONCILED? || record.reconciliationState.BLOCKING_DUPLICATES?)
    && (record.reconciliationState.RECONCILED? <==> !record.status.UNKNOWN_REQUIRES_RECONCILIATION?)
    && if placed.brokerOrderId.Some? && placed.brokerOrderId.value != "" then
         answer == Some(Reconciled(record.status, record.finalReconciliation))
       else record.status.UNKNOWN_REQUIRES_RECONCILIATION?
  }

  /** A written record against the answers of the call that wrote it. */
  ghost predicate Tells(record: Record, placed: Option<PlaceOutcome>, answer: Option<ReconcileOutcome>) {
    placed.Some? && match placed.value
      case PlaceRaised(error) => TellsError(record, error)
      case Placed(_, _, _) => TellsReconciliation(record, placed.value, answer)
  }

  ghost predicate PhaseTells(phase: Phase, placed: Option<PlaceOutcome>, answer: Option<ReconcileOutcome>) {
    match phase
    case Reserving(_, record) => record == NewRecord(record.id, record.intent)
    case Placing(_, record) => record == NewRecord(record.id, record.intent)
    case Failing(_, record) => placed.Some? && placed.value.PlaceRaised? && Tells(record, placed, answer)
    case Reconciling(_, record) => placed.Some? && placed.value.Placed? && TellsPlacement(record, placed.value)
    case Writing(_, record) => placed.Some? && placed.value.Placed? && Tells(record, placed, answer)
    case _ => true
  }

  lemma {:induction false} PhasesTell(steps: seq<Step>, id: int)
    requires id in Run(INITIAL, steps).calls
    ensures PhaseTells(Run(INITIAL, steps).calls[id], PlaceAnswer(steps, id), ReconcileAnswer(steps, id))
    decreases |steps|
  {
    var before, step := steps[..|steps| - 1], steps[|steps| - 1];
    var s := Run(INITIAL, before);
    if id in s.calls {
      PhasesTell(before, id);
    }
    StepTells(s, step, id, PlaceAnswer(before, id), ReconcileAnswer(before, id));
  }

  lemma StepTells(s: System, step: Step, id: int, placed: Option<PlaceOutcome>, answer: Option<ReconcileOutcome>)
    requires id in Do(s, step).calls
    requires id in s.calls ==> PhaseTells(s.calls[id], placed, answer)
    ensures var placed' := if step.Place? && step.id == id && id in s.calls && s.calls[id].Placing? then
                Some(step.outcome) else placed;
            var answer' := if step.Reconcile? && step.id == id && id in s.calls && s.calls[id].Reconciling? then
                Some(step.answer) else answer;
            PhaseTells(Do(s, step).calls[id], placed', answer')
  {
    hide PreTradeError, Reserve, Upsert, Get;
  }

  predicate Over(phase: Phase) {
    phase.Returned? || phase.Stopped?
  }

  /** This call is over, and what is stored under the key says what the broker answered it. */
  ghost predicate WroteIt(steps: seq<Step>, key: string, id: int) {
    var s := Run(INITIAL, steps);
    && id in s.calls && Over(s.calls[id]) && Get(s.db, key).Some?
    && Tells(Get(s.db, key).value, PlaceAnswer(steps, id), ReconcileAnswer(steps, id))
  }

  lemma OverStays(s: System, step: Step, id: int)
    requires id in s.calls && Over(s.calls[id])
    ensures id in Do(s, step).calls && Over(Do(s, step).calls[id])
  {
  }

  lemma WriteEnds(s: System, step: Step)
    requires Written(s, step).Some? && Settled(Written(s, step).value.1)
    requires step.DoReserve? ==> step.id in s.calls ==> PhaseTells(s.calls[step.id], None, None)
    ensures step.Write? && step.id in s.calls && (s.calls[step.id].Failing? || s.calls[step.id].Writing?)
    ensures Written(s, step).value == (Key(s.calls[step.id].call), s.calls[step.id].record)
    ensures step.id in Do(s, step).calls && Over(Do(s, step).calls[step.id])
  {
    hide Upsert, Reserve;
  }

  /** A call that has not been placed has told nothing yet. */
  lemma ReservingTells(steps: seq<Step>, id: int)
    requires id in Run(INITIAL, steps).calls && Run(INITIAL, steps).calls[id].Reserving?
    ensures PhaseTells(Run(INITIAL, steps).calls[id], None, None)
  {
    hide Run;
    PhasesTell(steps, id);
  }

  /** Every settled record, in every reachable state, says what the broker answered the one call that wrote it. */
  lemma {:induction false} SettledRecordsTell(steps: seq<Step>, key: string) returns (id: int)
    requires Get(Run(INITIAL, steps).db, key).Some? && Settled(Get(Run(INITIAL, steps).db, key).value)
    ensures WroteIt(steps, key, id)
    decreases |steps|
  {
    var before, step := steps[..|steps| - 1], steps[|steps| - 1];
    var s := Run(INITIAL, before);
    hide Do, Tells, PhaseTells, Settled;
    StepWrites(s, step, key);
    if Written(s, step).Some? && Written(s, step).value.0 == key {
      id := LastWriter(before, step);
    } else {
      hide Written;
      id := SettledRecordsTell(before, key);
      OverStays(s, step, id);
    }
  }

  /** The step that writes a settled record ends its call, whose answers the record tells. */
  lemma LastWriter(before: seq<Step>, step: Step) returns (id: int)
    requires var w := Written(Run(INITIAL, before), step);
             w.Some? && Settled(w.value.1)
    ensures var s := Run(INITIAL, before);
            && id in Do(s, step).calls && Over(Do(s, step).calls[id]) && step.Write?
            && Tells(Written(s, step).value.1, PlaceAnswer(before, id), ReconcileAnswer(before, id))
  {
    hide Do, Tells, Settled, Run;
    var s := Run(INITIAL, before);
    id := step.id;
    if step.DoReserve? {
      ReservingTells(before, id);
    }
    WriteEnds(s, step);
    PhasesTell(before, id);
  }

  /** A call is cleared exactly when every pre-trade check passes. */
  lemma ClearedExactly(call: Call)
    ensures PreTradeError(call).None? <==>
              var i, c := call.intent, call.checks;
              && i.riskDecisionId == Some(c.decisionId) && c.decisionId != "" && c.decisionApproved
              && c.modeLiveCapable && c.liveTradingEnabled && c.liveOrdersEnabled && !c.killSwitch
              && c.healthMarket == i.market && c.healthyForLive
              && (i.market.INDIA? ==> c.compliance == Some((INDIA, true)))
              && i.idempotencyKey != ""
  {
  }

  /** The errors in the order in which they are looked for. */
  const CHECKS := ["risk_decision_id_required", "risk_decision_id_mismatch", "risk_decision_not_approved",
                   "trading_mode_not_live_capable", "live_trading_enabled_false", "live_orders_enabled_false",
                   "kill_switch_enabled", "broker_market_mismatch", "broker_health_not_live_ready",
                   "india_compliance_not_approved", "india_compliance_market_mismatch", "idempotency_key_required"]

  predicate CheckFails(call: Call, k: nat) {
    var i, c := call.intent, call.checks;
    match k
    case 0 => i.riskDecisionId.None? || i.riskDecisionId.value == ""
    case 1 => i.riskDecisionId != Some(c.decisionId)
    case 2 => !c.decisionApproved
    case 3 => !c.modeLiveCapable
    case 4 => !c.liveTradingEnabled
    case 5 => !c.liveOrdersEnabled
    case 6 => c.killSwitch
    case 7 => c.healthMarket != i.market
    case 8 => !c.healthyForLive
    case 9 => i.market.INDIA? && (c.compliance.None? || !c.compliance.value.1)
    case 10 => i.market.INDIA? && (c.compliance.None? || c.compliance.value.0 != INDIA)
    case 11 => i.idempotencyKey == ""
    case _ => false
  }

  ghost predicate FailsFirst(call: Call, k: nat) {
    CheckFails(call, k) && forall j: nat :: j < k ==> !CheckFails(call, j)
  }

  /** A call that is not cleared is refused with the error of the first check that fails. */
  lemma ErrorIsFirstFailure(call: Call, k: nat)
    requires FailsFirst(call, k)
    ensures k < |CHECKS| && PreTradeError(call) == Some(CHECKS[k])
  {
    assert k > 0 ==> !CheckFails(call, 0);
    assert k > 1 ==> !CheckFails(call, 1);
    assert k > 2 ==> !CheckFails(call, 2);
    assert k > 3 ==> !CheckFails(call, 3);
    assert k > 4 ==> !CheckFails(call, 4);
    assert k > 5 ==> !CheckFails(call, 5);
    assert k > 6 ==> !CheckFails(call, 6);
    assert k > 7 ==> !CheckFails(call, 7);
    assert k > 8 ==> !CheckFails(call, 8);
    assert k > 9 ==> !CheckFails(call, 9);
    assert k > 10 ==> !CheckFails(call, 10);
  }
}
