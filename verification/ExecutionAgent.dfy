/** One execute call, as the agent runs it, and the permit it shows the broker. */
module ExecutionAgent {
  import opened Common
  import opened OrderStore
  import opened ExecutionProtocol
  import opened ExecutionRecords

  // ---------- the permit ----------

  datatype Permit = Permit(
    idempotencyKey: string,
    riskDecisionId: Option<string>,
    broker: BrokerName,
    market: Market,
    issuedAt: int,
    expiresAt: int,
    issuerToken: string
  )

  const TTL := 30_000_000

  function Issue(intent: Intent, now: int, token: string): Result<Permit> {
    if !Given(intent.riskDecisionId) then Raised("broker_execution_context_requires_risk_decision")
    else Ok(Permit(intent.idempotencyKey, intent.riskDecisionId, intent.broker, intent.market, now, now + TTL, token))
  }

  function PermitError(p: Permit, token: string, intent: Intent, adapter: BrokerName, now: int): Option<string> {
    if p.issuerToken != token then Some("invalid_broker_execution_context")
    else if now > p.expiresAt then Some("broker_execution_context_expired")
    else if p.idempotencyKey != intent.idempotencyKey then Some("broker_execution_context_idempotency_mismatch")
    else if p.riskDecisionId != intent.riskDecisionId then Some("broker_execution_context_risk_decision_mismatch")
    else if p.broker != intent.broker then Some("broker_execution_context_broker_mismatch")
    else if p.broker != adapter then Some("broker_execution_context_adapter_mismatch")
    else if p.market != intent.market then Some("broker_execution_context_market_mismatch")
    else None
  }

  /** A permit lets through exactly the orders that share its key, decision, broker and market, for thirty seconds. */
  lemma PermitFitsExactly(issuedFor: Intent, shownFor: Intent, adapter: BrokerName, issued: int, shown: int,
                          token: string, other: string)
    requires Issue(issuedFor, issued, token).Ok?
    ensures PermitError(Issue(issuedFor, issued, token).value, other, shownFor, adapter, shown).None? <==>
            && other == token && shown <= issued + TTL
            && shownFor.idempotencyKey == issuedFor.idempotencyKey &&
                 shownFor.riskDecisionId == issuedFor.riskDecisionId
            && shownFor.broker == issuedFor.broker == adapter && shownFor.market == issuedFor.market
  {
  }

  /** The errors of a permit in the order in which they are looked for. */
  const PERMIT_CHECKS := ["invalid_broker_execution_context", "broker_execution_context_expired",
                          "broker_execution_context_idempotency_mismatch",
                          "broker_execution_context_risk_decision_mismatch",
                          "broker_execution_context_broker_mismatch", "broker_execution_context_adapter_mismatch",
                          "broker_execution_context_market_mismatch"]

  predicate PermitFails(p: Permit, token: string, intent: Intent, adapter: BrokerName, now: int, k: nat) {
    match k
    case 0 => p.issuerToken != token
    case 1 => p.expiresAt < now
    case 2 => p.idempotencyKey != intent.idempotencyKey
    case 3 => p.riskDecisionId != intent.riskDecisionId
    case 4 => p.broker != intent.broker
    case 5 => p.broker != adapter
    case 6 => p.market != intent.market
    case _ => false
  }

  /** A permit that does not fit is refused with the error of its first mismatch. */
  lemma PermitErrorIsFirst(p: Permit, token: string, intent: Intent, adapter: BrokerName, now: int, k: nat)
    requires PermitFails(p, token, intent, adapter, now, k)
    requires forall j: nat :: j < k ==> !PermitFails(p, token, intent, adapter, now, j)
    ensures k < |PERMIT_CHECKS| && PermitError(p, token, intent, adapter, now) == Some(PERMIT_CHECKS[k])
  {
    assert k > 0 ==> !PermitFails(p, token, intent, adapter, now, 0);
    assert k > 1 ==> !PermitFails(p, token, intent, adapter, now, 1);
    assert k > 2 ==> !PermitFails(p, token, intent, adapter, now, 2);
    assert k > 3 ==> !PermitFails(p, token, intent, adapter, now, 3);
    assert k > 4 ==> !PermitFails(p, token, intent, adapter, now, 4);
    assert k > 5 ==> !PermitFails(p, token, intent, adapter, now, 5);
  }

  /** A permit is issued exactly to an intent with a risk decision. */
  lemma IssuedExactly(intent: Intent, now: int, token: string)
    ensures Issue(intent, now, token).Ok? <==> intent.riskDecisionId.Some? && intent.riskDecisionId.value != ""
  {
  }

  // ---------- the broker ----------

  /** What the broker would do if asked is given; it looks at the permit first. */
  class Broker {
    const name: BrokerName
    const token: string
    var asked: seq<Call>

    constructor (name: BrokerName, token: string)
      ensures this.name == name && this.token == token && asked == []
    {
      this.name, this.token, asked := name, token, [];
    }

    function Answer(call: Call, permit: Permit, now: int, outcome: PlaceOutcome): PlaceOutcome {
      var e := PermitError(permit, token, call.intent, name, now);
      if e.Some? then PlaceRaised(e.value) else outcome
    }

    method PlaceOrder(call: Call, permit: Permit, now: int, outcome: PlaceOutcome) returns (r: PlaceOutcome)
      modifies this
      ensures asked == old(asked) + [call] && r == Answer(call, permit, now, outcome)
    {
      asked := asked + [call];
      r := Answer(call, permit, now, outcome);
    }
  }

  // ---------- the agent ----------

  /** The six steps of a call nobody interrupts. */
  function Script(call: Call, newRecordId: string, outcome: PlaceOutcome, answer: ReconcileOutcome): seq<Step> {
    [Start(0, call), Look(0, newRecordId), DoReserve(0), Place(0, outcome), Reconcile(0, answer), Write(0)]
  }

  /** From a reserved key to the written result. */
  function Carried(s: System, outcome: PlaceOutcome, answer: ReconcileOutcome): System {
    Do(Do(Do(s, Place(0, outcome)), Reconcile(0, answer)), Write(0))
  }

  function Alone(db: Db, log: seq<Call>, call: Call, newRecordId: string, outcome: PlaceOutcome,
                 answer: ReconcileOutcome): System {
    Carried(Do(Do(Do(System(db, map[], log), Start(0, call)), Look(0, newRecordId)), DoReserve(0)), outcome, answer)
  }

  lemma OneMore(s: System, steps: seq<Step>, step: Step)
    ensures Run(s, steps + [step]) == Do(Run(s, steps), step)
  {
    assert (steps + [step])[..|steps|] == steps;
  }

  /** A call nobody interrupts is one of the interleavings, so every guarantee of the protocol covers it. */
  lemma AloneIsARun(db: Db, log: seq<Call>, call: Call, newRecordId: string, outcome: PlaceOutcome,
                    answer: ReconcileOutcome)
    ensures Alone(db, log, call, newRecordId, outcome, answer) ==
            Run(System(db, map[], log), Script(call, newRecordId, outcome, answer))
  {
    hide Do;
    var s := Script(call, newRecordId, outcome, answer);
    var start := System(db, map[], log);
    OneMore(start, [], s[0]);
    OneMore(start, [] + [s[0]], s[1]);
    OneMore(start, [] + [s[0]] + [s[1]], s[2]);
    OneMore(start, [] + [s[0]] + [s[1]] + [s[2]], s[3]);
    OneMore(start, [] + [s[0]] + [s[1]] + [s[2]] + [s[3]], s[4]);
    OneMore(start, [] + [s[0]] + [s[1]] + [s[2]] + [s[3]] + [s[4]], s[5]);
    assert [] + [s[0]] + [s[1]] + [s[2]] + [s[3]] + [s[4]] + [s[5]] == s;
  }

  function At(db: Db, log: seq<Call>, phase: Phase): System {
    System(db, map[0 := phase], log)
  }

  lemma SettledSystemStays(db: Db, log: seq<Call>, phase: Phase, outcome: PlaceOutcome, answer: ReconcileOutcome)
    requires phase.Stopped? || phase.Returned?
    ensures Carried(At(db, log, phase), outcome, answer) == At(db, log, phase)
  {
  }

  lemma BeforePlacing(db: Db, log: seq<Call>, call: Call, newRecordId: string)
    ensures var s := Do(Do(Do(System(db, map[], log), Start(0, call)), Look(0, newRecordId)), DoReserve(0));
            var existing := Get(db, Key(call));
            var r := Reserve(db, Key(call), NewRecord(newRecordId, call.intent));
            s == if PreTradeError(call).Some? then At(db, log, Stopped)
                 else if existing.Some? then At(db, log, Returned(call, existing.value))
                 else if r.Raised? then At(db, log, Stopped)
                 else At(r.value, log, Placing(call, NewRecord(newRecordId, call.intent)))
  {
    hide PreTradeError, Get, Reserve, Key;
    var a, b, c := Start(0, call), Look(0, newRecordId), DoReserve(0);
    var s1 := Do(System(db, map[], log), a);
    assert s1 == At(db, log, if PreTradeError(call).Some? then Stopped else Looking(call));
    var s2 := Do(s1, b);
    var existing := Get(db, Key(call));
    assert s2 == At(db, log,
      if PreTradeError(call).Some? then Stopped
      else if existing.Some? then Returned(call, existing.value)
      else Reserving(call, NewRecord(newRecordId, call.intent)));
  }

  lemma AfterPlacing(db: Db, log: seq<Call>, call: Call, reserved: Record, outcome: PlaceOutcome,
                     answer: ReconcileOutcome)
    ensures Carried(At(db, log, Placing(call, reserved)), outcome, answer) ==
            if outcome.PlaceRaised? then
              var r := Upsert(db, Key(call), FailedRecord(reserved, outcome.error));
              At(if r.Ok? then r.value else db, log + [call], Stopped)
            else
              var placed := PlacedRecord(reserved, outcome);
              var reconciliation := ReconcilerAnswer(placed, answer);
              if reconciliation.ReconcileRaised? then At(db, log + [call], Stopped) else
              var record := ReconciledRecord(placed, reconciliation);
              var r := Upsert(db, Key(call), record);
              if r.Ok? then At(r.value, log + [call], Returned(call, record)) else At(db, log + [call], Stopped)
  {
    hide FailedRecord, PlacedRecord, ReconcilerAnswer, ReconciledRecord, Upsert, Key;
    var s1 := Do(At(db, log, Placing(call, reserved)), Place(0, outcome));
    assert s1 == At(db, log + [call],
      if outcome.PlaceRaised? then Failing(call, FailedRecord(reserved, outcome.error))
      else Reconciling(call, PlacedRecord(reserved, outcome)));
    var s2 := Do(s1, Reconcile(0, answer));
    if outcome.Placed? {
      var placed := PlacedRecord(reserved, outcome);
      var reconciliation := ReconcilerAnswer(placed, answer);
      assert s2 == At(db, log + [call],
        if reconciliation.ReconcileRaised? then Stopped else Writing(call, ReconciledRecord(placed, reconciliation)));
    }
  }

  /** Uninterrupted, a cleared call with an unused key and id places exactly one order; with a used key, none. */
  lemma AlonePlacesOnceExactly(db: Db, log: seq<Call>, call: Call, newRecordId: string, outcome: PlaceOutcome,
                               answer: ReconcileOutcome)
    requires Agrees(db) && PreTradeError(call).None? && newRecordId !in db.orders
    ensures var end := Alone(db, log, call, newRecordId, outcome, answer);
            if Get(db, Key(call)).Some? then
              end == At(db, log, Returned(call, Get(db, Key(call)).value))
            else
              && end.log == log + [call]
              && Get(end.db, Key(call)).Some? && Get(end.db, Key(call)).value.id == newRecordId
              && (outcome.PlaceRaised? || answer.Reconciled? ==> Settled(Get(end.db, Key(call)).value))
  {
    hide PreTradeError, Do, Carried;
    BeforePlacing(db, log, call, newRecordId);
    if Get(db, Key(call)).Some? {
      SettledSystemStays(db, log, Returned(call, Get(db, Key(call)).value), outcome, answer);
    } else {
      var record := NewRecord(newRecordId, call.intent);
      ReserveRefinesDictionary(db, record);
      CarriedWritesOwnKey(Reserve(db, Key(call), record).value, log, call, record, outcome, answer);
    }
  }

  lemma CarriedWritesOwnKey(db: Db, log: seq<Call>, call: Call, record: Record, outcome: PlaceOutcome,
                            answer: ReconcileOutcome)
    requires record == NewRecord(record.id, call.intent) && record.id in db.orders && Get(db, Key(call)) == Some(record)
    ensures var end := Carried(At(db, log, Placing(call, record)), outcome, answer);
            && end.log == log + [call]
            && Get(end.db, Key(call)).Some? && Get(end.db, Key(call)).value.id == record.id
            && (outcome.PlaceRaised? || answer.Reconciled? ==> Settled(Get(end.db, Key(call)).value))
  {
  }

  lemma CarriedTells(db: Db, log: seq<Call>, call: Call, record: Record, outcome: PlaceOutcome,
                     answer: ReconcileOutcome)
    requires record == NewRecord(record.id, call.intent) && record.id in db.orders && Get(db, Key(call)) == Some(record)
    ensures var end := Carried(At(db, log, Placing(call, record)), outcome, answer);
            0 in end.calls && Get(end.db, Key(call)).Some? &&
            var stored := Get(end.db, Key(call)).value;
            && stored.id == record.id && stored.intent == record.intent
            && if Unreconciled(outcome, answer) then stored == record && end.calls[0].Stopped?
               else
                 && Tells(stored, Some(outcome), Some(answer))
                 && end.calls[0] == if outcome.Placed? then Returned(call, stored) else Stopped
  {
    AfterPlacing(db, log, call, record, outcome, answer);
    hide Carried, PreTradeError, OrderFrom, ApplyRecord;
  }

  /** The broker gave an id, and failed when asked about it. */
  predicate Unreconciled(outcome: PlaceOutcome, answer: ReconcileOutcome) {
    outcome.Placed? && outcome.brokerOrderId.Some? && outcome.brokerOrderId.value != "" && answer.ReconcileRaised?
  }

  /**
   Uninterrupted, a cleared call with an unused key stores, and returns, a record that says what the broker
   answered: its order id and response, and the reconciled status; or its error. Only when reconciling
   raises does the record stay as it was reserved.
   */
  lemma AloneRecordsAnswers(db: Db, log: seq<Call>, call: Call, newRecordId: string, outcome: PlaceOutcome,
                            answer: ReconcileOutcome)
    requires Agrees(db) && PreTradeError(call).None? && newRecordId !in db.orders && Get(db, Key(call)).None?
    ensures var end := Alone(db, log, call, newRecordId, outcome, answer);
            0 in end.calls && Get(end.db, Key(call)).Some? &&
            var stored := Get(end.db, Key(call)).value;
            && stored.id == newRecordId && stored.intent == call.intent
            && if Unreconciled(outcome, answer) then stored == NewRecord(newRecordId, call.intent) &&
                 end.calls[0].Stopped?
               else
                 && Tells(stored, Some(outcome), Some(answer))
                 && end.calls[0] == if outcome.Placed? then Returned(call, stored) else Stopped
  {
    hide PreTradeError, Do, Carried, Tells;
    BeforePlacing(db, log, call, newRecordId);
    var record := NewRecord(newRecordId, call.intent);
    ReserveRefinesDictionary(db, record);
    CarriedTells(Reserve(db, Key(call), record).value, log, call, record, outcome, answer);
  }

  /** A cleared call with an unused key and an unused id. */
  ghost predicate Fresh(db: Db, call: Call, newRecordId: string) {
    Agrees(db) && PreTradeError(call).None? && newRecordId !in db.orders && Get(db, Key(call)).None?
  }

  /** The record kept under the call's key, and the caller's result, say what the broker answered. */
  ghost predicate AnswersKept(db: Db, call: Call, newRecordId: string, outcome: PlaceOutcome, answer: ReconcileOutcome,
                              r: Result<Record>) {
    Get(db, Key(call)).Some? &&
    var stored := Get(db, Key(call)).value;
    && stored.id == newRecordId && stored.intent == call.intent
    && if Unreconciled(outcome, answer) then stored == NewRecord(newRecordId, call.intent) && r.Raised?
       else Tells(stored, Some(outcome), Some(answer)) && (if outcome.Placed? then r == Ok(stored) else r.Raised?)
  }

  lemma AloneKeepsAnswers(db: Db, log: seq<Call>, call: Call, newRecordId: string, outcome: PlaceOutcome,
                          answer: ReconcileOutcome)
    requires Fresh(db, call, newRecordId)
    ensures var end := Alone(db, log, call, newRecordId, outcome, answer);
            forall r :: Reported(end, r) ==> AnswersKept(end.db, call, newRecordId, outcome, answer, r)
  {
    hide Alone, Tells;
    AloneRecordsAnswers(db, log, call, newRecordId, outcome, answer);
  }

  /** The caller sees the record of a call that returned, and an exception from one that stopped. */
  ghost predicate Reported(end: System, r: Result<Record>) {
    0 in end.calls && match end.calls[0] {
      case Returned(_, record) => r == Ok(record)
      case Stopped => r.Raised?
      case _ => false
    }
  }

  class ExecutionAgent {
    const store: OrderIdempotencyStore

    constructor (store: OrderIdempotencyStore)
      ensures this.store == store
    {
      this.store := store;
    }

    /** Runs one call to its end; the store, the broker's log and the result are those of the six steps. */
    method Execute(call: Call, broker: Broker, newRecordId: string, issuedAt: int, placedAt: int,
                   outcome: PlaceOutcome, answer: ReconcileOutcome) returns (r: Result<Record>)
      modifies store, broker
      ensures var answered := if Issue(call.intent, issuedAt, broker.token).Ok? then
                                broker.Answer(call, Issue(call.intent, issuedAt, broker.token).value, placedAt, outcome)
                              else outcome;
              var end := Alone(old(store.Contents()), old(broker.asked), call, newRecordId, answered, answer);
              store.Contents() == end.db && broker.asked == end.log && Reported(end, r)
      ensures PreTradeError(call).Some? ==> r == Raised(PreTradeError(call).value)
      ensures old(Fresh(store.Contents(), call, newRecordId)) ==>
                var answered := if Issue(call.intent, issuedAt, broker.token).Ok? then
                                  broker.Answer(call, Issue(call.intent, issuedAt, broker.token).value, placedAt,
                                    outcome)
                                else outcome;
                AnswersKept(store.Contents(), call, newRecordId, answered, answer, r)
    {
      hide Do, Carried, Fresh, AnswersKept;
      ghost var db, log := store.Contents(), broker.asked;
      if Fresh(db, call, newRecordId) {
        AloneKeepsAnswers(db, log, call, newRecordId,
          if Issue(call.intent, issuedAt, broker.token).Ok? then
            broker.Answer(call, Issue(call.intent, issuedAt, broker.token).value, placedAt, outcome)
          else outcome, answer);
      }
      BeforePlacing(db, log, call, newRecordId);
      ghost var answered := if Issue(call.intent, issuedAt, broker.token).Ok? then
          broker.Answer(call, Issue(call.intent, issuedAt, broker.token).value, placedAt, outcome)
        else outcome;
      SettledSystemStays(db, log, Stopped, answered, answer);
      var error := PreTradeError(call);
      if error.Some? {
        return Raised(error.value);
      }
      var existing := store.Find(Key(call));
      if existing.Some? {
        SettledSystemStays(db, log, Returned(call, existing.value), answered, answer);
        return Ok(existing.value);
      }
      var record := NewRecord(newRecordId, call.intent);
      var _ :- store.ReserveKey(Key(call), record);
      r := PlaceAndRecord(call, broker, record, issuedAt, placedAt, outcome, answer);
    }

    method PlaceAndRecord(call: Call, broker: Broker, reserved: Record, issuedAt: int, placedAt: int,
                          outcome: PlaceOutcome, answer: ReconcileOutcome) returns (r: Result<Record>)
      requires Issue(call.intent, issuedAt, broker.token).Ok?
      modifies store, broker
      ensures var answered := broker.Answer(call, Issue(call.intent, issuedAt, broker.token).value, placedAt, outcome);
              var end := Carried(At(old(store.Contents()), old(broker.asked), Placing(call, reserved)), answered,
                answer);
              store.Contents() == end.db && broker.asked == end.log && Reported(end, r)
    {
      hide FailedRecord, PlacedRecord, ReconciledRecord, ReconcilerAnswer, Upsert, Issue, Do, Carried, Key, PermitError;
      ghost var db, log := store.Contents(), broker.asked;
      var record := reserved;
      var permit := Issue(call.intent, issuedAt, broker.token).value;
      var placed := broker.PlaceOrder(call, permit, placedAt, outcome);
      AfterPlacing(db, log, call, reserved, placed, answer);
      if placed.PlaceRaised? {
        record := FailedRecord(record, placed.error);
        var _ :- store.UpsertRecord(Key(call), record);
        return Raised(placed.error);
      }
      record := PlacedRecord(record, placed);
      var reconciliation := ReconcilerAnswer(record, answer);
      if reconciliation.ReconcileRaised? {
        return Raised("reconcile_order_failed");
      }
      record := ReconciledRecord(record, reconciliation);
      var _ :- store.UpsertRecord(Key(call), record);
      return Ok(record);
    }
  }
}
