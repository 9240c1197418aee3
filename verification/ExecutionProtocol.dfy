/**
 Any number of execute calls, from any number of processes, interleaved step by step over one durable
 store. A step is one atomic interaction: look the key up, reserve it, ask the broker, reconcile, write
 the result. Any call may raise or stop for good between two steps.
 */
module ExecutionProtocol {
  import opened Common
  import opened OrderStore

  // ---------- the pre-trade checks ----------

  datatype PreTrade = PreTrade(
    decisionId: string,
    decisionApproved: bool,
    modeLiveCapable: bool,
    liveTradingEnabled: bool,
    liveOrdersEnabled: bool,
    killSwitch: bool,
    healthMarket: Market,
    healthyForLive: bool,
    compliance: Option<(Market, bool)>
  )

  datatype Call = Call(intent: Intent, checks: PreTrade)

  function Given(s: Option<string>): bool {
    s.Some? && s.value != ""
  }

  function PreTradeError(call: Call): Option<string> {
    var i, c := call.intent, call.checks;
    if !Given(i.riskDecisionId) then Some("risk_decision_id_required")
    else if i.riskDecisionId.value != c.decisionId then Some("risk_decision_id_mismatch")
    else if !c.decisionApproved then Some("risk_decision_not_approved")
    else if !c.modeLiveCapable then Some("trading_mode_not_live_capable")
    else if !c.liveTradingEnabled then Some("live_trading_enabled_false")
    else if !c.liveOrdersEnabled then Some("live_orders_enabled_false")
    else if c.killSwitch then Some("kill_switch_enabled")
    else if c.healthMarket != i.market then Some("broker_market_mismatch")
    else if !c.healthyForLive then Some("broker_health_not_live_ready")
    else if i.market.INDIA? && (c.compliance.None? || !c.compliance.value.1) then Some("india_compliance_not_approved")
    else if i.market.INDIA? && c.compliance.value.0 != i.market then Some("india_compliance_market_mismatch")
    else if i.idempotencyKey == "" then Some("idempotency_key_required")
    else None
  }

  // ---------- the broker, as an arbitrary answer ----------

  datatype PlaceOutcome = PlaceRaised(error: string) | Placed(status: OrderStatus, brokerOrderId: Option<string>,
                                      raw: string)

  datatype ReconcileOutcome = ReconcileRaised | Reconciled(status: OrderStatus, raw: string)

  function FailedRecord(record: Record, error: string): Record {
    record.(status := UNKNOWN_REQUIRES_RECONCILIATION, reconciliationState := BLOCKING_DUPLICATES,
      brokerResponse := error)
  }

  function PlacedRecord(record: Record, placed: PlaceOutcome): Record
    requires placed.Placed?
  {
    record.(status := placed.status, brokerOrderId := placed.brokerOrderId, brokerResponse := placed.raw)
  }

  /** Without a broker order id the broker is not asked, and the status is unknown. */
  function ReconcilerAnswer(record: Record, outcome: ReconcileOutcome): ReconcileOutcome {
    if Given(record.brokerOrderId) then outcome else Reconciled(UNKNOWN_REQUIRES_RECONCILIATION, "")
  }

  function ReconciledRecord(record: Record, answer: ReconcileOutcome): Record
    requires answer.Reconciled?
  {
    record.(status := answer.status,
            finalReconciliation := answer.raw,
            reconciliationState := if answer.status.UNKNOWN_REQUIRES_RECONCILIATION? then BLOCKING_DUPLICATES
              else RECONCILED)
  }

  // ---------- states and steps ----------

  datatype Phase =
    | Looking(call: Call)
    | Reserving(call: Call, record: Record)
    | Placing(call: Call, record: Record)
    | Failing(call: Call, record: Record)
    | Reconciling(call: Call, record: Record)
    | Writing(call: Call, record: Record)
    | Returned(call: Call, record: Record)
    | Stopped

  /** log is what the broker was asked to place, in order. */
  datatype System = System(db: Db, calls: map<int, Phase>, log: seq<Call>)

  datatype Step =
    | Start(id: int, call: Call)
    | Look(id: int, newRecordId: string)
    | DoReserve(id: int)
    | Place(id: int, outcome: PlaceOutcome)
    | Reconcile(id: int, answer: ReconcileOutcome)
    | Write(id: int)
    | Crash(id: int)

  const INITIAL := System(Db(map[], map[]), map[], [])

  function Key(call: Call): string {
    call.intent.idempotencyKey
  }

  function To(s: System, id: int, phase: Phase): System {
    s.(calls := s.calls[id := phase])
  }

  /** A step that is not enabled changes nothing. */
  function Do(s: System, step: Step): System {
    match step
    case Start(id, call) =>
      if id in s.calls then s else To(s, id, if PreTradeError(call).Some? then Stopped else Looking(call))
    case Look(id, newRecordId) =>
      if id !in s.calls || !s.calls[id].Looking? then s else
      var call := s.calls[id].call;
      var existing := Get(s.db, Key(call));
      To(s, id, if existing.Some? then Returned(call, existing.value)
        else Reserving(call, NewRecord(newRecordId, call.intent)))
    case DoReserve(id) =>
      if id !in s.calls || !s.calls[id].Reserving? then s else
      var Reserving(call, record) := s.calls[id];
      var r := Reserve(s.db, Key(call), record);
      if r.Raised? then To(s, id, Stopped) else To(s, id, Placing(call, record)).(db := r.value)
    case Place(id, outcome) =>
      if id !in s.calls || !s.calls[id].Placing? then s else
      var Placing(call, record) := s.calls[id];
      To(s, id, if outcome.PlaceRaised? then Failing(call, FailedRecord(record, outcome.error))
                else Reconciling(call, PlacedRecord(record, outcome)))
        .(log := s.log + [call])
    case Reconcile(id, given) =>
      if id !in s.calls || !s.calls[id].Reconciling? then s else
      var Reconciling(call, record) := s.calls[id];
      var answer := ReconcilerAnswer(record, given);
      To(s, id, if answer.ReconcileRaised? then Stopped else Writing(call, ReconciledRecord(record, answer)))
    case Write(id) =>
      if id !in s.calls || !(s.calls[id].Failing? || s.calls[id].Writing?) then s else
      var phase := s.calls[id];
      var r := Upsert(s.db, Key(phase.call), phase.record);
      if r.Raised? then To(s, id, Stopped)
      else To(s, id, if phase.Writing? then Returned(phase.call, phase.record) else Stopped).(db := r.value)
    case Crash(id) => To(s, id, Stopped)
  }

  function Run(s: System, steps: seq<Step>): System {
    if steps == [] then s else Do(Run(s, steps[..|steps| - 1]), steps[|steps| - 1])
  }

  // ---------- the invariant ----------

  /** Reserved the key, and has not written the result yet. */
  predicate Holds(phase: Phase) {
    phase.Placing? || phase.Failing? || phase.Reconciling? || phase.Writing?
  }

  /** Under the key the store still has the record as it was reserved. */
  ghost predicate StillReserved(db: Db, record: Record) {
    Get(db, record.intent.idempotencyKey) == Some(NewRecord(record.id, record.intent))
  }

  ghost predicate PhaseOk(s: System, phase: Phase) {
    && (!phase.Stopped? ==> PreTradeError(phase.call).None?)
    && (phase.Reserving? || phase.Placing? ==> phase.record == NewRecord(phase.record.id, phase.call.intent))
    && (phase.Reconciling? ==> phase.record.reconciliationState.REQUIRED?)
    && (phase.Failing? || phase.Writing? ==> Settled(phase.record))
    && (Holds(phase) ==> phase.record.intent == phase.call.intent && StillReserved(s.db, phase.record))
    && (phase.Placing? ==> !PlacedUnder(s.log, Key(phase.call)))
    && (phase.Failing? || phase.Reconciling? || phase.Writing? ==> PlacedUnder(s.log, Key(phase.call)))
    && (phase.Returned? ==>
         Get(s.db, Key(phase.call)).Some? && SameOrder(Get(s.db, Key(phase.call)).value, phase.record))
  }

  predicate SameOrder(a: Record, b: Record) {
    a.id == b.id && a.intent == b.intent
  }

  predicate PlacedUnder(log: seq<Call>, key: string) {
    exists i :: 0 <= i < |log| && Key(log[i]) == key
  }

  /** A written result: duplicates are blocked exactly when the status is unknown. */
  predicate Settled(record: Record) {
    && (record.reconciliationState.RECONCILED? || record.reconciliationState.BLOCKING_DUPLICATES?)
    && (record.reconciliationState.BLOCKING_DUPLICATES? <==> record.status.UNKNOWN_REQUIRES_RECONCILIATION?)
  }

  predicate StoredOk(record: Record) {
    record == NewRecord(record.id, record.intent) || Settled(record)
  }

  ghost predicate SettledWasPlaced(s: System, key: string)
    requires key in s.db.keys
  {
    Settled(s.db.keys[key].payload) ==> PlacedUnder(s.log, key)
  }

  ghost predicate PlacementOk(s: System, placed: Call) {
    && PreTradeError(placed).None?
    && Get(s.db, Key(placed)).Some?
    && Get(s.db, Key(placed)).value.intent == placed.intent
  }

  ghost predicate SysInv(s: System) {
    && Agrees(s.db)
    && (forall id :: id in s.calls ==> PhaseOk(s, s.calls[id]))
    && (forall a, b :: a in s.calls && b in s.calls && a != b && Holds(s.calls[a]) && Holds(s.calls[b]) ==>
          Key(s.calls[a].call) != Key(s.calls[b].call))
    && (forall k :: k in s.db.keys ==> StoredOk(s.db.keys[k].payload) && SettledWasPlaced(s, k))
    && (forall i :: 0 <= i < |s.log| ==> PlacementOk(s, s.log[i]))
    && (forall i, j :: 0 <= i < j < |s.log| ==> Key(s.log[i]) != Key(s.log[j]))
  }

  /** A step that only moves one call on, without giving it a hold, keeps the invariant. */
  lemma LocalStepKeeps(s: System, id: int, phase: Phase)
    requires SysInv(s) && PhaseOk(s, phase)
    requires Holds(phase) ==> id in s.calls && Holds(s.calls[id]) && s.calls[id].call == phase.call
    ensures SysInv(To(s, id, phase))
  {
    var s' := To(s, id, phase);
    hide Agrees, PhaseOk, StoredOk, Key;
    assert forall x :: x in s'.calls ==> PhaseOk(s', s'.calls[x]) by {
      forall x | x in s'.calls
        ensures PhaseOk(s', s'.calls[x])
      {
        PhaseDependsOnDbAndLog(s, s', s'.calls[x]);
        assert x != id ==> PhaseOk(s, s.calls[x]);
      }
    }
    forall i | 0 <= i < |s'.log|
      ensures PlacementOk(s', s'.log[i])
    {
      assert PlacementOk(s, s.log[i]);
    }
  }

  lemma PhaseDependsOnDbAndLog(s: System, s': System, phase: Phase)
    requires s.db == s'.db && s.log == s'.log
    ensures PhaseOk(s, phase) == PhaseOk(s', phase)
  {
  }

  /** One key's record is written: by a call that has just reserved it, or by the call that holds it. */
  ghost predicate OneKeyWritten(s: System, s': System, id: int, record: Record) {
    var key := record.intent.idempotencyKey;
    && id in s'.calls && s'.calls == s.calls[id := s'.calls[id]] && s'.log == s.log
    && Agrees(s'.db) && Records(s'.db) == Records(s.db)[key := record]
    && StoredOk(record) && (Settled(record) ==> PlacedUnder(s.log, key))
    && (Get(s.db, key).Some? ==> SameOrder(Get(s.db, key).value, record))
    && (forall x :: x in s.calls && x != id && Holds(s.calls[x]) ==> Key(s.calls[x].call) != key)
    && (Holds(s'.calls[id]) ==> Key(s'.calls[id].call) == key)
  }

  lemma GetAfterWrite(db: Db, db': Db, record: Record, key: string)
    requires Records(db') == Records(db)[record.intent.idempotencyKey := record]
    ensures Get(db', key) == if key == record.intent.idempotencyKey then Some(record) else Get(db, key)
  {
    assert key in Records(db') <==> key in db'.keys;
    assert key in Records(db) <==> key in db.keys;
    if key in db'.keys {
      assert Records(db')[key] == db'.keys[key].payload;
    }
    if key in db.keys {
      assert Records(db)[key] == db.keys[key].payload;
    }
  }

  lemma OtherPhaseKept(s: System, s': System, id: int, record: Record, x: int)
    requires OneKeyWritten(s, s', id, record) && x in s.calls && x != id && PhaseOk(s, s.calls[x])
    ensures PhaseOk(s', s.calls[x])
  {
    hide Agrees, StoredOk;
    if Holds(s.calls[x]) || s.calls[x].Returned? {
      GetAfterWrite(s.db, s'.db, record, Key(s.calls[x].call));
    }
  }

  lemma OneKeyWrittenKeeps(s: System, s': System, id: int, record: Record)
    requires SysInv(s) && OneKeyWritten(s, s', id, record) && PhaseOk(s', s'.calls[id])
    ensures SysInv(s')
  {
    hide PhaseOk, StoredOk, Agrees;
    forall x | x in s'.calls
      ensures PhaseOk(s', s'.calls[x])
    {
      if x != id {
        OtherPhaseKept(s, s', id, record, x);
      }
    }
    forall i | 0 <= i < |s'.log|
      ensures PlacementOk(s', s'.log[i])
    {
      assert PlacementOk(s, s.log[i]);
      GetAfterWrite(s.db, s'.db, record, Key(s.log[i]));
    }
    forall k | k in s'.db.keys
      ensures StoredOk(s'.db.keys[k].payload) && SettledWasPlaced(s', k)
    {
      GetAfterWrite(s.db, s'.db, record, k);
      assert k in s.db.keys ==> SettledWasPlaced(s, k);
    }
  }

  /** Nobody holds a key the store does not have, and nothing was placed under it. */
  lemma FreshKeyIsUnused(s: System, key: string)
    requires SysInv(s) && Get(s.db, key).None?
    ensures forall x :: x in s.calls && Holds(s.calls[x]) ==> Key(s.calls[x].call) != key
    ensures !PlacedUnder(s.log, key)
  {
    forall x | x in s.calls && Holds(s.calls[x])
      ensures Key(s.calls[x].call) != key
    {
      assert PhaseOk(s, s.calls[x]);
    }
    forall i | 0 <= i < |s.log|
      ensures Key(s.log[i]) != key
    {
      assert PlacementOk(s, s.log[i]);
    }
  }

  lemma PhaseHolds(s: System, id: int)
    requires SysInv(s) && id in s.calls
    ensures PhaseOk(s, s.calls[id]) && Agrees(s.db)
  {
  }

  lemma ReservedKeeps(s: System, id: int, db: Db)
    requires SysInv(s) && id in s.calls && s.calls[id].Reserving?
    requires Reserve(s.db, Key(s.calls[id].call), s.calls[id].record) == Ok(db)
    ensures SysInv(To(s, id, Placing(s.calls[id].call, s.calls[id].record)).(db := db))
  {
    hide Agrees, SysInv, Records, PreTradeError;
    var Reserving(call, record) := s.calls[id];
    var s' := To(s, id, Placing(call, record)).(db := db);
    PhaseHolds(s, id);
    ReserveRefinesDictionary(s.db, record);
    FreshKeyIsUnused(s, Key(call));
    GetAfterWrite(s.db, db, record, Key(call));
    OneKeyWrittenKeeps(s, s', id, record);
  }

  lemma ReserveStepKeeps(s: System, id: int)
    requires SysInv(s) && id in s.calls && s.calls[id].Reserving?
    ensures SysInv(Do(s, DoReserve(id)))
  {
    hide Reserve, SysInv, PhaseOk;
    var r := Reserve(s.db, Key(s.calls[id].call), s.calls[id].record);
    if r.Ok? {
      ReservedKeeps(s, id, r.value);
    } else {
      assert PhaseOk(s, Stopped) by {
        StoppedOk(s);
      }
      LocalStepKeeps(s, id, Stopped);
    }
  }

  lemma StoppedOk(s: System)
    ensures PhaseOk(s, Stopped)
  {
  }

  lemma PlacedStays(log: seq<Call>, call: Call)
    ensures forall k :: PlacedUnder(log + [call], k) <==> PlacedUnder(log, k) || k == Key(call)
  {
    assert (log + [call])[|log|] == call;
    forall k | PlacedUnder(log, k)
      ensures PlacedUnder(log + [call], k)
    {
      var i :| 0 <= i < |log| && Key(log[i]) == k;
      assert (log + [call])[i] == log[i];
    }
  }

  lemma PlaceStepKeeps(s: System, id: int, outcome: PlaceOutcome)
    requires SysInv(s) && id in s.calls && s.calls[id].Placing?
    ensures SysInv(Do(s, Place(id, outcome)))
  {
    hide Agrees, PreTradeError, StoredOk;
    var Placing(call, record) := s.calls[id];
    var s' := Do(s, Place(id, outcome));
    assert PhaseOk(s, s.calls[id]);
    assert forall i :: 0 <= i < |s.log| ==> s'.log[i] == s.log[i];
    assert s'.log[|s.log|] == call;
    PlacedStays(s.log, call);
    forall k | k in s'.db.keys
      ensures SettledWasPlaced(s', k)
    {
      assert SettledWasPlaced(s, k);
    }
    forall x | x in s'.calls
      ensures PhaseOk(s', s'.calls[x])
    {
      if x != id {
        assert PhaseOk(s, s.calls[x]);
        if s.calls[x].Placing? {
          assert Key(s.calls[x].call) != Key(call);
        }
      }
    }
    forall i | 0 <= i < |s'.log|
      ensures PlacementOk(s', s'.log[i])
    {
      if i < |s.log| {
        assert PlacementOk(s, s.log[i]);
      }
    }
  }

  /** What a call that is about to write knows. */
  lemma WriterFacts(s: System, id: int)
    requires SysInv(s) && id in s.calls && (s.calls[id].Failing? || s.calls[id].Writing?)
    ensures var call, record := s.calls[id].call, s.calls[id].record;
            && record.intent == call.intent && PreTradeError(call).None?
            && Get(s.db, Key(call)) == Some(NewRecord(record.id, record.intent))
            && Settled(record) && PlacedUnder(s.log, Key(call)) && Agrees(s.db)
            && forall x :: x in s.calls && x != id && Holds(s.calls[x]) ==> Key(s.calls[x].call) != Key(call)
  {
    assert PhaseOk(s, s.calls[id]);
  }

  lemma WrittenKeeps(s: System, id: int, db: Db)
    requires SysInv(s) && id in s.calls && (s.calls[id].Failing? || s.calls[id].Writing?)
    requires Agrees(db) && Records(db) == Records(s.db)[Key(s.calls[id].call) := s.calls[id].record]
    ensures var phase := s.calls[id];
            SysInv(To(s, id, if phase.Writing? then Returned(phase.call, phase.record) else Stopped).(db := db))
  {
    hide SysInv, Agrees, PreTradeError, Records;
    var phase := s.calls[id];
    WriterFacts(s, id);
    GetAfterWrite(s.db, db, phase.record, Key(phase.call));
    OneKeyWrittenKeeps(s, To(s, id, if phase.Writing? then Returned(phase.call, phase.record) else Stopped).(db := db),
                       id, phase.record);
  }

  lemma WriteStepKeeps(s: System, id: int)
    requires SysInv(s) && id in s.calls && (s.calls[id].Failing? || s.calls[id].Writing?)
    ensures Upsert(s.db, Key(s.calls[id].call), s.calls[id].record).Ok?
    ensures SysInv(Do(s, Write(id)))
  {
    hide SysInv, Agrees, Upsert, PreTradeError, Records;
    WriterFacts(s, id);
    OwnerUpsert(s.db, s.calls[id].record);
    WrittenKeeps(s, id, Upsert(s.db, Key(s.calls[id].call), s.calls[id].record).value);
  }

  lemma StartStepKeeps(s: System, id: int, call: Call)
    requires SysInv(s) && id !in s.calls
    ensures SysInv(Do(s, Start(id, call)))
  {
    LocalStepKeeps(s, id, Do(s, Start(id, call)).calls[id]);
  }

  lemma LookStepKeeps(s: System, id: int, newRecordId: string)
    requires SysInv(s) && id in s.calls && s.calls[id].Looking?
    ensures SysInv(Do(s, Look(id, newRecordId)))
  {
    hide SysInv, PreTradeError, Settled;
    PhaseHolds(s, id);
    LocalStepKeeps(s, id, Do(s, Look(id, newRecordId)).calls[id]);
  }

  lemma ReconcileStepKeeps(s: System, id: int, answer: ReconcileOutcome)
    requires SysInv(s) && id in s.calls && s.calls[id].Reconciling?
    ensures SysInv(Do(s, Reconcile(id, answer)))
  {
    hide SysInv, PreTradeError, Agrees;
    PhaseHolds(s, id);
    LocalStepKeeps(s, id, Do(s, Reconcile(id, answer)).calls[id]);
  }

  lemma StepKeeps(s: System, step: Step)
    requires SysInv(s)
    ensures SysInv(Do(s, step))
  {
    hide SysInv;
    if Do(s, step) != s {
      match step
      case Start(id, call) => StartStepKeeps(s, id, call);
      case Look(id, newRecordId) => LookStepKeeps(s, id, newRecordId);
      case DoReserve(id) => ReserveStepKeeps(s, id);
      case Place(id, outcome) => PlaceStepKeeps(s, id, outcome);
      case Reconcile(id, answer) => ReconcileStepKeeps(s, id, answer);
      case Write(id) => WriteStepKeeps(s, id);
      case Crash(id) =>
        StoppedOk(s);
        LocalStepKeeps(s, id, Stopped);
    }
  }

  lemma {:induction false} RunInv(steps: seq<Step>)
    ensures SysInv(Run(INITIAL, steps))
  {
    if steps != [] {
      RunInv(steps[..|steps| - 1]);
      StepKeeps(Run(INITIAL, steps[..|steps| - 1]), steps[|steps| - 1]);
    }
  }

  // ---------- the guarantees ----------

  /**
   Whatever the interleaving, and whoever raises or stops where, the broker is asked at most once per
   key; each order it was asked for had passed every pre-trade check and is the one the key was reserved for.
   */
  lemma AtMostOncePlacement(steps: seq<Step>)
    ensures var s := Run(INITIAL, steps);
            && (forall i, j :: 0 <= i < j < |s.log| ==> Key(s.log[i]) != Key(s.log[j]))
            && (forall i :: 0 <= i < |s.log| ==>
                  && PreTradeError(s.log[i]).None?
                  && Get(s.db, Key(s.log[i])).Some?
                  && Get(s.db, Key(s.log[i])).value.intent == s.log[i].intent)
  {
    RunInv(steps);
    var s := Run(INITIAL, steps);
    forall i | 0 <= i < |s.log|
      ensures PreTradeError(s.log[i]).None? && Get(s.db, Key(s.log[i])).Some?
      ensures Get(s.db, Key(s.log[i])).value.intent == s.log[i].intent
    {
      assert PlacementOk(s, s.log[i]);
    }
  }

  /** Nothing reaches the broker with the kill switch on, without an approved decision, or outside live mode. */
  lemma OnlyClearedOrdersArePlaced(steps: seq<Step>, i: nat)
    requires i < |Run(INITIAL, steps).log|
    ensures var placed := Run(INITIAL, steps).log[i];
            var c := placed.checks;
            && !c.killSwitch && c.liveTradingEnabled && c.liveOrdersEnabled && c.modeLiveCapable
            && c.decisionApproved && placed.intent.riskDecisionId == Some(c.decisionId)
            && c.healthyForLive && c.healthMarket == placed.intent.market
            && (placed.intent.market.INDIA? ==> c.compliance == Some((INDIA, true)))
  {
    AtMostOncePlacement(steps);
  }

  /** What a step writes to the store, if it writes at all. */
  function Written(s: System, step: Step): Option<(string, Record)> {
    match step
    case DoReserve(id) =>
      if id !in s.calls || !s.calls[id].Reserving? then None else
      var Reserving(call, record) := s.calls[id];
      if Reserve(s.db, Key(call), record).Ok? then Some((Key(call), record)) else None
    case Write(id) =>
      if id !in s.calls || !(s.calls[id].Failing? || s.calls[id].Writing?) then None else
      var phase := s.calls[id];
      if Upsert(s.db, Key(phase.call), phase.record).Ok? then Some((Key(phase.call), phase.record)) else None
    case _ => None
  }

  /** The latest record any step of the run wrote under a key. */
  function LastWritten(steps: seq<Step>, key: string): Option<Record> {
    if steps == [] then None else
    var before, step := steps[..|steps| - 1], steps[|steps| - 1];
    var w := Written(Run(INITIAL, before), step);
    if w.Some? && w.value.0 == key then Some(w.value.1) else LastWritten(before, key)
  }

  lemma StepWrites(s: System, step: Step, key: string)
    ensures Get(Do(s, step).db, key) ==
            if Written(s, step).Some? && Written(s, step).value.0 == key then Some(Written(s, step).value.1)
              else Get(s.db, key)
  {
    hide PreTradeError, ReconcilerAnswer, ReconciledRecord, PlacedRecord, FailedRecord, KeyTaken, OrderFrom,
      ApplyRecord;
  }

  lemma {:induction false} StoreHoldsLastWrite(steps: seq<Step>, key: string)
    ensures Get(Run(INITIAL, steps).db, key) == LastWritten(steps, key)
  {
    hide Do, Written;
    if steps != [] {
      StoreHoldsLastWrite(steps[..|steps| - 1], key);
      StepWrites(Run(INITIAL, steps[..|steps| - 1]), steps[|steps| - 1], key);
    }
  }

  /**
   The two tables always agree; what is stored under a key is the last record written there; and that
   record is as reserved, or settled with duplicates blocked exactly when its status is unknown.
   */
  lemma TablesAgree(steps: seq<Step>)
    ensures var s := Run(INITIAL, steps);
            && Agrees(s.db)
            && (forall k :: Get(s.db, k) == LastWritten(steps, k))
            && (forall k :: k in s.db.keys ==> StoredOk(s.db.keys[k].payload) && s.db.keys[k].blocksDuplicates)
            && |s.db.keys| == |s.db.orders|
  {
    RunInv(steps);
    var db := Run(INITIAL, steps).db;
    forall k ensures Get(db, k) == LastWritten(steps, k) {
      StoreHoldsLastWrite(steps, k);
    }
    forall k | k in db.keys ensures db.keys[k].blocksDuplicates {
      assert KeyRowAgrees(db, k);
    }
    SameNumberOfRows(db);
  }

  lemma SameNumberOfRows(db: Db)
    requires Agrees(db)
    ensures |db.keys| == |db.orders|
  {
    var owner := map k | k in db.keys :: db.keys[k].orderRecordId;
    assert forall k :: k in db.keys ==> KeyRowAgrees(db, k);
    InjectionCounts(db.keys.Keys, owner, db.orders.Keys);
  }

  lemma {:induction false} InjectionCounts(s: set<string>, f: map<string, string>, image: set<string>)
    requires s <= f.Keys
    requires forall a, b :: a in s && b in s && f[a] == f[b] ==> a == b
    requires image == set a | a in s :: f[a]
    ensures |s| == |image|
    decreases |s|
  {
    if s != {} {
      var a :| a in s;
      InjectionCounts(s - {a}, f, image - {f[a]});
    }
  }

  /** A settled key was placed exactly once. */
  lemma SettledMeansPlacedOnce(steps: seq<Step>, key: string)
    requires Get(Run(INITIAL, steps).db, key).Some? && Settled(Get(Run(INITIAL, steps).db, key).value)
    ensures var log := Run(INITIAL, steps).log;
            exists i :: 0 <= i < |log| && Key(log[i]) == key && forall j :: 0 <= j < |log| && Key(log[j]) == key ==>
              j == i
  {
    RunInv(steps);
    var s := Run(INITIAL, steps);
    assert SettledWasPlaced(s, key);
    var i :| 0 <= i < |s.log| && Key(s.log[i]) == key;
    forall j | 0 <= j < |s.log| && Key(s.log[j]) == key
      ensures j == i
    {
    }
  }

  /** A call that has reserved can always write its result. */
  lemma WritesNeverRaise(steps: seq<Step>, id: int)
    requires var s := Run(INITIAL, steps);
             id in s.calls && (s.calls[id].Failing? || s.calls[id].Writing?)
    ensures var s := Run(INITIAL, steps);
            Upsert(s.db, Key(s.calls[id].call), s.calls[id].record).Ok?
  {
    RunInv(steps);
    WriteStepKeeps(Run(INITIAL, steps), id);
  }

  /** A record, once stored, keeps its identity; once settled, it never changes again. */
  ghost predicate StoredGrows(db: Db, db': Db) {
    forall k :: Get(db, k).Some? ==>
      && Get(db', k).Some? && SameOrder(Get(db, k).value, Get(db', k).value)
      && (Settled(Get(db, k).value) ==> Get(db', k) == Get(db, k))
  }

  lemma StepStoredGrows(s: System, step: Step)
    requires SysInv(s)
    ensures StoredGrows(s.db, Do(s, step).db)
  {
    hide SysInv, PreTradeError, Upsert, Reserve, StoredGrows;
    NothingLost(s.db);
    if step.Write? && Do(s, step).db != s.db {
      var phase := s.calls[step.id];
      WriterFacts(s, step.id);
      OnlyOwnKeyWritten(s.db, Key(phase.call), phase.record);
    } else if step.DoReserve? && Do(s, step).db != s.db {
      var phase := s.calls[step.id];
      OnlyNewKeyReserved(s.db, Key(phase.call), phase.record);
    }
  }

  lemma NothingLost(db: Db)
    ensures StoredGrows(db, db)
  {
  }

  lemma OnlyNewKeyReserved(db: Db, key: string, record: Record)
    requires Reserve(db, key, record).Ok?
    ensures StoredGrows(db, Reserve(db, key, record).value)
  {
  }

  lemma OnlyOwnKeyWritten(db: Db, key: string, record: Record)
    requires Get(db, key).Some? && SameOrder(Get(db, key).value, record) && !Settled(Get(db, key).value)
    requires Upsert(db, key, record).Ok?
    ensures StoredGrows(db, Upsert(db, key, record).value)
  {
  }

  /** Over any continuation of any run, what is settled under a key stays. */
  lemma {:induction false} SettledForever(steps: seq<Step>, more: seq<Step>)
    ensures StoredGrows(Run(INITIAL, steps).db, Run(INITIAL, steps + more).db)
  {
    hide Do, SysInv;
    if more == [] {
      assert steps + more == steps;
    } else {
      var n := |more| - 1;
      SettledForever(steps, more[..n]);
      RunInv(steps + more[..n]);
      StepStoredGrows(Run(INITIAL, steps + more[..n]), more[n]);
      assert (steps + more)[..|steps + more| - 1] == steps + more[..n];
    }
  }

  /** The key is taken, and no call under way will write it. */
  ghost predicate Abandoned(s: System, key: string) {
    && Get(s.db, key).Some?
    && forall id :: id in s.calls && Holds(s.calls[id]) ==> Key(s.calls[id].call) != key
  }

  /** The same record is stored under the key, and it has been placed under as often. */
  ghost predicate KeyUntouched(s: System, s': System, key: string) {
    Get(s'.db, key) == Get(s.db, key) && (PlacedUnder(s'.log, key) <==> PlacedUnder(s.log, key))
  }

  lemma AbandonedStays(s: System, step: Step, key: string)
    requires Abandoned(s, key)
    ensures Abandoned(Do(s, step), key) && KeyUntouched(s, Do(s, step), key)
  {
    hide PreTradeError, ReconcilerAnswer, ReconciledRecord, PlacedRecord, FailedRecord, Upsert, Reserve;
    StepWrites(s, step, key);
    if step.DoReserve? && step.id in s.calls && s.calls[step.id].Reserving? {
      TakenKeyIsRefused(s.db, key, s.calls[step.id].record);
    }
    if step.Place? && step.id in s.calls && s.calls[step.id].Placing? {
      PlacedStays(s.log, s.calls[step.id].call);
    }
  }

  lemma TakenKeyIsRefused(db: Db, key: string, record: Record)
    requires Get(db, key).Some?
    ensures Reserve(db, key, record).Raised?
  {
  }

  /** Over any continuation, nothing writes an abandoned key and nothing is placed under it. */
  lemma {:induction false} AbandonedForever(s: System, more: seq<Step>, key: string)
    requires Abandoned(s, key)
    ensures Abandoned(Run(s, more), key) && KeyUntouched(s, Run(s, more), key)
  {
    hide Do, Abandoned;
    if more != [] {
      var n := |more| - 1;
      AbandonedForever(s, more[..n], key);
      AbandonedStays(Run(s, more[..n]), more[n], key);
    }
  }

  lemma StopOnlyStops(s: System, id: int, stop: Step)
    requires id in s.calls && Holds(s.calls[id]) && !stop.Write? && Do(s, stop).calls[id].Stopped?
    ensures Do(s, stop) == To(s, id, Stopped)
  {
    hide PreTradeError, Reserve, FailedRecord, PlacedRecord, ReconcilerAnswer, ReconciledRecord;
  }

  /** What a call between its reservation and its write knows: the key is as it reserved it, and its alone. */
  lemma HolderFacts(s: System, id: int)
    requires SysInv(s) && id in s.calls && Holds(s.calls[id])
    ensures var phase := s.calls[id];
            && Get(s.db, Key(phase.call)) == Some(NewRecord(phase.record.id, phase.call.intent))
            && (PlacedUnder(s.log, Key(phase.call)) <==> !phase.Placing?)
            && Abandoned(To(s, id, Stopped), Key(phase.call))
  {
    hide PreTradeError, Agrees, StoredOk;
    assert PhaseOk(s, s.calls[id]);
  }

  /**
   A call that stops between its reservation and its write, by a crash or a reconciliation that raises, leaves
   its key as reserved for good: whatever follows, the record never changes, and nothing more is placed under
   the key. If the call had not asked the broker yet, the order is never placed.
   */
  lemma StoppedCallKeepsItsKey(steps: seq<Step>, id: int, stop: Step, more: seq<Step>)
    requires var s := Run(INITIAL, steps);
             id in s.calls && Holds(s.calls[id]) && !stop.Write? && Do(s, stop).calls[id].Stopped?
    ensures var s := Run(INITIAL, steps);
            var phase, s' := s.calls[id], Run(Do(s, stop), more);
            && Get(s'.db, Key(phase.call)) == Some(NewRecord(phase.record.id, phase.call.intent))
            && (PlacedUnder(s'.log, Key(phase.call)) <==> !phase.Placing?)
  {
    hide Run, Do, SysInv, Abandoned, PlacedUnder;
    RunInv(steps);
    var s := Run(INITIAL, steps);
    StopOnlyStops(s, id, stop);
    HolderFacts(s, id);
    AbandonedForever(Do(s, stop), more, Key(s.calls[id].call));
  }

  /** A call that returns reports the order its key stands for, whoever placed it. */
  lemma ReturnedRecordIsTheKeys(steps: seq<Step>, id: int)
    requires var s := Run(INITIAL, steps);
             id in s.calls && s.calls[id].Returned?
    ensures var s := Run(INITIAL, steps);
            var Returned(call, record) := s.calls[id];
            Get(s.db, Key(call)).Some? && SameOrder(Get(s.db, Key(call)).value, record)
  {
    RunInv(steps);
    var s := Run(INITIAL, steps);
    assert PhaseOk(s, s.calls[id]);
  }
}
