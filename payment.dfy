/** The payment handler: creates a ledger entry in state "Initiated", then applies the
    processor's (normalized) answer to it according to the transaction type, and
    records an audit entry. */
module PaymentProcess {
  import opened Records
  import opened Store
  import Text

  const Initiated: string := "Initiated"
  const RecognizedTypes: set<string> := {"SALE", "REFUND", "VOID", "REVERSAL"}
  /** The normalized processor signals the SALE and REFUND branches act on. */
  const Signals: set<string> := {"success", "failed", "pending"}

  /** What a processor response does to the ledger Status. */
  datatype StatusChange =
    | InvalidType             // rejected: 400, nothing written
    | NoTransition            // Status left as it is; the audit entry is still written
    | SetStatus(status: string)

  /** The status chosen for a transaction type and a normalized processor signal. */
  function NewStatus(txnType: string, signal: string): (c: StatusChange)
    ensures c.InvalidType? <==> txnType !in RecognizedTypes
    ensures c.NoTransition? <==> txnType in {"SALE", "REFUND"} && signal !in Signals
  {
    if txnType == "SALE" then
      if signal == "success" then SetStatus("Success")
      else if signal == "failed" then SetStatus("Failed")
      else if signal == "pending" then SetStatus("Pending")
      else NoTransition
    else if txnType == "REFUND" then
      if signal == "success" then SetStatus("Refunded")
      else if signal == "failed" then SetStatus("Refund Failed")
      else if signal == "pending" then SetStatus("Refund Pending")
      else NoTransition
    else if txnType == "VOID" then SetStatus("Voided")
    else if txnType == "REVERSAL" then SetStatus("Reversed")
    else InvalidType
  }

  /** One row of the transition table: a type, a signal (None: any signal) and the
      status it leads to. */
  datatype Row = Row(txnType: string, signal: Option<string>, status: string)

  const TransitionTable: seq<Row> := [
    Row("SALE", Some("success"), "Success"),
    Row("SALE", Some("failed"), "Failed"),
    Row("SALE", Some("pending"), "Pending"),
    Row("REFUND", Some("success"), "Refunded"),
    Row("REFUND", Some("failed"), "Refund Failed"),
    Row("REFUND", Some("pending"), "Refund Pending"),
    Row("VOID", None, "Voided"),
    Row("REVERSAL", None, "Reversed")
  ]

  predicate Matches(row: Row, txnType: string, signal: string) {
    row.txnType == txnType && (row.signal.None? || row.signal.value == signal)
  }

  ghost predicate InTable(txnType: string, signal: string, status: string) {
    exists i :: 0 <= i < |TransitionTable| && Matches(TransitionTable[i], txnType, signal) && TransitionTable[i].status == status
  }

  /** The status mapping sets exactly the statuses the transition table lists. */
  lemma NewStatusFollowsTable(txnType: string, signal: string, status: string)
    ensures NewStatus(txnType, signal) == SetStatus(status) <==> InTable(txnType, signal, status)
  {
    var T := TransitionTable;
    if InTable(txnType, signal, status) {
      var i :| 0 <= i < |T| && Matches(T[i], txnType, signal) && T[i].status == status;
      assert i in {0, 1, 2, 3, 4, 5, 6, 7};
    }
    if NewStatus(txnType, signal) == SetStatus(status) {
      if txnType == "SALE" {
        if signal == "success" { assert Matches(T[0], txnType, signal); }
        else if signal == "failed" { assert Matches(T[1], txnType, signal); }
        else { assert Matches(T[2], txnType, signal); }
      } else if txnType == "REFUND" {
        if signal == "success" { assert Matches(T[3], txnType, signal); }
        else if signal == "failed" { assert Matches(T[4], txnType, signal); }
        else { assert Matches(T[5], txnType, signal); }
      } else if txnType == "VOID" {
        assert Matches(T[6], txnType, signal);
      } else {
        assert Matches(T[7], txnType, signal);
      }
    }
  }

  /** The ledger item written by persist_payment_ledger. */
  function InitiatedRecord(id: string, amount: real, processorId: string, source: string, txnType: string, timestamp: string): (r: Transaction)
    // keyed by the new id, "Initiated", carrying the arguments ...
    ensures r.id == id && r.status == Some(Initiated)
    ensures r.amount == Some(amount) && r.processorId == Some(processorId)
    ensures r.source == Some(source) && r.txnType == Some(txnType) && r.timestamp == Some(timestamp)
    // ... and no back-reference or reason, which only derived records carry
    ensures r.originalId.None? && r.reason.None?
  {
    Transaction(id, Some(amount), Some(processorId), Some(Initiated), Some(source), Some(txnType), None, None, Some(timestamp))
  }

  /** A new ledger entry with a fresh id is the only change: it is "Initiated" and
      carries the arguments. */
  lemma InitiateAddsOneEntry(s: Snapshot, id: string, amount: real, processorId: string, source: string, txnType: string, timestamp: string)
    requires id !in s.ledger
    ensures var r := ApplyWrite(s, LedgerPut(InitiatedRecord(id, amount, processorId, source, txnType, timestamp)));
      && r.ledger.Keys == s.ledger.Keys + {id}
      && |r.ledger| == |s.ledger| + 1
      && (forall k :: k in s.ledger ==> r.ledger[k] == s.ledger[k])
      && r.ledger[id].status == Some(Initiated)
      && r.ledger[id].amount == Some(amount)
      && r.ledger[id].processorId == Some(processorId)
      && r.ledger[id].source == Some(source)
      && r.ledger[id].txnType == Some(txnType)
      && r.audit == s.audit && r.queue == s.queue
  {
  }

  /** The arguments of process_payment_response. */
  datatype ResponseCall = ResponseCall(
    transactionId: string,
    amount: real,
    processorId: string,
    response: ProcessorResponse,
    source: string,
    txnType: string)

  /** The audit item written by persist_payment_audit_trail. */
  function PaymentAuditEntry(call: ResponseCall, auditId: string, timestamp: string): (e: AuditEntry)
    // keyed by its own id, with no lifecycle Status ...
    ensures e.auditId == auditId && e.status.None?
    // ... referencing the transaction and recording the call and the processor response
    ensures e.details.PaymentDetails? && e.details.transactionId == call.transactionId
    ensures e.details.amount == call.amount && e.details.processorId == call.processorId
    ensures e.details.source == call.source && e.details.txnType == call.txnType
    ensures e.details.response == call.response && e.details.timestamp == timestamp
  {
    AuditEntry(auditId, None,
      PaymentDetails(call.transactionId, call.amount, call.processorId, call.source, call.txnType, call.response, timestamp))
  }

  /** What process_payment_response writes, in order, for normalized signal `signal`. */
  function ResponsePlan(call: ResponseCall, signal: string, auditId: string, timestamp: string): (p: Plan)
    // refused, with 400, exactly for an unrecognized type
    ensures p.Reject? <==> call.txnType !in RecognizedTypes
    ensures p.Reject? ==> p.code == BadRequest
    // otherwise the last write is the audit entry, preceded by a Status update exactly
    // when the type and signal choose a status
    ensures p.Perform? ==>
      && 1 <= |p.writes| <= 2
      && p.writes[|p.writes| - 1] == AuditPut(PaymentAuditEntry(call, auditId, timestamp))
      && (|p.writes| == 2 <==> NewStatus(call.txnType, signal).SetStatus?)
    ensures p.Perform? && |p.writes| == 2 ==>
      p.writes[0] == LedgerUpdate(call.transactionId, NewStatus(call.txnType, signal).status, None)
  {
    var entry := AuditPut(PaymentAuditEntry(call, auditId, timestamp));
    match NewStatus(call.txnType, signal)
    case InvalidType => Reject(BadRequest)
    case NoTransition => Perform([entry])
    case SetStatus(st) => Perform([LedgerUpdate(call.transactionId, st, None), entry])
  }

  /** An unrecognized transaction type is answered with 400 and nothing is written. */
  lemma InvalidTypeWritesNothing(call: ResponseCall, signal: string, auditId: string, timestamp: string, accepted: nat)
    requires call.txnType !in RecognizedTypes
    ensures Execute(ResponsePlan(call, signal, auditId, timestamp), accepted) == Outcome([], BadRequest)
  {
  }

  /** With a recognized type and working stores: 200, exactly one audit entry (under
      the new AuditID, referencing the transaction), only the Status of the keyed
      ledger item changes, and it does not change at all for a signal the type does
      not act on. */
  lemma ResponseEffect(s: Snapshot, call: ResponseCall, signal: string, auditId: string, timestamp: string, accepted: nat)
    requires call.txnType in RecognizedTypes && accepted >= 2
    ensures var o := Execute(ResponsePlan(call, signal, auditId, timestamp), accepted);
      var r := ApplyAll(s, o.done);
      var id := call.transactionId;
      && o.code == OK
      && r.audit == s.audit[auditId := PaymentAuditEntry(call, auditId, timestamp)]
      && r.audit[auditId].details.transactionId == id
      && r.queue == s.queue
      && (forall k :: k in s.ledger && k != id ==> k in r.ledger && r.ledger[k] == s.ledger[k])
      && (NewStatus(call.txnType, signal).NoTransition? ==> r.ledger == s.ledger)
      && (NewStatus(call.txnType, signal).SetStatus? ==>
            r.ledger == s.ledger[id := Updated(s.ledger, id, NewStatus(call.txnType, signal).status, None)])
  {
    var entry := AuditPut(PaymentAuditEntry(call, auditId, timestamp));
    match NewStatus(call.txnType, signal)
    case NoTransition =>
      ApplyOne(s, entry);
    case SetStatus(st) =>
      ApplyTwo(s, LedgerUpdate(call.transactionId, st, None), entry);
  }

  /** A status update touches one field of one item: every other item, and every other
      attribute of the keyed item, is unchanged; the audit table and queue are untouched. */
  lemma UpdateSetsOnlyStatus(s: Snapshot, id: string, status: string)
    ensures var r := ApplyWrite(s, LedgerUpdate(id, status, None));
      && r.ledger.Keys == s.ledger.Keys + {id}
      && (forall k :: k in s.ledger && k != id ==> r.ledger[k] == s.ledger[k])
      && (id in s.ledger ==> r.ledger[id] == s.ledger[id].(status := Some(status)))
      && (id !in s.ledger ==> r.ledger[id] == Bare(id).(status := Some(status)))
      && r.audit == s.audit && r.queue == s.queue
  {
  }

  /** The Status a processor response leaves on the keyed ledger item. */
  function StatusAfter(s: Snapshot, call: ResponseCall, signal: string, auditId: string, timestamp: string): Option<string> {
    var r := ApplyAll(s, Execute(ResponsePlan(call, signal, auditId, timestamp), 2).done);
    if call.transactionId in r.ledger then r.ledger[call.transactionId].status else None
  }

  /** Applying the same processor response twice leaves the ledger as applying it
      once: the mapping is deterministic and the update overwrites. */
  lemma ResponseIdempotent(s: Snapshot, call: ResponseCall, signal: string, auditId1: string, time1: string, auditId2: string, time2: string)
    requires call.txnType in RecognizedTypes
    ensures var once := ApplyAll(s, Execute(ResponsePlan(call, signal, auditId1, time1), 2).done);
      var twice := ApplyAll(once, Execute(ResponsePlan(call, signal, auditId2, time2), 2).done);
      && twice.ledger == once.ledger
      && StatusAfter(once, call, signal, auditId2, time2) == StatusAfter(s, call, signal, auditId1, time1)
  {
    ResponseEffect(s, call, signal, auditId1, time1, 2);
    var once := ApplyAll(s, Execute(ResponsePlan(call, signal, auditId1, time1), 2).done);
    ResponseEffect(once, call, signal, auditId2, time2, 2);
    match NewStatus(call.txnType, signal)
    case NoTransition =>
    case SetStatus(st) =>
      UpdateTwice(s.ledger, call.transactionId, st);
  }

  /** Setting the same Status twice leaves the ledger as setting it once. */
  lemma UpdateTwice(ledger: map<string, Transaction>, id: string, status: string)
    ensures var once := ledger[id := Updated(ledger, id, status, None)];
      once[id := Updated(once, id, status, None)] == once
  {
    var once := ledger[id := Updated(ledger, id, status, None)];
    assert Updated(once, id, status, None) == once[id];
  }

  /** persist_payment_ledger: one put of an "Initiated" item under the fresh id. */
  method PersistPaymentLedger(t: Tables, id: string, amount: real, processorId: string, source: string, txnType: string,
                              timestamp: string, fails: bool) returns (ok: bool)
    modifies t
    ensures ok == !fails
    ensures t.State() == if ok then ApplyWrite(old(t.State()), LedgerPut(InitiatedRecord(id, amount, processorId, source, txnType, timestamp)))
                         else old(t.State())
  {
    if fails { return false; }
    t.Apply(LedgerPut(InitiatedRecord(id, amount, processorId, source, txnType, timestamp)));
    return true;
  }

  /** update_payment_status: sets the Status attribute of the keyed item. */
  method UpdatePaymentStatus(t: Tables, id: string, status: string, fails: bool) returns (ok: bool)
    modifies t
    ensures ok == !fails
    ensures t.State() == if ok then ApplyWrite(old(t.State()), LedgerUpdate(id, status, None)) else old(t.State())
  {
    if fails { return false; }
    t.Apply(LedgerUpdate(id, status, None));
    return true;
  }

  /** persist_payment_audit_trail: one put of a new audit item. */
  method PersistPaymentAuditTrail(t: Tables, call: ResponseCall, auditId: string, timestamp: string, fails: bool) returns (ok: bool)
    modifies t
    ensures ok == !fails
    ensures t.State() == if ok then ApplyWrite(old(t.State()), AuditPut(PaymentAuditEntry(call, auditId, timestamp))) else old(t.State())
  {
    if fails { return false; }
    t.Apply(AuditPut(PaymentAuditEntry(call, auditId, timestamp)));
    return true;
  }

  /** process_payment_response, against stores that accept `accepted` writes. A store
      failure raises in the source; the handler reports it as 500. */
  method ProcessPaymentResponse(t: Tables, call: ResponseCall, signal: string, auditId: string, timestamp: string, accepted: nat)
    returns (code: int)
    modifies t
    ensures var o := Execute(ResponsePlan(call, signal, auditId, timestamp), accepted);
      code == o.code && t.State() == ApplyAll(old(t.State()), o.done)
  {
    var change := NewStatus(call.txnType, signal);
    if change.InvalidType? {
      return BadRequest;
    }
    var written := 0;
    if change.SetStatus? {
      var ok := UpdatePaymentStatus(t, call.transactionId, change.status, accepted < 1);
      if !ok {
        return ServerError;
      }
      written := 1;
    }
    var ok := PersistPaymentAuditTrail(t, call, auditId, timestamp, accepted <= written);
    if !ok {
      return ServerError;
    }
    ghost var entry := AuditPut(PaymentAuditEntry(call, auditId, timestamp));
    if change.SetStatus? {
      ApplyTwo(old(t.State()), LedgerUpdate(call.transactionId, change.status, None), entry);
    } else {
      ApplyOne(old(t.State()), entry);
    }
    return OK;
  }

  /** The fields of the event lambda_handler reads. */
  datatype PaymentEvent = PaymentEvent(
    amount: Option<real>,
    processorId: Option<string>,
    source: Option<string>,
    transactionType: Option<string>,
    simulateStatus: Option<string>)

  /** The call lambda_handler makes once the ledger entry `id` exists. */
  function CallFor(e: PaymentEvent, id: string): (c: ResponseCall)
    requires e.amount.Some? && e.processorId.Some?
    // the new entry, with the event's amount and processor id
    ensures c.transactionId == id && c.amount == e.amount.value && c.processorId == e.processorId.value
    // an absent source is "unknown" and an absent type "SALE"
    ensures c.source == (if e.source.Some? then e.source.value else "unknown")
    ensures c.txnType == (if e.transactionType.Some? then e.transactionType.value else "SALE")
    // the response the processor is simulated to give: the lowercased simulate_status
    // (empty when absent), the new id, the amount and the processor id
    ensures c.response.status == (if e.simulateStatus.Some? then Text.Lower(e.simulateStatus.value) else "")
    ensures c.response.transactionId == id && c.response.amount == e.amount.value
    ensures c.response.processorId == e.processorId.value
  {
    var response := ProcessorResponse(Text.Lower(e.simulateStatus.GetOr("")), id, e.amount.value, e.processorId.value);
    ResponseCall(id, e.amount.value, e.processorId.value, response, e.source.GetOr("unknown"), e.transactionType.GetOr("SALE"))
  }

  /** lambda_handler: a missing amount or processor id, then the ledger put, then token
      creation (`tokenFails`), then the processor response; a failure anywhere is 500
      and keeps what was written. */
  function PaymentOutcome(e: PaymentEvent, id: string, ledgerTime: string, tokenFails: bool,
                          signal: string, auditId: string, auditTime: string, accepted: nat): (o: Outcome)
    ensures o.code in {OK, BadRequest, ServerError}
    // nothing is written exactly when a required field is missing or the ledger put fails
    ensures o.done == [] <==> e.amount.None? || e.processorId.None? || accepted == 0
    // otherwise the first write is the Initiated entry, with the defaults applied
    ensures o.done != [] ==>
      o.done[0] == LedgerPut(InitiatedRecord(id, e.amount.value, e.processorId.value, e.source.GetOr("unknown"),
                                             e.transactionType.GetOr("SALE"), ledgerTime))
    // 200 needs every step to succeed, and 400 comes only from an unrecognized type
    ensures o.code == OK ==> e.amount.Some? && e.processorId.Some? && !tokenFails && |o.done| >= 2
    ensures o.code == BadRequest ==> !tokenFails && e.transactionType.GetOr("SALE") !in RecognizedTypes && |o.done| == 1
  {
    if e.amount.None? || e.processorId.None? then Outcome([], ServerError)
    else
    var call := CallFor(e, id);
    var put := LedgerPut(InitiatedRecord(id, call.amount, call.processorId, call.source, call.txnType, ledgerTime));
    if accepted == 0 then Outcome([], ServerError)
    else if tokenFails then Outcome([put], ServerError)
    else
      var o := Execute(ResponsePlan(call, signal, auditId, auditTime), accepted - 1);
      Outcome([put] + o.done, o.code)
  }

  method HandlePayment(t: Tables, e: PaymentEvent, id: string, ledgerTime: string, tokenFails: bool,
                       signal: string, auditId: string, auditTime: string, accepted: nat) returns (code: int)
    modifies t
    ensures var o := PaymentOutcome(e, id, ledgerTime, tokenFails, signal, auditId, auditTime, accepted);
      code == o.code && t.State() == ApplyAll(old(t.State()), o.done)
  {
    if e.amount.None? || e.processorId.None? {
      return ServerError;
    }
    var source := e.source.GetOr("unknown");
    var txnType := e.transactionType.GetOr("SALE");
    var ok := PersistPaymentLedger(t, id, e.amount.value, e.processorId.value, source, txnType, ledgerTime, accepted == 0);
    if !ok {
      return ServerError;
    }
    ghost var put := LedgerPut(InitiatedRecord(id, e.amount.value, e.processorId.value, source, txnType, ledgerTime));
    ApplyOne(old(t.State()), put);
    if tokenFails {
      return ServerError;
    }
    ghost var afterPut := t.State();
    var call := CallFor(e, id);
    code := ProcessPaymentResponse(t, call, signal, auditId, auditTime, accepted - 1);
    ApplyAllAppend(old(t.State()), [put], Execute(ResponsePlan(call, signal, auditId, auditTime), accepted - 1).done);
  }

  /** An event without an amount or a processor id is answered with 500 before any
      write. */
  lemma MissingFieldWritesNothing(e: PaymentEvent, id: string, ledgerTime: string, tokenFails: bool,
                                  signal: string, auditId: string, auditTime: string, accepted: nat)
    requires e.amount.None? || e.processorId.None?
    ensures PaymentOutcome(e, id, ledgerTime, tokenFails, signal, auditId, auditTime, accepted) == Outcome([], ServerError)
  {
  }

  /** A failure of token creation, after the ledger put, is 500, and the new entry
      stays "Initiated" with no audit entry. */
  lemma FailureAfterPutLeavesInitiated(s: Snapshot, e: PaymentEvent, id: string, ledgerTime: string, signal: string,
                                       auditId: string, auditTime: string, accepted: nat)
    requires e.amount.Some? && e.processorId.Some? && id !in s.ledger && accepted >= 1
    ensures var o := PaymentOutcome(e, id, ledgerTime, true, signal, auditId, auditTime, accepted);
      var r := ApplyAll(s, o.done);
      && o.code == ServerError
      && r.ledger.Keys == s.ledger.Keys + {id}
      && r.ledger[id].status == Some(Initiated)
      && r.audit == s.audit
  {
    var call := CallFor(e, id);
    ApplyOne(s, LedgerPut(InitiatedRecord(id, call.amount, call.processorId, call.source, call.txnType, ledgerTime)));
  }

  /** A SALE of 100.00 answered "success" ends in Status "Success" with one audit
      entry for it; the type defaults to SALE when the event names none. */
  lemma SaleSucceeds(s: Snapshot, processorId: string, source: Option<string>, simulateStatus: Option<string>,
                     id: string, ledgerTime: string, auditId: string, auditTime: string, accepted: nat)
    requires id !in s.ledger && accepted >= 3
    ensures var e := PaymentEvent(Some(100.0), Some(processorId), source, None, simulateStatus);
      var o := PaymentOutcome(e, id, ledgerTime, false, "success", auditId, auditTime, accepted);
      var r := ApplyAll(s, o.done);
      && o.code == OK
      && r.ledger.Keys == s.ledger.Keys + {id}
      && r.ledger[id].status == Some("Success")
      && r.ledger[id].amount == Some(100.0)
      && r.ledger[id].txnType == Some("SALE")
      && r.audit == s.audit[auditId := PaymentAuditEntry(CallFor(e, id), auditId, auditTime)]
  {
    SaleSucceedsState(s, processorId, source, simulateStatus, id, ledgerTime, auditId, auditTime, accepted);
  }

  /** The stores after the successful SALE: the Initiated entry, already moved to
      "Success", and the audit entry. */
  lemma SaleSucceedsState(s: Snapshot, processorId: string, source: Option<string>, simulateStatus: Option<string>,
                          id: string, ledgerTime: string, auditId: string, auditTime: string, accepted: nat)
    requires id !in s.ledger && accepted >= 3
    ensures var e := PaymentEvent(Some(100.0), Some(processorId), source, None, simulateStatus);
      var call := CallFor(e, id);
      var o := PaymentOutcome(e, id, ledgerTime, false, "success", auditId, auditTime, accepted);
      var record := InitiatedRecord(id, 100.0, processorId, call.source, "SALE", ledgerTime);
      && o.code == OK
      && ApplyAll(s, o.done) ==
           Snapshot(s.ledger[id := record.(status := Some("Success"))],
                    s.audit[auditId := PaymentAuditEntry(call, auditId, auditTime)], s.queue)
  {
    var e := PaymentEvent(Some(100.0), Some(processorId), source, None, simulateStatus);
    var call := CallFor(e, id);
    var put := LedgerPut(InitiatedRecord(id, call.amount, call.processorId, call.source, call.txnType, ledgerTime));
    var o := Execute(ResponsePlan(call, "success", auditId, auditTime), accepted - 1);
    assert PaymentOutcome(e, id, ledgerTime, false, "success", auditId, auditTime, accepted) == Outcome([put] + o.done, o.code);
    assert NewStatus(call.txnType, "success") == SetStatus("Success");
    ApplyOne(s, put);
    ApplyAllAppend(s, [put], o.done);
    ResponseEffect(ApplyWrite(s, put), call, "success", auditId, auditTime, accepted - 1);
    var done := put.record.(status := Some("Success"));
    assert Updated(s.ledger[id := put.record], id, "Success", None) == done;
    Overwrite(s.ledger, id, put.record, done);
  }
}
