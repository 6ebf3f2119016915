/** The reversal handler: looks up the original transaction, checks that its status,
    its type and the requested amount allow a reversal, then records a PENDING audit
    entry, marks the original REFUNDED with type "reversal", and marks the audit entry
    SUCCESS. */
module ReversalProcess {
  import opened Records
  import opened Store
  import opened Text

  /** Eligible statuses and types, compared after `strip().lower()`. */
  const ValidStatuses: set<string> := {"completed", "success"}
  const ValidTypes: set<string> := {"sale", "charge", "refund"}

  const DefaultReason: string := "No reason provided"
  const DefaultInitiator: string := "System"

  /** The fields of the request body the handler reads. */
  datatype ReversalRequest = ReversalRequest(
    transactionId: string,
    reversalAmount: real,
    reason: Option<string>,
    initiator: Option<string>)

  /** The result of the eligibility checks on the original record. `MissingAttribute`
      is a record lacking Status, TransactionType or Amount, which raises in the
      source and is answered with 500. */
  datatype Verdict = Eligible | MissingAttribute | IneligibleStatus | IneligibleType | AmountExceeded

  function Check(rec: Transaction, reversalAmount: real): (v: Verdict)
    ensures v == Eligible <==>
      && rec.status.Some? && Normalize(rec.status.value) in ValidStatuses
      && rec.txnType.Some? && Normalize(rec.txnType.value) in ValidTypes
      && rec.amount.Some? && reversalAmount <= rec.amount.value
    // Status and TransactionType are both read before either is checked, and Amount
    // only once both have passed
    ensures v == MissingAttribute <==>
      || rec.status.None? || rec.txnType.None?
      || (&& Normalize(rec.status.value) in ValidStatuses
          && Normalize(rec.txnType.value) in ValidTypes
          && rec.amount.None?)
    // the status check comes first ...
    ensures v == IneligibleStatus <==>
      && rec.status.Some? && rec.txnType.Some? && Normalize(rec.status.value) !in ValidStatuses
    // ... then the type check ...
    ensures v == IneligibleType <==>
      && rec.status.Some? && Normalize(rec.status.value) in ValidStatuses
      && rec.txnType.Some? && Normalize(rec.txnType.value) !in ValidTypes
    // ... and only then the amount, which may equal the original but not exceed it
    ensures v == AmountExceeded <==>
      && rec.status.Some? && Normalize(rec.status.value) in ValidStatuses
      && rec.txnType.Some? && Normalize(rec.txnType.value) in ValidTypes
      && rec.amount.Some? && reversalAmount > rec.amount.value
  {
    if rec.status.None? || rec.txnType.None? then MissingAttribute
    else if Normalize(rec.status.value) !in ValidStatuses then IneligibleStatus
    else if Normalize(rec.txnType.value) !in ValidTypes then IneligibleType
    else if rec.amount.None? then MissingAttribute
    else if reversalAmount > rec.amount.value then AmountExceeded
    else Eligible
  }

  /** The audit id is derived from the time of the attempt. */
  function AuditIdAt(now: string): (aid: string)
    // the fixed prefix, followed by the time itself
    ensures |aid| == |now| + 6 && aid[..6] == "audit-" && aid[6..] == now
  {
    "audit-" + now
  }

  /** Attempts at different times get different audit ids. */
  lemma AuditIdInjective(a: string, b: string)
    ensures AuditIdAt(a) == AuditIdAt(b) ==> a == b
  {
  }

  /** The audit item written before the ledger is touched. */
  function PendingEntry(req: ReversalRequest, normalizedType: string, now: string, timestamp: string): (e: AuditEntry)
    // keyed by the time of the attempt, PENDING until the ledger is updated
    ensures e.auditId == AuditIdAt(now) && e.status == Some("PENDING")
    // a REVERSAL of the requested transaction, recording its normalized type
    ensures e.details.ReversalDetails? && e.details.action == "REVERSAL"
    ensures e.details.transactionId == req.transactionId && e.details.txnType == normalizedType
    ensures e.details.reversalAmount == req.reversalAmount && e.details.timestamp == timestamp
    // an absent Reason or Initiator is recorded as its default
    ensures e.details.reason == (if req.reason.Some? then req.reason.value else DefaultReason)
    ensures e.details.initiator == (if req.initiator.Some? then req.initiator.value else DefaultInitiator)
  {
    AuditEntry(AuditIdAt(now), Some("PENDING"),
      ReversalDetails(req.transactionId, "REVERSAL", normalizedType, req.initiator.GetOr(DefaultInitiator),
                      timestamp, req.reversalAmount, req.reason.GetOr(DefaultReason)))
  }

  /** The handler's decision: 404 for an unknown id, 500 for a record missing an
      attribute the checks read, 400 for an ineligible one, else three writes in order. */
  function ReversalPlan(ledger: map<string, Transaction>, req: ReversalRequest, now: string, timestamp: string): (p: Plan)
    // 404 exactly for an unknown id
    ensures p == Reject(NotFound) <==> req.transactionId !in ledger
    // writes exactly for an eligible original: PENDING audit entry, the original's
    // Status and type, then the audit entry's Status
    ensures p.Perform? <==> req.transactionId in ledger && Check(ledger[req.transactionId], req.reversalAmount) == Eligible
    ensures p.Perform? ==>
      && |p.writes| == 3
      && p.writes[0].AuditPut? && p.writes[0].entry.status == Some("PENDING")
      && p.writes[1] == LedgerUpdate(req.transactionId, "REFUNDED", Some("reversal"))
      && p.writes[2] == AuditUpdate(p.writes[0].entry.auditId, "SUCCESS")
    // every other refusal is 500 for a missing attribute, 400 otherwise
    ensures p.Reject? && req.transactionId in ledger ==>
      p.code == (if Check(ledger[req.transactionId], req.reversalAmount) == MissingAttribute then ServerError else BadRequest)
  {
    if req.transactionId !in ledger then Reject(NotFound)
    else
      var rec := ledger[req.transactionId];
      match Check(rec, req.reversalAmount)
      case MissingAttribute => Reject(ServerError)
      case Eligible => Perform(ReversalWrites(PendingEntry(req, Normalize(rec.txnType.value), now, timestamp), req.transactionId))
      case _ => Reject(BadRequest)
  }

  /** The writes of an eligible reversal, in order: the PENDING audit item, the
      original's Status and TransactionType, the audit item's Status. */
  function ReversalWrites(pending: AuditEntry, id: string): seq<Write> {
    [AuditPut(pending), LedgerUpdate(id, "REFUNDED", Some("reversal")), AuditUpdate(pending.auditId, "SUCCESS")]
  }

  /** Every refusal happens before the first write. */
  lemma RefusalsWriteNothing(s: Snapshot, req: ReversalRequest, now: string, timestamp: string, accepted: nat)
    requires req.transactionId !in s.ledger || Check(s.ledger[req.transactionId], req.reversalAmount) != Eligible
    ensures var o := Execute(ReversalPlan(s.ledger, req, now, timestamp), accepted);
      && o.done == []
      && ApplyAll(s, o.done) == s
      && (req.transactionId !in s.ledger ==> o.code == NotFound)
      && (req.transactionId in s.ledger && Check(s.ledger[req.transactionId], req.reversalAmount) != MissingAttribute ==>
            o.code == BadRequest)
  {
  }

  /** A completed reversal: 200; the original, and nothing else in the ledger, now has
      Status REFUNDED and TransactionType "reversal" (no record is created); exactly one
      audit item is written, a REVERSAL of the original carrying the amount and reason,
      and it ends SUCCESS. */
  lemma ReversalSucceeds(s: Snapshot, req: ReversalRequest, now: string, timestamp: string, accepted: nat)
    requires req.transactionId in s.ledger && Check(s.ledger[req.transactionId], req.reversalAmount) == Eligible
    requires accepted >= 3
    ensures var o := Execute(ReversalPlan(s.ledger, req, now, timestamp), accepted);
      var r := ApplyAll(s, o.done);
      var id := req.transactionId;
      var aid := AuditIdAt(now);
      && o.code == OK
      && r.ledger.Keys == s.ledger.Keys
      && r.ledger == s.ledger[id := s.ledger[id].(status := Some("REFUNDED"), txnType := Some("reversal"))]
      && r.audit.Keys == s.audit.Keys + {aid}
      && (forall k :: k in s.audit && k != aid ==> r.audit[k] == s.audit[k])
      && r.audit[aid].status == Some("SUCCESS")
      && r.audit[aid].details.ReversalDetails?
      && r.audit[aid].details.action == "REVERSAL"
      && r.audit[aid].details.transactionId == id
      && r.audit[aid].details.reversalAmount == req.reversalAmount
      && r.audit[aid].details.reason == (if req.reason.Some? then req.reason.value else DefaultReason)
      && r.audit[aid].details.initiator == (if req.initiator.Some? then req.initiator.value else DefaultInitiator)
      && r.queue == s.queue
  {
    ReversalSucceedsState(s, req, now, timestamp, accepted);
    var o := Execute(ReversalPlan(s.ledger, req, now, timestamp), accepted);
    RefundedFields(s, ApplyAll(s, o.done), req, Normalize(s.ledger[req.transactionId].txnType.value), now, timestamp);
  }

  /** What a state of that form holds, field by field. */
  lemma RefundedFields(s: Snapshot, r: Snapshot, req: ReversalRequest, normalizedType: string, now: string, timestamp: string)
    requires req.transactionId in s.ledger
    requires var id := req.transactionId;
      r == Snapshot(s.ledger[id := s.ledger[id].(status := Some("REFUNDED"), txnType := Some("reversal"))],
                    s.audit[AuditIdAt(now) := PendingEntry(req, normalizedType, now, timestamp).(status := Some("SUCCESS"))],
                    s.queue)
    ensures var id := req.transactionId;
      var aid := AuditIdAt(now);
      && r.ledger.Keys == s.ledger.Keys
      && r.audit.Keys == s.audit.Keys + {aid}
      && (forall k :: k in s.audit && k != aid ==> r.audit[k] == s.audit[k])
      && r.audit[aid].status == Some("SUCCESS")
      && r.audit[aid].details.ReversalDetails?
      && r.audit[aid].details.action == "REVERSAL"
      && r.audit[aid].details.transactionId == id
      && r.audit[aid].details.reversalAmount == req.reversalAmount
      && r.audit[aid].details.reason == (if req.reason.Some? then req.reason.value else DefaultReason)
      && r.audit[aid].details.initiator == (if req.initiator.Some? then req.initiator.value else DefaultInitiator)
  {
  }

  /** The state a completed reversal leaves, written out. */
  lemma ReversalSucceedsState(s: Snapshot, req: ReversalRequest, now: string, timestamp: string, accepted: nat)
    requires req.transactionId in s.ledger && Check(s.ledger[req.transactionId], req.reversalAmount) == Eligible
    requires accepted >= 3
    ensures var o := Execute(ReversalPlan(s.ledger, req, now, timestamp), accepted);
      var id := req.transactionId;
      var pending := PendingEntry(req, Normalize(s.ledger[id].txnType.value), now, timestamp);
      && o.code == OK
      && ApplyAll(s, o.done) ==
         Snapshot(s.ledger[id := s.ledger[id].(status := Some("REFUNDED"), txnType := Some("reversal"))],
                  s.audit[AuditIdAt(now) := pending.(status := Some("SUCCESS"))], s.queue)
  {
    var id := req.transactionId;
    var pending := PendingEntry(req, Normalize(s.ledger[id].txnType.value), now, timestamp);
    ReversalPlanRuns(s, req, now, timestamp);
    AuditCompleted(s, pending, id);
    assert Updated(s.ledger, id, "REFUNDED", Some("reversal")) ==
           s.ledger[id].(status := Some("REFUNDED"), txnType := Some("reversal"));
  }

  /** An eligible original is answered with the three writes. */
  lemma ReversalPlanRuns(s: Snapshot, req: ReversalRequest, now: string, timestamp: string)
    requires req.transactionId in s.ledger && Check(s.ledger[req.transactionId], req.reversalAmount) == Eligible
    ensures ReversalPlan(s.ledger, req, now, timestamp) ==
      Perform(ReversalWrites(PendingEntry(req, Normalize(s.ledger[req.transactionId].txnType.value), now, timestamp),
                             req.transactionId))
  {
  }

  /** The stores after each prefix of the writes of a reversal. */
  lemma ReversalWritesEffect(s: Snapshot, pending: AuditEntry, id: string)
    ensures var ws := ReversalWrites(pending, id);
      var ledger := s.ledger[id := Updated(s.ledger, id, "REFUNDED", Some("reversal"))];
      && ApplyAll(s, ws[..0]) == s
      && ApplyAll(s, ws[..1]) == Snapshot(s.ledger, s.audit[pending.auditId := pending], s.queue)
      && ApplyAll(s, ws[..2]) == Snapshot(ledger, s.audit[pending.auditId := pending], s.queue)
      && ApplyAll(s, ws) == Snapshot(ledger, s.audit[pending.auditId := pending.(status := Some("SUCCESS"))], s.queue)
  {
    var ws := ReversalWrites(pending, id);
    assert ws[..0] == [];
    assert ws[..1] == [ws[0]];
    assert ws[..2] == [ws[0], ws[1]];
    PendingWritten(s, pending);
    OriginalRefunded(s, pending, id);
    AuditCompleted(s, pending, id);
  }

  lemma PendingWritten(s: Snapshot, pending: AuditEntry)
    ensures ApplyAll(s, [AuditPut(pending)]) == Snapshot(s.ledger, s.audit[pending.auditId := pending], s.queue)
  {
    ApplyOne(s, AuditPut(pending));
  }

  lemma OriginalRefunded(s: Snapshot, pending: AuditEntry, id: string)
    ensures ApplyAll(s, [AuditPut(pending), LedgerUpdate(id, "REFUNDED", Some("reversal"))]) ==
      Snapshot(s.ledger[id := Updated(s.ledger, id, "REFUNDED", Some("reversal"))], s.audit[pending.auditId := pending], s.queue)
  {
    ApplyTwo(s, AuditPut(pending), LedgerUpdate(id, "REFUNDED", Some("reversal")));
  }

  lemma AuditCompleted(s: Snapshot, pending: AuditEntry, id: string)
    ensures ApplyAll(s, ReversalWrites(pending, id)) ==
      Snapshot(s.ledger[id := Updated(s.ledger, id, "REFUNDED", Some("reversal"))],
               s.audit[pending.auditId := pending.(status := Some("SUCCESS"))], s.queue)
  {
    var aid := pending.auditId;
    var s2 := Snapshot(s.ledger[id := Updated(s.ledger, id, "REFUNDED", Some("reversal"))], s.audit[aid := pending], s.queue);
    ApplyThree(s, AuditPut(pending), LedgerUpdate(id, "REFUNDED", Some("reversal")), AuditUpdate(aid, "SUCCESS"));
    assert ApplyWrite(ApplyWrite(s, AuditPut(pending)), LedgerUpdate(id, "REFUNDED", Some("reversal"))) == s2;
    Overwrite(s.audit, aid, pending, pending.(status := Some("SUCCESS")));
  }

  /** A store failure after the checks: 500, and what was written stays. If the
      ledger update fails the audit item is left PENDING and the original unchanged;
      if only the final audit update fails the original is already REFUNDED. */
  lemma ReversalPartialFailure(s: Snapshot, req: ReversalRequest, now: string, timestamp: string, accepted: nat)
    requires req.transactionId in s.ledger && Check(s.ledger[req.transactionId], req.reversalAmount) == Eligible
    requires accepted < 3
    ensures var o := Execute(ReversalPlan(s.ledger, req, now, timestamp), accepted);
      var r := ApplyAll(s, o.done);
      var id := req.transactionId;
      var aid := AuditIdAt(now);
      && o.code == ServerError
      && r.queue == s.queue
      && (accepted == 0 ==> r == s)
      && (accepted >= 1 ==> r.audit.Keys == s.audit.Keys + {aid} && r.audit[aid].status == Some("PENDING"))
      && (accepted >= 1 ==> r.audit == s.audit[aid := PendingEntry(req, Normalize(s.ledger[id].txnType.value), now, timestamp)])
      && (accepted == 1 ==> r.ledger == s.ledger)
      && (accepted == 2 ==> r.ledger[id].status == Some("REFUNDED") && r.ledger[id].txnType == Some("reversal"))
      && (accepted == 2 ==> r.ledger == s.ledger[id := s.ledger[id].(status := Some("REFUNDED"), txnType := Some("reversal"))])
  {
    var id := req.transactionId;
    var pending := PendingEntry(req, Normalize(s.ledger[id].txnType.value), now, timestamp);
    var o := Execute(ReversalPlan(s.ledger, req, now, timestamp), accepted);
    ReversalPartialState(s, req, now, timestamp, accepted);
    PartialFields(s, ApplyAll(s, o.done), pending, id, accepted);
  }

  /** The stores after a reversal that stops with 500: the accepted writes of the
      three, applied in order. */
  lemma ReversalPartialState(s: Snapshot, req: ReversalRequest, now: string, timestamp: string, accepted: nat)
    requires req.transactionId in s.ledger && Check(s.ledger[req.transactionId], req.reversalAmount) == Eligible
    requires accepted < 3
    ensures var o := Execute(ReversalPlan(s.ledger, req, now, timestamp), accepted);
      var id := req.transactionId;
      var pending := PendingEntry(req, Normalize(s.ledger[id].txnType.value), now, timestamp);
      var ledger := s.ledger[id := Updated(s.ledger, id, "REFUNDED", Some("reversal"))];
      && o.code == ServerError
      && ApplyAll(s, o.done) ==
           if accepted == 0 then s
           else if accepted == 1 then Snapshot(s.ledger, s.audit[pending.auditId := pending], s.queue)
           else Snapshot(ledger, s.audit[pending.auditId := pending], s.queue)
  {
    var id := req.transactionId;
    var pending := PendingEntry(req, Normalize(s.ledger[id].txnType.value), now, timestamp);
    ReversalPlanRuns(s, req, now, timestamp);
    ReversalWritesEffect(s, pending, id);
  }

  /** What the stores hold after one or two of the writes of a reversal. */
  lemma PartialFields(s: Snapshot, r: Snapshot, pending: AuditEntry, id: string, accepted: nat)
    requires id in s.ledger && accepted < 3 && pending.status == Some("PENDING")
    requires r == if accepted == 0 then s
                  else if accepted == 1 then Snapshot(s.ledger, s.audit[pending.auditId := pending], s.queue)
                  else Snapshot(s.ledger[id := Updated(s.ledger, id, "REFUNDED", Some("reversal"))],
                                s.audit[pending.auditId := pending], s.queue)
    ensures r.queue == s.queue
    ensures accepted >= 1 ==> r.audit == s.audit[pending.auditId := pending]
    ensures accepted >= 1 ==> r.audit.Keys == s.audit.Keys + {pending.auditId} && r.audit[pending.auditId].status == Some("PENDING")
    ensures accepted == 1 ==> r.ledger == s.ledger
    ensures accepted == 2 ==> r.ledger == s.ledger[id := s.ledger[id].(status := Some("REFUNDED"), txnType := Some("reversal"))]
    ensures accepted == 2 ==> r.ledger[id].status == Some("REFUNDED") && r.ledger[id].txnType == Some("reversal")
  {
    assert Updated(s.ledger, id, "REFUNDED", Some("reversal")) == s.ledger[id].(status := Some("REFUNDED"), txnType := Some("reversal"));
  }

  /** A reversal of exactly the original amount passes the amount check; one cent
      more fails it. */
  lemma AmountBoundary(rec: Transaction)
    requires rec.status.Some? && Normalize(rec.status.value) in ValidStatuses
    requires rec.txnType.Some? && Normalize(rec.txnType.value) in ValidTypes
    requires rec.amount.Some?
    ensures Check(rec, rec.amount.value) == Eligible
    ensures Check(rec, rec.amount.value + 0.01) == AmountExceeded
  {
  }

  /** Any amount above the original's is refused with 400 before anything is written. */
  lemma ExceededAmountRefused(s: Snapshot, req: ReversalRequest, now: string, timestamp: string, accepted: nat)
    requires req.transactionId in s.ledger
    requires var rec := s.ledger[req.transactionId];
      && rec.status.Some? && Normalize(rec.status.value) in ValidStatuses
      && rec.txnType.Some? && Normalize(rec.txnType.value) in ValidTypes
      && rec.amount.Some? && req.reversalAmount > rec.amount.value
    ensures Execute(ReversalPlan(s.ledger, req, now, timestamp), accepted) == Outcome([], BadRequest)
  {
  }

  /** An eligible-looking record without an Amount raises when the amount is read,
      which the handler answers with 500 before anything is written. */
  lemma MissingAmountFails(s: Snapshot, req: ReversalRequest, now: string, timestamp: string, accepted: nat)
    requires req.transactionId in s.ledger
    requires var rec := s.ledger[req.transactionId];
      && rec.status.Some? && Normalize(rec.status.value) in ValidStatuses
      && rec.txnType.Some? && Normalize(rec.txnType.value) in ValidTypes
      && rec.amount.None?
    ensures Execute(ReversalPlan(s.ledger, req, now, timestamp), accepted) == Outcome([], ServerError)
  {
  }

  /** The status check ignores surrounding whitespace and letter case: a Status that
      differs from another only in those is judged the same way. */
  lemma StatusCheckIgnoresCaseAndPadding(rec: Transaction, w1: string, s1: string, w2: string, s2: string, amount: real)
    requires AllSpace(w1) && AllSpace(w2) && Lower(s1) == Lower(s2)
    ensures Check(rec.(status := Some(w1 + s1 + w2)), amount) == Check(rec.(status := Some(s2)), amount)
  {
    NormalizeIgnoresPadding(w1, s1, w2);
    NormalizeIgnoresCase(s1, s2);
  }

  /** The same for the type check. */
  lemma TypeCheckIgnoresCaseAndPadding(rec: Transaction, w1: string, s1: string, w2: string, s2: string, amount: real)
    requires AllSpace(w1) && AllSpace(w2) && Lower(s1) == Lower(s2)
    ensures Check(rec.(txnType := Some(w1 + s1 + w2)), amount) == Check(rec.(txnType := Some(s2)), amount)
  {
    NormalizeIgnoresPadding(w1, s1, w2);
    NormalizeIgnoresCase(s1, s2);
  }

  /** A "Completed" sale of 50.00 reversed in full: 200, the record becomes REFUNDED
      of type "reversal", and its audit item ends SUCCESS. */
  lemma FullReversalOfSale(s: Snapshot, req: ReversalRequest, now: string, timestamp: string)
    requires req.transactionId in s.ledger && req.reversalAmount == 50.0
    requires s.ledger[req.transactionId].status == Some("Completed")
    requires s.ledger[req.transactionId].txnType == Some("sale")
    requires s.ledger[req.transactionId].amount == Some(50.0)
    ensures var o := Execute(ReversalPlan(s.ledger, req, now, timestamp), 3);
      var r := ApplyAll(s, o.done);
      && o.code == OK
      && req.transactionId in r.ledger && AuditIdAt(now) in r.audit
      && r.ledger[req.transactionId].status == Some("REFUNDED")
      && r.ledger[req.transactionId].txnType == Some("reversal")
      && r.audit[AuditIdAt(now)].status == Some("SUCCESS")
  {
    CompletedSaleIsEligible(s.ledger[req.transactionId], req.reversalAmount);
    ReversalSucceeds(s, req, now, timestamp, 3);
  }

  /** A "Completed" sale passes the checks for any amount up to its own. */
  lemma CompletedSaleIsEligible(rec: Transaction, reversalAmount: real)
    requires rec.status == Some("Completed") && rec.txnType == Some("sale")
    requires rec.amount.Some? && reversalAmount <= rec.amount.value
    ensures Check(rec, reversalAmount) == Eligible
  {
    NormalizedWords();
  }

  /** The spellings the other handlers write normalize to eligible words. */
  lemma NormalizedWords()
    ensures Normalize("Completed") == "completed" && Normalize("sale") == "sale"
  {
    NormalizedCompleted();
    NormalizedSale();
  }

  // Each step of the two normalizations is a lemma of its own, which keeps every
  // computation on a literal small.

  lemma NormalizedCompleted()
    ensures Normalize("Completed") == "completed"
  {
    CompletedStripsLeft();
    CompletedStripsRight();
    CompletedLowers();
  }

  lemma CompletedStripsLeft()
    ensures TrimLeft("Completed") == "Completed"
  {
    TrimLeftKeeps("Completed");
  }

  lemma CompletedStripsRight()
    ensures TrimRight("Completed") == "Completed"
  {
    TrimRightKeeps("Completed");
  }

  lemma CompletedLowers()
    ensures Lower("Completed") == "completed"
  {
  }

  lemma NormalizedSale()
    ensures Normalize("sale") == "sale"
  {
    SaleStripsLeft();
    SaleStripsRight();
    SaleLowers();
  }

  lemma SaleStripsLeft()
    ensures TrimLeft("sale") == "sale"
  {
    TrimLeftKeeps("sale");
  }

  lemma SaleStripsRight()
    ensures TrimRight("sale") == "sale"
  {
    TrimRightKeeps("sale");
  }

  lemma SaleLowers()
    ensures Lower("sale") == "sale"
  {
  }

  /** handler, against stores that accept `accepted` writes. */
  method Reverse(t: Tables, req: ReversalRequest, now: string, timestamp: string, accepted: nat) returns (code: int)
    modifies t
    ensures var o := Execute(ReversalPlan(old(t.ledger), req, now, timestamp), accepted);
      code == o.code && t.State() == ApplyAll(old(t.State()), o.done)
  {
    var found := t.GetTransaction(req.transactionId);
    if found.None? {
      return NotFound;
    }
    var rec := found.value;
    ghost var verdict := Check(rec, req.reversalAmount);
    if rec.status.None? || rec.txnType.None? {
      assert verdict == MissingAttribute;
      return ServerError;
    }
    var status := Normalize(rec.status.value);
    var txnType := Normalize(rec.txnType.value);
    if status !in ValidStatuses {
      assert verdict == IneligibleStatus;
      return BadRequest;
    }
    if txnType !in ValidTypes {
      assert verdict == IneligibleType;
      return BadRequest;
    }
    if rec.amount.None? {
      assert verdict == MissingAttribute;
      return ServerError;
    }
    if req.reversalAmount > rec.amount.value {
      assert verdict == AmountExceeded;
      return BadRequest;
    }
    assert verdict == Eligible;

    code := WriteReversal(t, PendingEntry(req, txnType, now, timestamp), req.transactionId, accepted);
  }

  /** Steps 3 to 5 of handler: the writes of an eligible reversal, stopping at the
      first store failure. */
  method WriteReversal(t: Tables, pending: AuditEntry, id: string, accepted: nat) returns (code: int)
    modifies t
    ensures var o := Execute(Perform(ReversalWrites(pending, id)), accepted);
      code == o.code && t.State() == ApplyAll(old(t.State()), o.done)
  {
    var put := AuditPut(pending);
    var upd := LedgerUpdate(id, "REFUNDED", Some("reversal"));
    var done := AuditUpdate(pending.auditId, "SUCCESS");
    ghost var ws := ReversalWrites(pending, id);
    assert ws == [put, upd, done];
    if accepted < 1 {
      assert ws[..accepted] == [];
      return ServerError;
    }
    t.Apply(put);
    if accepted < 2 {
      assert ws[..accepted] == [put];
      ApplyOne(old(t.State()), put);
      return ServerError;
    }
    t.Apply(upd);
    if accepted < 3 {
      assert ws[..accepted] == [put, upd];
      ApplyTwo(old(t.State()), put, upd);
      return ServerError;
    }
    t.Apply(done);
    ApplyThree(old(t.State()), put, upd, done);
    return OK;
  }
}
