/** The void handler: checks the request's required fields, looks up the original,
    validates it for the requested action, and for VOID writes a derived ledger record
    `<id>-VOID` with the negated amount, an audit item `<id>-VOID-AUDIT`, and a FIFO
    queue message deduplicated on the derived id. */
module VoidProcess {
  import opened Records
  import opened Store

  /** The amount used when the request names none. */
  const DefaultVoidAmount: real := 100.0
  const MessageGroup: string := "void-transaction-group"

  /** The fields of the event lambda_handler reads. */
  datatype VoidRequest = VoidRequest(
    transactionId: Option<string>,
    userId: Option<string>,
    reason: Option<string>,
    voidAmount: Option<real>,
    transactionType: Option<string>)

  /** A required field is present and not empty. */
  predicate Given(field: Option<string>) {
    field.Some? && field.value != ""
  }

  /** The id of the record derived from the original `id`. */
  function VoidId(id: string): string {
    id + "-VOID"
  }

  function VoidAuditId(voidId: string): string {
    voidId + "-AUDIT"
  }

  /** Distinct originals have distinct derived records, and a derived id is never the
      id it was derived from. */
  lemma VoidIdInjective(a: string, b: string)
    ensures VoidId(a) == VoidId(b) ==> a == b
    ensures VoidId(a) != a
  {
    if VoidId(a) == VoidId(b) {
      assert a == VoidId(a)[..|a|];
      assert b == VoidId(b)[..|b|];
    }
  }

  /** validate_transaction: VOID and REFUND need the original's Status to be exactly
      "Completed" (a missing Status reads as ""); other actions pass. */
  function IsValidFor(rec: Transaction, requestType: string): (valid: bool)
    // VOID and REFUND pass exactly on a Status of "Completed", compared case-sensitively
    ensures requestType in {"VOID", "REFUND"} ==> (valid <==> rec.status == Some("Completed"))
    // every other action passes whatever the Status
    ensures requestType !in {"VOID", "REFUND"} ==> valid
  {
    !((requestType == "VOID" || requestType == "REFUND") && rec.status.GetOr("") != "Completed")
  }

  /** The record create_void_transaction writes. */
  function VoidRecord(orig: Transaction, amount: real, reason: string, timestamp: string): (v: Transaction)
    // a new key, derived from and pointing back to the original
    ensures v.id == VoidId(orig.id) && v.id != orig.id && v.originalId == Some(orig.id)
    ensures v.txnType == Some("VOID") && v.status == Some("Voided")
    // the amount cancels the voided amount
    ensures v.amount.Some? && v.amount.value + amount == 0.0
    ensures v.reason == Some(reason)
  {
    VoidIdInjective(orig.id, orig.id);
    Transaction(VoidId(orig.id), Some(-amount), None, Some("Voided"), None, Some("VOID"), Some(orig.id), Some(reason), Some(timestamp))
  }

  /** The audit item log_audit_trail writes. */
  function VoidAuditEntry(orig: Transaction, voidRecord: Transaction, userId: string, reason: string, timestamp: string): (e: AuditEntry)
    requires voidRecord.amount.Some?
    // keyed after the derived record, referencing both records ...
    ensures e.auditId == VoidAuditId(voidRecord.id)
    ensures e.details.VoidDetails? && e.details.originalId == orig.id && e.details.voidId == voidRecord.id
    // ... with the derived record's amount
    ensures e.details.amount == voidRecord.amount.value
    ensures e.details.user == userId && e.details.reason == reason
  {
    AuditEntry(VoidAuditId(voidRecord.id), None,
      VoidDetails(orig.id, voidRecord.id, voidRecord.amount.value, reason, userId, timestamp))
  }

  /** The message send_to_fifo_queue sends. */
  function VoidMessage(voidRecord: Transaction): (m: QueueMessage)
    requires voidRecord.amount.Some? && voidRecord.reason.Some?
    // carries the derived record's id, amount and reason ...
    ensures m.transactionId == voidRecord.id && m.amount == voidRecord.amount.value && m.reason == voidRecord.reason.value
    // ... and is deduplicated on its id, in the one message group
    ensures m.dedupId == voidRecord.id && m.groupId == MessageGroup
  {
    QueueMessage(voidRecord.id, voidRecord.amount.value, voidRecord.reason.value, MessageGroup, voidRecord.id)
  }

  /** The writes of a void, in order: derived record, audit item, queue message. */
  function VoidWrites(orig: Transaction, amount: real, userId: string, reason: string, recordTime: string, auditTime: string): seq<Write> {
    var v := VoidRecord(orig, amount, reason, recordTime);
    [LedgerPut(v), AuditPut(VoidAuditEntry(orig, v, userId, reason, auditTime)), QueueSend(VoidMessage(v))]
  }

  /** The handler's decision: 400 for a missing field, 404 for an unknown id, 500 for a
      failed validation (it raises), the writes for VOID, and 400 for any other action. */
  function VoidPlan(ledger: map<string, Transaction>, req: VoidRequest, recordTime: string, auditTime: string): (p: Plan)
    // writes happen exactly for a complete VOID request on a Completed original
    ensures p.Perform? <==>
      && Given(req.transactionId) && Given(req.userId) && Given(req.reason)
      && req.transactionId.value in ledger
      && ledger[req.transactionId.value].status == Some("Completed")
      && req.transactionType.GetOr("VOID") == "VOID"
    // and then they are the derived record, its audit entry and its message
    ensures p.Perform? ==>
      && |p.writes| == 3
      && p.writes[0].LedgerPut? && p.writes[0].record.id == VoidId(ledger[req.transactionId.value].id)
      && p.writes[1].AuditPut? && p.writes[2].QueueSend?
    // a refusal is 400, 404 or 500, and 404 exactly for an unknown id
    ensures p.Reject? ==> p.code in {BadRequest, NotFound, ServerError}
    ensures p.Reject? && p.code == NotFound <==>
      Given(req.transactionId) && Given(req.userId) && Given(req.reason) && req.transactionId.value !in ledger
  {
    if !Given(req.transactionId) || !Given(req.userId) || !Given(req.reason) then Reject(BadRequest)
    else if req.transactionId.value !in ledger then Reject(NotFound)
    else
      var rec := ledger[req.transactionId.value];
      var action := req.transactionType.GetOr("VOID");
      if !IsValidFor(rec, action) then Reject(ServerError)
      else if action == "VOID" then
        Perform(VoidWrites(rec, req.voidAmount.GetOr(DefaultVoidAmount), req.userId.value, req.reason.value, recordTime, auditTime))
      else Reject(BadRequest)
  }

  /** Every refusal happens before the first write, in the order of the handler's checks. */
  lemma VoidRefusals(s: Snapshot, req: VoidRequest, recordTime: string, auditTime: string, accepted: nat)
    ensures var o := Execute(VoidPlan(s.ledger, req, recordTime, auditTime), accepted);
      var action := req.transactionType.GetOr("VOID");
      && (!Given(req.transactionId) || !Given(req.userId) || !Given(req.reason) ==> o == Outcome([], BadRequest))
      && (Given(req.transactionId) && Given(req.userId) && Given(req.reason) && req.transactionId.value !in s.ledger ==>
            o == Outcome([], NotFound))
      && (Given(req.transactionId) && Given(req.userId) && Given(req.reason) && req.transactionId.value in s.ledger ==>
            && ((action == "VOID" || action == "REFUND") && s.ledger[req.transactionId.value].status != Some("Completed") ==>
                  o == Outcome([], ServerError))
            && (action != "VOID" && IsValidFor(s.ledger[req.transactionId.value], action) ==> o == Outcome([], BadRequest)))
  {
  }

  /** A void of a Completed original with working stores: 200; the derived record is
      added (id `<id>-VOID`, type VOID, Status Voided, back-reference to the original,
      negated amount) and the original is untouched; one audit item referencing both ids
      with the derived amount; one message for the derived id, deduplicated on it. */
  lemma VoidSucceeds(s: Snapshot, req: VoidRequest, recordTime: string, auditTime: string, accepted: nat)
    requires WellKeyed(s)
    requires Given(req.transactionId) && Given(req.userId) && Given(req.reason)
    requires req.transactionId.value in s.ledger && s.ledger[req.transactionId.value].status == Some("Completed")
    requires req.transactionType.GetOr("VOID") == "VOID"
    requires accepted >= 3
    ensures var o := Execute(VoidPlan(s.ledger, req, recordTime, auditTime), accepted);
      && o.code == OK
      && Voided(s, ApplyAll(s, o.done), req.transactionId.value, req.voidAmount.GetOr(DefaultVoidAmount),
                req.reason.value, req.userId.value, auditTime)
  {
    var id := req.transactionId.value;
    var amount := req.voidAmount.GetOr(DefaultVoidAmount);
    var orig := s.ledger[id];
    VoidPlanRuns(s, req, recordTime, auditTime, accepted);
    VoidWritesEffect(s, orig, amount, req.userId.value, req.reason.value, recordTime, auditTime);
    var o := Execute(VoidPlan(s.ledger, req, recordTime, auditTime), accepted);
    VoidedFields(s, ApplyAll(s, o.done), orig, id, amount, req.userId.value, req.reason.value, recordTime, auditTime);
  }

  /** `r` is `s` after a void of the original `id`: the derived record `<id>-VOID` is
      added (type VOID, Status Voided, back-reference to the original, negated amount)
      and no other ledger item changes; one audit item is added, referencing both ids
      with the derived amount; one message is sent for the derived id, deduplicated on it. */
  ghost predicate Voided(s: Snapshot, r: Snapshot, id: string, amount: real, reason: string, userId: string, auditTime: string) {
    var vid := VoidId(id);
    var aid := VoidAuditId(vid);
    && r.ledger.Keys == s.ledger.Keys + {vid}
    && (forall k :: k in s.ledger && k != vid ==> r.ledger[k] == s.ledger[k])
    && id in r.ledger && id in s.ledger && r.ledger[id] == s.ledger[id]
    && vid in r.ledger
    && r.ledger[vid].id == vid
    && r.ledger[vid].txnType == Some("VOID")
    && r.ledger[vid].status == Some("Voided")
    && r.ledger[vid].originalId == Some(id)
    && r.ledger[vid].amount == Some(-amount)
    && r.audit.Keys == s.audit.Keys + {aid}
    && (forall k :: k in s.audit && k != aid ==> r.audit[k] == s.audit[k])
    && aid in r.audit
    && r.audit[aid].details == VoidDetails(id, vid, -amount, reason, userId, auditTime)
    && r.queue == s.queue + [QueueMessage(vid, -amount, reason, MessageGroup, vid)]
  }

  /** What the stores hold after the three writes of a void. */
  lemma VoidedFields(s: Snapshot, r: Snapshot, orig: Transaction, id: string, amount: real, userId: string, reason: string,
                     recordTime: string, auditTime: string)
    requires id in s.ledger && orig.id == id
    requires var v := VoidRecord(orig, amount, reason, recordTime);
      r == Snapshot(s.ledger[v.id := v],
                    s.audit[VoidAuditId(v.id) := VoidAuditEntry(orig, v, userId, reason, auditTime)],
                    s.queue + [VoidMessage(v)])
    ensures Voided(s, r, id, amount, reason, userId, auditTime)
  {
    VoidIdInjective(id, id);
    VoidRecordFields(orig, amount, reason, recordTime);
  }

  lemma VoidRecordFields(orig: Transaction, amount: real, reason: string, timestamp: string)
    ensures VoidRecord(orig, amount, reason, timestamp) ==
      Transaction(VoidId(orig.id), Some(-amount), None, Some("Voided"), None, Some("VOID"), Some(orig.id),
                  Some(reason), Some(timestamp))
  {
  }

  /** The plan of a complete VOID request on a Completed original runs to the end. */
  lemma VoidPlanRuns(s: Snapshot, req: VoidRequest, recordTime: string, auditTime: string, accepted: nat)
    requires WellKeyed(s)
    requires Given(req.transactionId) && Given(req.userId) && Given(req.reason)
    requires req.transactionId.value in s.ledger && s.ledger[req.transactionId.value].status == Some("Completed")
    requires req.transactionType.GetOr("VOID") == "VOID"
    requires accepted >= 3
    ensures var orig := s.ledger[req.transactionId.value];
      && orig.id == req.transactionId.value
      && Execute(VoidPlan(s.ledger, req, recordTime, auditTime), accepted) ==
         Outcome(VoidWrites(orig, req.voidAmount.GetOr(DefaultVoidAmount), req.userId.value, req.reason.value, recordTime, auditTime), OK)
  {
  }

  /** The three writes of a void, all accepted, add one ledger item, one audit item
      and one message. */
  lemma VoidWritesEffect(s: Snapshot, orig: Transaction, amount: real, userId: string, reason: string,
                         recordTime: string, auditTime: string)
    ensures var v := VoidRecord(orig, amount, reason, recordTime);
      ApplyAll(s, VoidWrites(orig, amount, userId, reason, recordTime, auditTime)) ==
      Snapshot(s.ledger[v.id := v],
               s.audit[VoidAuditId(v.id) := VoidAuditEntry(orig, v, userId, reason, auditTime)],
               s.queue + [VoidMessage(v)])
  {
    var v := VoidRecord(orig, amount, reason, recordTime);
    var e := VoidAuditEntry(orig, v, userId, reason, auditTime);
    ApplyThree(s, LedgerPut(v), AuditPut(e), QueueSend(VoidMessage(v)));
  }

  /** A store failure during a void: 500 and what was written stays (the derived record
      after one accepted write, the audit entry as well after two); the original is
      never touched. */
  lemma VoidPartialFailure(s: Snapshot, req: VoidRequest, recordTime: string, auditTime: string, accepted: nat)
    requires WellKeyed(s)
    requires Given(req.transactionId) && Given(req.userId) && Given(req.reason)
    requires req.transactionId.value in s.ledger && s.ledger[req.transactionId.value].status == Some("Completed")
    requires req.transactionType.GetOr("VOID") == "VOID"
    requires accepted < 3
    ensures var o := Execute(VoidPlan(s.ledger, req, recordTime, auditTime), accepted);
      var r := ApplyAll(s, o.done);
      var id := req.transactionId.value;
      var amount := req.voidAmount.GetOr(DefaultVoidAmount);
      var reason := req.reason.value;
      && o.code == ServerError
      && r.queue == s.queue
      && id in r.ledger && r.ledger[id] == s.ledger[id]
      && (accepted == 0 ==> r == s)
      // the derived record, once written, stays
      && (accepted >= 1 ==> r.ledger == s.ledger[VoidId(id) := VoidRecord(s.ledger[id], amount, reason, recordTime)])
      && (accepted == 1 ==> r.audit == s.audit)
      // the audit entry, once written, stays; only the message is missing
      && (accepted == 2 ==>
            var v := VoidRecord(s.ledger[id], amount, reason, recordTime);
            r.audit == s.audit[VoidAuditId(VoidId(id)) := VoidAuditEntry(s.ledger[id], v, req.userId.value, reason, auditTime)])
  {
    var id := req.transactionId.value;
    var orig := s.ledger[id];
    var v := VoidRecord(orig, req.voidAmount.GetOr(DefaultVoidAmount), req.reason.value, recordTime);
    var e := VoidAuditEntry(orig, v, req.userId.value, req.reason.value, auditTime);
    var ws := VoidWrites(orig, req.voidAmount.GetOr(DefaultVoidAmount), req.userId.value, req.reason.value, recordTime, auditTime);
    assert ws == [LedgerPut(v), AuditPut(e), QueueSend(VoidMessage(v))];
    assert IsValidFor(orig, "VOID");
    assert VoidPlan(s.ledger, req, recordTime, auditTime) == Perform(ws);
    VoidIdInjective(id, id);
    if accepted == 1 {
      assert ws[..1] == [LedgerPut(v)];
      ApplyOne(s, LedgerPut(v));
    } else if accepted == 2 {
      assert ws[..2] == [LedgerPut(v), AuditPut(e)];
      ApplyTwo(s, LedgerPut(v), AuditPut(e));
    }
  }

  /** Voiding the same original twice: the second void passes validation again (the
      original is unchanged), overwrites the single derived record, and its message
      carries the same deduplication id, so the queue delivers nothing new. */
  lemma VoidRetryIsDeduplicated(s: Snapshot, req: VoidRequest, recordTime1: string, auditTime1: string,
                                recordTime2: string, auditTime2: string)
    requires WellKeyed(s)
    requires Given(req.transactionId) && Given(req.userId) && Given(req.reason)
    requires req.transactionId.value in s.ledger && s.ledger[req.transactionId.value].status == Some("Completed")
    requires req.transactionType.GetOr("VOID") == "VOID"
    ensures var once := ApplyAll(s, Execute(VoidPlan(s.ledger, req, recordTime1, auditTime1), 3).done);
      var o2 := Execute(VoidPlan(once.ledger, req, recordTime2, auditTime2), 3);
      var twice := ApplyAll(once, o2.done);
      && o2.code == OK
      && twice.ledger.Keys == once.ledger.Keys
      && twice.audit.Keys == once.audit.Keys
      && Delivered(twice.queue) == Delivered(once.queue)
  {
    var id := req.transactionId.value;
    VoidSucceeds(s, req, recordTime1, auditTime1, 3);
    var once := ApplyAll(s, Execute(VoidPlan(s.ledger, req, recordTime1, auditTime1), 3).done);
    ApplyAllKeepsKeys(s, Execute(VoidPlan(s.ledger, req, recordTime1, auditTime1), 3).done);
    VoidSucceeds(once, req, recordTime2, auditTime2, 3);
    var twice := ApplyAll(once, Execute(VoidPlan(once.ledger, req, recordTime2, auditTime2), 3).done);
    var m := twice.queue[|twice.queue| - 1];
    assert twice.queue == once.queue + [m];
    assert once.queue[|once.queue| - 1] == m;
    assert m.dedupId in DedupIds(once.queue);
    assert twice.queue[..|twice.queue| - 1] == once.queue;
  }

  /** create_void_transaction: one put of the derived record. */
  method CreateVoidTransaction(t: Tables, orig: Transaction, amount: real, reason: string, timestamp: string, fails: bool)
    returns (ok: bool, voidRecord: Transaction)
    modifies t
    ensures ok == !fails && voidRecord == VoidRecord(orig, amount, reason, timestamp)
    ensures t.State() == if ok then ApplyWrite(old(t.State()), LedgerPut(voidRecord)) else old(t.State())
  {
    voidRecord := VoidRecord(orig, amount, reason, timestamp);
    if fails {
      return false, voidRecord;
    }
    t.Apply(LedgerPut(voidRecord));
    ok := true;
  }

  /** log_audit_trail: one put of the audit item. */
  method LogAuditTrail(t: Tables, orig: Transaction, voidRecord: Transaction, userId: string, reason: string,
                       timestamp: string, fails: bool) returns (ok: bool)
    requires voidRecord.amount.Some?
    modifies t
    ensures ok == !fails
    ensures t.State() == if ok then ApplyWrite(old(t.State()), AuditPut(VoidAuditEntry(orig, voidRecord, userId, reason, timestamp)))
                         else old(t.State())
  {
    if fails {
      return false;
    }
    t.Apply(AuditPut(VoidAuditEntry(orig, voidRecord, userId, reason, timestamp)));
    return true;
  }

  /** send_to_fifo_queue: one message, deduplicated on the derived id. */
  method SendToFifoQueue(t: Tables, voidRecord: Transaction, fails: bool) returns (ok: bool)
    requires voidRecord.amount.Some? && voidRecord.reason.Some?
    modifies t
    ensures ok == !fails
    ensures t.State() == if ok then ApplyWrite(old(t.State()), QueueSend(VoidMessage(voidRecord))) else old(t.State())
  {
    if fails {
      return false;
    }
    t.Apply(QueueSend(VoidMessage(voidRecord)));
    return true;
  }

  /** lambda_handler, against stores that accept `accepted` writes. */
  method HandleVoid(t: Tables, req: VoidRequest, recordTime: string, auditTime: string, accepted: nat) returns (code: int)
    modifies t
    ensures var o := Execute(VoidPlan(old(t.ledger), req, recordTime, auditTime), accepted);
      code == o.code && t.State() == ApplyAll(old(t.State()), o.done)
  {
    if !Given(req.transactionId) || !Given(req.userId) || !Given(req.reason) {
      return BadRequest;
    }
    var id, userId, reason := req.transactionId.value, req.userId.value, req.reason.value;
    var amount := req.voidAmount.GetOr(DefaultVoidAmount);
    var action := req.transactionType.GetOr("VOID");
    var found := t.GetTransaction(id);
    if found.None? {
      return NotFound;
    }
    var rec := found.value;
    if !IsValidFor(rec, action) {
      return ServerError;
    }
    if action != "VOID" {
      return BadRequest;
    }
    code := WriteVoid(t, rec, amount, userId, reason, recordTime, auditTime, accepted);
  }

  /** The VOID branch of lambda_handler: the three writes, stopping at the first failure. */
  method WriteVoid(t: Tables, orig: Transaction, amount: real, userId: string, reason: string,
                   recordTime: string, auditTime: string, accepted: nat) returns (code: int)
    modifies t
    ensures var o := Execute(Perform(VoidWrites(orig, amount, userId, reason, recordTime, auditTime)), accepted);
      code == o.code && t.State() == ApplyAll(old(t.State()), o.done)
  {
    ghost var ws := VoidWrites(orig, amount, userId, reason, recordTime, auditTime);
    var ok, v := CreateVoidTransaction(t, orig, amount, reason, recordTime, accepted < 1);
    if !ok {
      assert ws[..accepted] == [];
      return ServerError;
    }
    ok := LogAuditTrail(t, orig, v, userId, reason, auditTime, accepted < 2);
    if !ok {
      assert ws[..accepted] == [ws[0]];
      ApplyOne(old(t.State()), ws[0]);
      return ServerError;
    }
    ok := SendToFifoQueue(t, v, accepted < 3);
    if !ok {
      assert ws[..accepted] == [ws[0], ws[1]];
      ApplyTwo(old(t.State()), ws[0], ws[1]);
      return ServerError;
    }
    assert ws == [ws[0], ws[1], ws[2]];
    ApplyThree(old(t.State()), ws[0], ws[1], ws[2]);
    return OK;
  }
}
