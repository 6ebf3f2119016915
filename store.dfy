/** The ledger table, the audit table and the FIFO queue, held in memory.

    A handler's effect is a sequence of write requests. Each request either succeeds
    or fails; the handlers stop at the first failure and report 500, keeping the
    writes that already succeeded (nothing is rolled back). */
module Store {
  import opened Records

  /** One request to a store. A put replaces the whole item under its key; an update
      sets the named attributes of the item under its key, creating an item holding
      only the key and those attributes when the key is absent. */
  datatype Write =
    | LedgerPut(record: Transaction)
    | LedgerUpdate(id: string, status: string, txnType: Option<string>)
    | AuditPut(entry: AuditEntry)
    | AuditUpdate(auditId: string, status: string)
    | QueueSend(message: QueueMessage)

  /** The contents of the three stores at one moment. */
  datatype Snapshot = Snapshot(
    ledger: map<string, Transaction>,
    audit: map<string, AuditEntry>,
    queue: seq<QueueMessage>)

  /** `m2` is `m1` with the entry under `k` added or replaced and nothing else touched. */
  ghost predicate OnlyKeyChanged<V>(m1: map<string, V>, m2: map<string, V>, k: string) {
    && m2.Keys == m1.Keys + {k}
    && forall j :: j in m1 && j != k ==> m2[j] == m1[j]
  }

  /** What an update of Status (and, when given, TransactionType) leaves in the ledger
      under `id`. */
  function Updated(ledger: map<string, Transaction>, id: string, status: string, txnType: Option<string>): (r: Transaction)
    ensures r.id == (if id in ledger then ledger[id].id else id)
    ensures r.status == Some(status)
    ensures r.txnType == (if txnType.Some? then txnType else if id in ledger then ledger[id].txnType else None)
    ensures id in ledger ==> r.(status := ledger[id].status, txnType := ledger[id].txnType) == ledger[id]
    ensures id !in ledger ==> r.(status := None, txnType := None) == Bare(id)
  {
    var base := if id in ledger then ledger[id] else Bare(id);
    base.(status := Some(status), txnType := if txnType.Some? then txnType else base.txnType)
  }

  function ApplyWrite(s: Snapshot, w: Write): (r: Snapshot)
    ensures w.LedgerPut? ==> OnlyKeyChanged(s.ledger, r.ledger, w.record.id) && r.ledger[w.record.id] == w.record
    ensures w.LedgerUpdate? ==> OnlyKeyChanged(s.ledger, r.ledger, w.id) && r.ledger[w.id].status == Some(w.status)
    ensures w.AuditPut? ==> OnlyKeyChanged(s.audit, r.audit, w.entry.auditId) && r.audit[w.entry.auditId] == w.entry
    ensures w.AuditUpdate? ==> OnlyKeyChanged(s.audit, r.audit, w.auditId) && r.audit[w.auditId].status == Some(w.status)
    ensures w.QueueSend? ==> r.queue == s.queue + [w.message]
    // every request goes to one store only
    ensures !(w.LedgerPut? || w.LedgerUpdate?) ==> r.ledger == s.ledger
    ensures !(w.AuditPut? || w.AuditUpdate?) ==> r.audit == s.audit
    ensures !w.QueueSend? ==> r.queue == s.queue
  {
    match w
    case LedgerPut(rec) => s.(ledger := s.ledger[rec.id := rec])
    case LedgerUpdate(id, status, txnType) => s.(ledger := s.ledger[id := Updated(s.ledger, id, status, txnType)])
    case AuditPut(e) => s.(audit := s.audit[e.auditId := e])
    case AuditUpdate(aid, status) =>
      var base := if aid in s.audit then s.audit[aid] else AuditEntry(aid, None, NoDetails);
      s.(audit := s.audit[aid := base.(status := Some(status))])
    case QueueSend(m) => s.(queue := s.queue + [m])
  }

  /** The stores after the writes `ws`, in order. */
  function ApplyAll(s: Snapshot, ws: seq<Write>): Snapshot
    decreases |ws|
  {
    if ws == [] then s else ApplyWrite(ApplyAll(s, ws[..|ws| - 1]), ws[|ws| - 1])
  }

  /** Every item sits under its own key: a ledger item under its TransactionID, an
      audit item under its AuditID. */
  ghost predicate WellKeyed(s: Snapshot) {
    && (forall k :: k in s.ledger ==> s.ledger[k].id == k)
    && (forall k :: k in s.audit ==> s.audit[k].auditId == k)
  }

  lemma {:induction false} ApplyAllKeepsKeys(s: Snapshot, ws: seq<Write>)
    requires WellKeyed(s)
    ensures WellKeyed(ApplyAll(s, ws))
    decreases |ws|
  {
    if ws != [] {
      ApplyAllKeepsKeys(s, ws[..|ws| - 1]);
    }
  }

  lemma {:induction false} ApplyAllAppend(s: Snapshot, a: seq<Write>, b: seq<Write>)
    ensures ApplyAll(s, a + b) == ApplyAll(ApplyAll(s, a), b)
    decreases |b|
  {
    if b == [] {
      assert a + b == a;
    } else {
      assert (a + b)[..|a + b| - 1] == a + b[..|b| - 1];
      ApplyAllAppend(s, a, b[..|b| - 1]);
    }
  }

  /** A second write under the same key replaces the first. */
  lemma Overwrite<V>(m: map<string, V>, k: string, a: V, b: V)
    ensures m[k := a][k := b] == m[k := b]
  {
  }

  lemma ApplyOne(s: Snapshot, a: Write)
    ensures ApplyAll(s, [a]) == ApplyWrite(s, a)
  {
    assert [a][..0] == [];
  }

  lemma ApplyTwo(s: Snapshot, a: Write, b: Write)
    ensures ApplyAll(s, [a, b]) == ApplyWrite(ApplyWrite(s, a), b)
  {
    assert [a, b][..1] == [a];
    ApplyOne(s, a);
  }

  lemma ApplyThree(s: Snapshot, a: Write, b: Write, c: Write)
    ensures ApplyAll(s, [a, b, c]) == ApplyWrite(ApplyWrite(ApplyWrite(s, a), b), c)
  {
    assert [a, b, c][..2] == [a, b];
    assert ApplyAll(s, [a, b, c]) == ApplyWrite(ApplyAll(s, [a, b]), c);
    ApplyTwo(s, a, b);
  }

  /** A handler's decision once it has read what it needs: refuse with a status code
      and write nothing, or perform a sequence of writes. */
  datatype Plan = Reject(code: int) | Perform(writes: seq<Write>)

  /** What was written and which status code was returned. */
  datatype Outcome = Outcome(done: seq<Write>, code: int)

  /** A plan carried out against stores that accept the first `accepted` writes and
      fail the next one. */
  function Execute(p: Plan, accepted: nat): (o: Outcome)
    // a refusal writes nothing and keeps its code
    ensures p.Reject? ==> o.done == [] && o.code == p.code
    // what is written is a prefix of the plan, no longer than what the stores accept
    ensures p.Perform? ==> o.done <= p.writes && |o.done| <= accepted
    // 200 exactly when every write went through, and then only when the stores accept them all
    ensures p.Perform? ==> (o.code == OK <==> o.done == p.writes)
    ensures p.Perform? ==> (o.code == OK <==> accepted >= |p.writes|)
    // otherwise 500, after exactly the writes that were accepted
    ensures p.Perform? && o.code != OK ==> o.code == ServerError && |o.done| == accepted
  {
    match p
    case Reject(code) => Outcome([], code)
    case Perform(ws) => if accepted < |ws| then Outcome(ws[..accepted], ServerError) else Outcome(ws, OK)
  }

  /** The deduplication ids of the messages in `q`. */
  function DedupIds(q: seq<QueueMessage>): set<string> {
    set i | 0 <= i < |q| :: q[i].dedupId
  }

  /** The messages a FIFO queue hands on: a message whose deduplication id was already
      sent is accepted but not delivered again. */
  function Delivered(q: seq<QueueMessage>): (d: seq<QueueMessage>)
    ensures forall i :: 0 <= i < |d| ==> d[i] in q
    ensures forall i, j :: 0 <= i < j < |d| ==> d[i].dedupId != d[j].dedupId
    ensures DedupIds(d) == DedupIds(q)
    decreases |q|
  {
    if q == [] then []
    else
      var rest := Delivered(q[..|q| - 1]);
      var m := q[|q| - 1];
      assert q == q[..|q| - 1] + [m];
      DedupIdsAppend(q[..|q| - 1], m);
      if m.dedupId in DedupIds(q[..|q| - 1]) then rest
      else
        DedupIdsAppend(rest, m);
        rest + [m]
  }

  lemma DedupIdsAppend(q: seq<QueueMessage>, m: QueueMessage)
    ensures DedupIds(q + [m]) == DedupIds(q) + {m.dedupId}
  {
    assert forall i :: 0 <= i < |q| ==> (q + [m])[i] == q[i];
    assert (q + [m])[|q|] == m;
  }

  /** The three stores, updated in place by the handlers. */
  class Tables {
    var ledger: map<string, Transaction>
    var audit: map<string, AuditEntry>
    var queue: seq<QueueMessage>

    function State(): Snapshot
      reads this
    {
      Snapshot(ledger, audit, queue)
    }

    constructor ()
      ensures State() == Snapshot(map[], map[], [])
    {
      ledger, audit, queue := map[], map[], [];
    }

    /** A ledger lookup by TransactionID. */
    method GetTransaction(id: string) returns (r: Option<Transaction>)
      ensures r.Some? <==> id in ledger
      ensures r.Some? ==> r.value == ledger[id]
    {
      r := if id in ledger then Some(ledger[id]) else None;
    }

    /** Carries out one successful write request. */
    method Apply(w: Write)
      modifies this
      ensures State() == ApplyWrite(old(State()), w)
    {
      match w
      case LedgerPut(rec) =>
        ledger := ledger[rec.id := rec];
      case LedgerUpdate(id, status, txnType) =>
        ledger := ledger[id := Updated(ledger, id, status, txnType)];
      case AuditPut(e) =>
        audit := audit[e.auditId := e];
      case AuditUpdate(aid, status) =>
        var base := if aid in audit then audit[aid] else AuditEntry(aid, None, NoDetails);
        audit := audit[aid := base.(status := Some(status))];
      case QueueSend(m) =>
        queue := queue + [m];
    }
  }
}
