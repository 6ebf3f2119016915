/** Records kept by the ledger table, the audit table and the void notification queue.

    The tables are schemaless key-value stores: an item holds its key and whatever
    attributes the writer chose to put there. Every attribute other than the key is
    therefore optional here, so that an item created by an update of a missing key
    (which holds only its key and the attributes the update set) is representable. */
module Records {

  datatype Option<T> = None | Some(value: T) {
    /** The value, or `default` when absent (Python's `dict.get(key, default)`). */
    function GetOr(default: T): T {
      if Some? then value else default
    }
  }

  // Status codes of the handlers' responses.
  const OK: int := 200
  const BadRequest: int := 400
  const NotFound: int := 404
  const ServerError: int := 500

  /** An item of the ledger table, keyed by `id` (attribute TransactionID). */
  datatype Transaction = Transaction(
    id: string,
    amount: Option<real>,
    processorId: Option<string>,
    status: Option<string>,
    source: Option<string>,
    txnType: Option<string>,
    originalId: Option<string>,
    reason: Option<string>,
    timestamp: Option<string>)

  /** The item an update creates when its key is absent: the key and nothing else. */
  function Bare(id: string): (r: Transaction)
    ensures r.id == id && r.status.None? && r.txnType.None? && r.amount.None?
  {
    Transaction(id, None, None, None, None, None, None, None, None)
  }

  /** The processor response the payment handler builds and records in its audit entry. */
  datatype ProcessorResponse = ProcessorResponse(
    status: string,
    transactionId: string,
    amount: real,
    processorId: string)

  /** The handler-specific attributes of an audit item. */
  datatype AuditDetails =
    | NoDetails
      /** Payment response: the parts of QueryDetails and ResponseData, and Source. */
    | PaymentDetails(
        transactionId: string,
        amount: real,
        processorId: string,
        source: string,
        txnType: string,
        response: ProcessorResponse,
        timestamp: string)
      /** Reversal attempt: Action, the normalized TransactionType, Initiator and Metadata. */
    | ReversalDetails(
        transactionId: string,
        action: string,
        txnType: string,
        initiator: string,
        timestamp: string,
        reversalAmount: real,
        reason: string)
      /** Void: both transaction ids, the derived record's amount, Reason and User. */
    | VoidDetails(
        originalId: string,
        voidId: string,
        amount: real,
        reason: string,
        user: string,
        timestamp: string)

  /** An item of the audit table, keyed by `auditId`; `status` is its lifecycle
      attribute (PENDING, SUCCESS), present only where a writer set it. */
  datatype AuditEntry = AuditEntry(auditId: string, status: Option<string>, details: AuditDetails)

  /** A message sent to the FIFO queue: the body (TransactionID, Amount, Reason),
      the message group and the deduplication id. */
  datatype QueueMessage = QueueMessage(
    transactionId: string,
    amount: real,
    reason: string,
    groupId: string,
    dedupId: string)
}
