# Payment ledger handlers: a Dafny model

This project models three payment-processing handlers that share a transaction
ledger table, an audit-trail table and a FIFO message queue:

- **Payment.** It creates a ledger entry in state `Initiated`. It then maps the
  transaction type and the normalized processor signal to a new ledger Status, and
  writes an audit entry.
- **Reversal.** It looks up an original transaction and checks three things, in
  this order: its Status (after `strip().lower()`), its TransactionType (likewise)
  and the requested amount. If all pass, it writes a PENDING audit entry, marks the
  original `REFUNDED` with type `reversal`, and marks the audit entry `SUCCESS`.
- **Void.** It checks the required request fields, looks up the original and
  checks that its Status is exactly `Completed`. It then writes a derived record
  `<id>-VOID` with the negated amount and an audit entry `<id>-VOID-AUDIT`, and
  sends a queue message deduplicated on the derived id.

The model is organized as follows:

- The two tables are `map` fields, and the queue a `seq` field, of the class
  `Store.Tables`. Each handler and each of its store helpers is a method that
  updates them in place.
- Each handler method is proved against a pure specification. A `Plan` function
  decides from the ledger contents either to refuse with a status code or to
  perform a sequence of writes (`Store.Write`). `Store.Execute` carries the plan
  out against stores that accept the first `accepted` writes and fail the next.
- Each method ensures that its status code and the new table contents are those of
  `ApplyAll(old state, writes done)`. The lemmas then state what those writes do:
  - which items change and which stay the same;
  - which status codes are returned;
  - the order of the checks;
  - the partial-failure states;
  - idempotence and queue deduplication.

Modelling choices:

- Ledger and audit items are schemaless, so every attribute other than the key
  is an `Option`.
- An update of an absent key creates an item that holds only the key and the
  attributes being set. A put replaces the whole item.
- Amounts are exact `real`s.
- Generated ids (uuid, time-based ids) and timestamps are parameters.
- The normalized processor signal is a parameter, because the function that
  computes it is not defined in the source.
- Token creation is likewise undefined. It is a boolean parameter that says
  whether it fails.
- Python's `strip()` removes the characters `str.isspace()` accepts (`Text.IsSpace`).
  `Text.Lower` maps ASCII letters only; see "## Left out".

Two behaviours of the code worth noting:

- The reversal sets Status to `REFUNDED`, in capitals.
- The void writes its derived record with an unconditional put, so a second void
  of the same original overwrites the first derived record.

## Model

| member | source | states |
|---|---|---|
| Text.TrimLeft | reversal_process.py:50-51 | the result is a suffix of the input; the removed prefix is all whitespace; the result does not start with whitespace |
| Text.TrimRight | reversal_process.py:50-51 | the result is a prefix of the input; the removed suffix is all whitespace; the result does not end with whitespace |
| Text.Trim | reversal_process.py:50-51 | `strip()` returns a slice of the input with only whitespace before and after it, which neither starts nor ends with whitespace, and is empty exactly when the input is all whitespace |
| Text.LowerChar | reversal_process.py:50-51 | an uppercase ASCII letter becomes its lowercase letter; every other character is kept |
| Text.Lower | reversal_process.py:50-51 | `lower()` keeps the length, turns each uppercase ASCII letter into its lowercase letter, keeps every other character, and so leaves no uppercase ASCII letter and keeps whitespace whitespace |
| Text.Normalize | reversal_process.py:50-51 | `strip().lower()` is the lowercased form of a slice of the input with only whitespace around it; it has no uppercase ASCII letter and no leading or trailing whitespace, and is empty exactly for an all-whitespace input |
| Text.LowerIdempotent | reversal_process.py:50-51 | lowercasing twice is lowercasing once |
| Text.NormalizeIdempotent | reversal_process.py:50-51 | normalizing twice is normalizing once |
| Text.TrimLower | reversal_process.py:50-51 | stripping then lowercasing equals lowercasing then stripping |
| Text.NormalizeIgnoresCase | reversal_process.py:50-51 | strings equal up to letter case normalize to the same string |
| Text.TrimIgnoresPadding | reversal_process.py:50-51 | whitespace added on either side does not change the stripped string |
| Text.NormalizeIgnoresPadding | reversal_process.py:50-51 | whitespace added on either side does not change the normalized string |
| Store.Updated | payment_process.py:115-121 | an update sets Status (and the type when given), keeps every other attribute of an existing item, and creates a bare item for an absent key |
| Store.ApplyWrite | reversal_process.py:94-121 | a put or update changes only its own key in its own table; a send appends one message; no other store changes |
| Store.ApplyAllKeepsKeys | void_process.py:43-79 | after any writes, every ledger item still sits under its own TransactionID and every audit item under its own AuditID |
| Store.Execute | reversal_process.py:95-128 | a refusal writes nothing and keeps its code; what is written is a prefix of the plan no longer than what the stores accept; 200 exactly when the whole plan is written, which is exactly when the stores accept it all; otherwise 500 after exactly the accepted writes |
| Store.Delivered | void_process.py:90-95 | the FIFO queue delivers only sent messages, never two with the same deduplication id, and every deduplication id sent |
| Store.Tables.constructor | payment_process.py:22-24 | the tables and the queue start empty |
| Store.Tables.GetTransaction | void_process.py:17-30 | the lookup finds an item exactly when the key is present, and returns that item |
| Store.Tables.Apply | payment_process.py:43-53 | one write updates the tables in place as `ApplyWrite` says |
| PaymentProcess.NewStatus | payment_process.py:68-101 | an unrecognized type is rejected, and only such a type; SALE and REFUND leave Status unchanged exactly for signals outside success, failed, pending |
| PaymentProcess.NewStatusFollowsTable | payment_process.py:68-94 | the chosen status is exactly the one the type/signal transition table lists: SALE and REFUND per signal, VOID always Voided, REVERSAL always Reversed |
| PaymentProcess.InitiatedRecord | payment_process.py:44-52 | the ledger item is keyed by the new id, has Status Initiated, carries the amount, processor id, source, type and timestamp, and has no original id or reason |
| PaymentProcess.InitiateAddsOneEntry | payment_process.py:39-53 | the ledger put adds exactly one entry, Initiated, carrying the amount, processor, source and type; nothing else changes |
| PaymentProcess.UpdateSetsOnlyStatus | payment_process.py:113-121 | a status update changes only the Status of the keyed item; other items, the audit table and the queue are unchanged |
| PaymentProcess.InvalidTypeWritesNothing | payment_process.py:96-101 | an unrecognized type returns 400 with no ledger update and no audit entry |
| PaymentProcess.ResponseEffect | payment_process.py:68-106 | a recognized type returns 200, adds one audit entry referencing the transaction, changes only the keyed item's Status, and leaves the ledger as it was for a signal the type ignores |
| PaymentProcess.ResponseIdempotent | payment_process.py:68-94 | applying the same response twice leaves the ledger and the Status as applying it once |
| PaymentProcess.PaymentAuditEntry | payment_process.py:132-139 | the audit item is keyed by its own AuditID, has no lifecycle Status, references the TransactionID, and records the amount, processor id, source, type, processor response and timestamp |
| PaymentProcess.ResponsePlan | payment_process.py:66-106 | refused with 400 exactly for an unrecognized type; otherwise the audit put comes last, preceded by the Status update exactly when the type and signal choose a status |
| PaymentProcess.CallFor | payment_process.py:152-168 | the call carries the new id, the event's amount and processor id, source "unknown" and type "SALE" when absent, and a processor response with the lowercased simulate_status (empty when absent) |
| PaymentProcess.PaymentOutcome | payment_process.py:147-178 | codes are 200, 400 or 500; nothing is written exactly when a required field is missing or the ledger put fails; otherwise the Initiated put with defaults comes first; 200 needs every step, 400 only an unrecognized type after the put |
| PaymentProcess.PersistPaymentLedger | payment_process.py:39-58 | on success, exactly the Initiated put; on a store failure, no change |
| PaymentProcess.UpdatePaymentStatus | payment_process.py:113-125 | on success, exactly the Status update; on a store failure, no change |
| PaymentProcess.PersistPaymentAuditTrail | payment_process.py:128-144 | on success, exactly the audit put; on a store failure, no change |
| PaymentProcess.ProcessPaymentResponse | payment_process.py:61-110 | the status code and the tables are those of the response plan run against the stores |
| PaymentProcess.HandlePayment | payment_process.py:147-178 | the status code and the tables are those of the payment flow: field check, ledger put, token creation, response |
| PaymentProcess.MissingFieldWritesNothing | payment_process.py:150-151 | an event without amount or processor id returns 500 with nothing written |
| PaymentProcess.FailureAfterPutLeavesInitiated | payment_process.py:157-160 | a failed token creation after the ledger put returns 500 and leaves the new entry Initiated with no audit entry |
| PaymentProcess.SaleSucceeds | payment_process.py:147-171 | a SALE of 100.00 answered success (type defaulted) returns 200 and ends Success with one audit entry |
| ReversalProcess.Check | reversal_process.py:49-76 | each verdict as an if-and-only-if: eligible exactly when status, type and amount pass; missing attribute exactly when Status or type is absent, or both pass and Amount is absent; status refused exactly when it fails; type refused exactly when status passes and type fails; amount refused exactly when both pass and the amount exceeds the original |
| ReversalProcess.AuditIdAt | reversal_process.py:79 | the audit id is the prefix `audit-` followed by the time of the attempt |
| ReversalProcess.AuditIdInjective | reversal_process.py:79 | attempts at different times get different audit ids |
| ReversalProcess.PendingEntry | reversal_process.py:80-92 | the audit entry is keyed by the attempt's audit id, is PENDING, is a REVERSAL of the requested transaction with its normalized type and the requested amount, and records the Reason and Initiator, or "No reason provided" and "System" when absent |
| ReversalProcess.ReversalPlan | reversal_process.py:35-128 | 404 exactly for an unknown id; writes exactly for an eligible original, namely the PENDING audit put, the REFUNDED/reversal update and the SUCCESS audit update; every other refusal is 500 for a missing attribute and 400 otherwise |
| ReversalProcess.ExceededAmountRefused | reversal_process.py:69-76 | any amount above the original's, on a record whose status and type pass, returns 400 with nothing written |
| ReversalProcess.MissingAmountFails | reversal_process.py:69 | a record whose status and type pass but without Amount returns 500 with nothing written |
| ReversalProcess.RefusalsWriteNothing | reversal_process.py:35-76 | an unknown id returns 404; an ineligible record returns 400; neither writes anything |
| ReversalProcess.ReversalSucceeds | reversal_process.py:79-134 | 200; the original alone becomes REFUNDED of type reversal, with no record created; one audit entry, a REVERSAL of the original with amount, reason and initiator (defaults applied), ends SUCCESS; the queue is untouched |
| ReversalProcess.ReversalPartialFailure | reversal_process.py:95-128 | a store failure returns 500 and keeps the queue; once the audit put went through the audit table is exactly the old one plus the PENDING entry; after a failed ledger update the ledger is unchanged; after a failed final audit update the ledger is exactly the old one with the original REFUNDED and typed reversal |
| ReversalProcess.AmountBoundary | reversal_process.py:69-76 | reversing exactly the original amount is accepted; one cent more is refused |
| ReversalProcess.StatusCheckIgnoresCaseAndPadding | reversal_process.py:50-53 | the status check judges alike two statuses that differ only in case and surrounding whitespace |
| ReversalProcess.TypeCheckIgnoresCaseAndPadding | reversal_process.py:51-62 | the type check judges alike two types that differ only in case and surrounding whitespace |
| ReversalProcess.CompletedSaleIsEligible | reversal_process.py:49-76 | a Completed sale passes the checks for any amount up to its own |
| ReversalProcess.FullReversalOfSale | reversal_process.py:14-134 | a Completed sale of 50.00 reversed in full returns 200, ends REFUNDED of type reversal, and its audit entry ends SUCCESS |
| ReversalProcess.NormalizedWords | reversal_process.py:50-51 | "Completed" normalizes to "completed" and "sale" to "sale" |
| ReversalProcess.Reverse | reversal_process.py:14-142 | the status code and the tables are those of the reversal plan run against the stores |
| ReversalProcess.WriteReversal | reversal_process.py:79-134 | the three writes in order, stopping with 500 at the first store failure |
| VoidProcess.VoidIdInjective | void_process.py:46 | distinct originals give distinct derived ids, and a derived id never equals its original's id |
| VoidProcess.IsValidFor | void_process.py:32-40 | VOID and REFUND pass exactly when Status is exactly "Completed"; every other action passes |
| VoidProcess.VoidRecord | void_process.py:45-53 | the derived record has id `<id>-VOID`, different from the original's, points back to the original, is a Voided VOID, carries the reason, and its amount cancels the voided amount |
| VoidProcess.VoidAuditEntry | void_process.py:65-73 | the audit entry is keyed `<derived id>-AUDIT`, references both records, and carries the derived record's amount, the user and the reason |
| VoidProcess.VoidMessage | void_process.py:83-94 | the message carries the derived id, amount and reason, and is deduplicated on the derived id in the one message group |
| VoidProcess.VoidPlan | void_process.py:101-133 | writes exactly for a complete VOID request on a Completed original, and then the derived record, audit entry and message; a refusal is 400, 404 or 500, and 404 exactly for an unknown id |
| VoidProcess.VoidRefusals | void_process.py:105-133 | a missing or empty required field returns 400, an unknown id 404, a failed Completed check 500, and a validated non-VOID action 400; none writes anything |
| VoidProcess.VoidSucceeds | void_process.py:43-126 | 200; the derived record (id, VOID, Voided, back-reference, negated amount) is added, the original and every other item untouched; one audit entry referencing both ids with the derived amount; one message deduplicated on the derived id |
| VoidProcess.VoidPartialFailure | void_process.py:122-126 | a store failure returns 500 and never touches the original; after one accepted write the ledger holds exactly the added derived record and the audit table is unchanged; after two the audit table holds exactly the added audit entry; the queue is untouched |
| VoidProcess.VoidRetryIsDeduplicated | void_process.py:43-95 | voiding the same original again succeeds, overwrites the single derived record and audit entry, and delivers no new queue message |
| VoidProcess.CreateVoidTransaction | void_process.py:43-61 | returns the derived record; on success exactly its put, on a store failure no change |
| VoidProcess.LogAuditTrail | void_process.py:63-79 | on success exactly the audit put; on a store failure no change |
| VoidProcess.SendToFifoQueue | void_process.py:81-99 | on success exactly one message appended; on a store failure no change |
| VoidProcess.HandleVoid | void_process.py:101-137 | the status code and the tables are those of the void plan run against the stores |
| VoidProcess.WriteVoid | void_process.py:122-126 | the three writes in order, stopping with 500 at the first store failure |
| Eligibility.VoidStatusPassesReversal | void_process.py:32-40 | every Status the void check accepts also passes the reversal status check |
| Eligibility.VoidCheckIsCaseSensitive | void_process.py:37 | "completed" passes the reversal status check but fails the void check, which compares exactly |

## Left out

- AWS clients, table and queue construction, environment variables, logging and
  `print`. The stores are in memory.
- KMS encryption (`encrypt_token`). It is a foreign service call.
- `normalize_processor_response` and `create_secure_token` are called but not
  defined in the source.
  - The normalized signal is a parameter; its rules are not modelled.
  - Token creation is a failure flag.
- uuid and timestamp generation. Ids and times are parameters.
  - The payment ledger id is assumed fresh where a lemma needs it.
- JSON parsing of the reversal body, `Decimal(str(...))` conversions, float
  formatting of the void amount, and DynamoDB typed attribute encoding. Amounts
  are exact reals.
- The text of response bodies and error messages. Only status codes and effects
  are modelled.
- Audit details are kept as the values they are built from, not as the formatted
  strings the payment handler writes.
- A missing `TransactionID` or `ReversalAmount` in the reversal body raises and
  is answered with 500. The request type makes both fields present, so that path
  is not modelled.
- Event values of the wrong JSON type (null, numbers where strings are expected)
  are not modelled; absent optional fields take their defaults.
- A failing read (`get_item` raising) is not modelled. Only writes fail.
- Text.Lower: maps only the ASCII letters, while Python's `lower()` maps every
  cased character. The words compared against are ASCII.
- SQS behaviour beyond deduplication: the five-minute deduplication window and
  per-group ordering. `Store.Delivered` deduplicates over the whole history.
- Concurrency. The handlers run one at a time.
