/** The void and reversal handlers judge the same ledger record by different rules:
    the void handler compares Status with "Completed" exactly, the reversal handler
    compares its stripped, lowercased form with "completed" and "success". */
module Eligibility {
  import opened Records
  import opened Text
  import ReversalProcess
  import VoidProcess

  /** Every Status the void handler accepts, the reversal handler accepts too. */
  lemma VoidStatusPassesReversal(rec: Transaction)
    requires VoidProcess.IsValidFor(rec, "VOID")
    ensures rec.status.Some? && Normalize(rec.status.value) in ReversalProcess.ValidStatuses
  {
    assert rec.status == Some("Completed");
    ReversalProcess.NormalizedWords();
  }

  /** The converse fails: a Status differing from "Completed" only in case passes the
      reversal check and fails the void check. */
  lemma VoidCheckIsCaseSensitive(rec: Transaction)
    requires rec.status == Some("completed")
    ensures Normalize(rec.status.value) in ReversalProcess.ValidStatuses
    ensures !VoidProcess.IsValidFor(rec, "VOID")
  {
    // "completed" is itself a normalized word
    ReversalProcess.NormalizedCompleted();
    NormalizeIdempotent("Completed");
  }
}
