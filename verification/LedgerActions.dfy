/** The ledger object and the scoped store agree (codex/client.go, codex/submission_database.go): the same
    action, with the same fate of its write, leaves the same records and gives the same answer, whichever of them
    runs it. */
module LedgerActions {
  import opened Prelude
  import opened SubmissionRecords
  import opened SubmissionLedger
  import opened SubmissionDatabase

  /** Run an action on the ledger object, which reads everything first. */
  method RunOnLedger(ledger: Ledger, a: LedgerAction, w: WriteOutcome) returns (out: Outcome)
    requires ledger.database && (a.AcknowledgeThread? ==> forall id :: id in a.shown.order <==> id in a.shown.turns)
    modifies ledger
    ensures (ledger.stored, out) == Settle(true, old(ledger.stored), PlanFor(a, old(ledger.stored)), w)
  {
    ledger.Load();
    match a
    case RecordQueue(k, digest) => out := ledger.RecordQueueAttempt(k, digest, w);
    case ClearQueue(k) => out := ledger.ClearQueueAttempt(k, w);
    case RecordDeletion(k, deletion) => out := ledger.RecordQueueDeletionAttempt(k, deletion, w);
    case ClearDeletion(thread, queuedId, message) =>
      out := ledger.ClearQueueDeletionAndAttempt(thread, queuedId, message, w);
    case RecordSend(k, b, receipt) => out := ledger.RecordSendAttempt(k, b, receipt, w);
    case ClaimSend(k, wanted, claim) => out := ledger.ClaimSendSubmission(k, wanted, claim, w);
    case AcceptSend(k, p) => out := ledger.MarkSendAccepted(k, p, w);
    case RestoreSend(k, claim) => out := ledger.RestoreRejectedSendClaim(k, claim, w);
    case DiscardSend(k, digest, context, options) => out := ledger.DiscardPreparedSend(k, digest, context, options, w);
    case AcknowledgeThread(thread, shown) => out := ledger.AcknowledgeSends(thread, shown, w);
    case ClearConversation(thread, directory) => out := ledger.ClearConversationAttempts(thread, directory, w);
    case ClearRetired(thread) => out := ledger.ClearRetiredThreadAttempts(thread, w);
    case RecordOperation(directory, owner) => out := ledger.RecordThreadOperationAttempt(directory, owner, w);
  }

  /** Run an action on both: they start alike, and end alike with the same answer. */
  method RunOnBoth(ledger: Ledger, store: Store, a: LedgerAction, w: WriteOutcome)
    returns (one: Outcome, other: Outcome)
    requires ledger.database && ledger.stored == store.table && NamesThread(a) && NamesDirectory(a)
    requires a.AcknowledgeThread? ==> forall id :: id in a.shown.order <==> id in a.shown.turns
    modifies ledger, store
    ensures one == other && ledger.stored == store.table
  {
    one := RunOnLedger(ledger, a, w);
    other := store.Run(a, w);
  }
}
