/** The ledger operations as the client runs them (codex/client.go, codex/send_delivery.go): maps
    changed in place, one write, and a rollback by hand when that write is reported as failed.

    Every operation is proved against its plan in `SubmissionRecords`: what becomes durable is exactly
    what the plan settles to, and a reported failure leaves the maps in memory as they were.  The
    per-thread maps of the source are one map keyed by thread and id. */
module SubmissionLedger {
  import opened Prelude
  import opened SubmissionRecords

  /** The attempt may still be handed to the native queue. */
  predicate Queueable(a: SendAttempt, digest: string) {
    a.state == Prepared && !a.binding.steered && a.binding.digest == digest
  }

  /** The attempt is submitting and, in the database, with this claim. */
  predicate Restorable(database: bool, r: Records, k: Identity, claim: string) {
    && k in r.sends && r.sends[k].state == Submitting
    && (database && claim != "" ==> r.sends[k].admission == claim)
  }

  class Ledger {
    const database: bool
    var queueAttempts: map<Identity, string>
    var sendAttempts: map<Identity, SendAttempt>
    var queueDeletions: map<Identity, Deletion>
    var operations: map<string, string>
    var stored: Records

    constructor (database: bool)
      ensures this.database == database && stored == Empty && View() == Empty
    {
      this.database := database;
      queueAttempts, sendAttempts, queueDeletions, operations, stored := map[], map[], map[], map[], Empty;
    }

    /** The maps in memory, as records. */
    function View(): Records
      reads this`queueAttempts, this`sendAttempts, this`queueDeletions, this`operations
    {
      Records(sendAttempts, queueAttempts, queueDeletions, operations)
    }

    /** Every transaction starts by reading what is stored. */
    method Load()
      modifies this`queueAttempts, this`sendAttempts, this`queueDeletions, this`operations
      ensures View() == stored
    {
      queueAttempts, sendAttempts, queueDeletions := stored.queued, stored.sends, stored.deletions;
      operations := stored.operations;
    }

    method Write(w: WriteOutcome) returns (ok: bool)
      modifies this`stored
      ensures ok <==> w.Written?
      ensures stored == if w.LostBefore? then old(stored) else Persisted(database, View())
    {
      if !w.LostBefore? { stored := Persisted(database, View()); }
      ok := w.Written?;
    }

    /** `plan` was carried out: `stored` and the answer settle it, and memory follows only a success. */
    twostate predicate Settled(plan: Plan, w: WriteOutcome, out: Outcome)
      reads this
    {
      && (stored, out) == Settle(database, old(stored), plan, w)
      && View() == (if plan.Change? && out.Done? then plan.next else old(View()))
    }

    method RecordQueueAttempt(k: Identity, digest: string, w: WriteOutcome) returns (out: Outcome)
      requires View() == stored
      modifies this
      ensures Settled(RecordQueuePlan(old(stored), k, digest), w, out)
      ensures out == Failed(ReusedWithDifferentText) <==> k in old(stored).queued && old(stored).queued[k] != digest
      ensures out == Failed(EarlierAttemptUnreconciled) <==>
              k !in old(stored).queued && k in old(stored).sends && !Queueable(old(stored).sends[k], digest)
    {
      if k in queueAttempts {
        if queueAttempts[k] != digest { return Failed(ReusedWithDifferentText); }
        return Done;
      }
      if k in sendAttempts {
        var send := sendAttempts[k];
        if !send.state.Prepared? || send.binding.steered || send.binding.digest != digest {
          return Failed(EarlierAttemptUnreconciled);
        }
      }
      queueAttempts := queueAttempts[k := digest];
      var ok := Write(w);
      if !ok {
        queueAttempts := queueAttempts - {k};
        assert queueAttempts == old(queueAttempts);
        return Failed(WriteFailed);
      }
      return Done;
    }

    method ClearQueueAttempt(k: Identity, w: WriteOutcome) returns (out: Outcome)
      requires View() == stored
      modifies this
      ensures Settled(ClearQueuePlan(old(stored), k), w, out)
    {
      if k !in queueAttempts { return Done; }
      var digest := queueAttempts[k];
      queueAttempts := queueAttempts - {k};
      var ok := Write(w);
      if !ok {
        queueAttempts := queueAttempts[k := digest];
        assert queueAttempts == old(queueAttempts);
        return Failed(WriteFailed);
      }
      return Done;
    }

    method RecordQueueDeletionAttempt(target: Identity, wanted: Deletion, w: WriteOutcome) returns (out: Outcome)
      requires View() == stored
      modifies this
      ensures Settled(RecordDeletionPlan(old(stored), target, wanted), w, out)
      ensures out == Failed(DeletionChanged) <==>
              target in old(stored).deletions && old(stored).deletions[target] != wanted
    {
      if target in queueDeletions {
        if queueDeletions[target] != wanted { return Failed(DeletionChanged); }
        return Done;
      }
      queueDeletions := queueDeletions[target := wanted];
      var ok := Write(w);
      if !ok {
        queueDeletions := queueDeletions - {target};
        assert queueDeletions == old(queueDeletions);
        return Failed(WriteFailed);
      }
      return Done;
    }

    /** Install an attempt, write, and put back what was there if the write fails. */
    method Install(k: Identity, attempt: SendAttempt, w: WriteOutcome) returns (out: Outcome)
      requires View() == stored
      modifies this
      ensures Settled(Change(old(stored).(sends := old(stored).sends[k := attempt])), w, out)
    {
      var previous := sendAttempts;
      sendAttempts := sendAttempts[k := attempt];
      var ok := Write(w);
      if !ok {
        if k in previous {
          sendAttempts := sendAttempts[k := previous[k]];
        } else {
          sendAttempts := sendAttempts - {k};
        }
        assert sendAttempts == old(sendAttempts);
        return Failed(WriteFailed);
      }
      return Done;
    }

    method RecordSendAttempt(k: Identity, b: Binding, receipt: Option<Receipt>, w: WriteOutcome) returns (out: Outcome)
      requires View() == stored
      modifies this
      ensures Settled(RecordSendPlan(old(stored), k, b, receipt), w, out)
      ensures out == Failed(ReusedForAnotherAction) <==> k in old(stored).sends && old(stored).sends[k].binding != b
      ensures out == Failed(ReceiptMismatch) <==>
              && receipt.Some? && (k in old(stored).sends ==> old(stored).sends[k].binding == b)
              && (receipt.value != Receipt(k.id, receipt.value.turn, b.steered) || receipt.value.turn == ""
                  || (k in old(stored).sends && old(stored).sends[k].state == Accepted
                      && old(stored).sends[k].turn != receipt.value.turn))
    {
      var found := k in sendAttempts;
      var attempt := SendAttempt(b, Prepared, "", "");
      var existing := attempt;
      if found {
        existing := sendAttempts[k];
        if existing.binding != b { return Failed(ReusedForAnotherAction); }
        if receipt.None? { return Done; }
      }
      if receipt.Some? {
        var p := receipt.value;
        if p.message != k.id || p.turn == "" || p.steered != b.steered
          || (found && existing.state.Accepted? && existing.turn != p.turn) {
          return Failed(ReceiptMismatch);
        }
        if found && existing.state.Accepted? { return Done; }
        attempt := attempt.(state := Accepted, turn := p.turn);
      }
      out := Install(k, attempt, w);
    }

    method ClaimSendSubmission(k: Identity, wanted: Option<Binding>, claim: string,
      w: WriteOutcome) returns (out: Outcome)
      requires View() == stored
      modifies this
      ensures Settled(ClaimPlan(old(stored), k, wanted, claim), w, out)
      ensures out == Failed(AttemptDisappeared) <==> k !in old(stored).sends
      ensures out == Failed(IdentityChanged) <==>
              k in old(stored).sends && wanted.Some? && wanted.value != old(stored).sends[k].binding
      ensures out == Failed(AdmissionChanged) <==>
              && k in old(stored).sends && (wanted.Some? ==> wanted.value == old(stored).sends[k].binding)
              && (old(stored).sends[k].state != Prepared || k in old(stored).queued)
    {
      if k !in sendAttempts { return Failed(AttemptDisappeared); }
      var attempt := sendAttempts[k];
      if wanted.Some? && wanted.value != attempt.binding { return Failed(IdentityChanged); }
      if !attempt.state.Prepared? || k in queueAttempts { return Failed(AdmissionChanged); }
      out := Install(k, attempt.(state := Submitting, admission := claim), w);
    }

    method MarkSendAccepted(k: Identity, p: Receipt, w: WriteOutcome) returns (out: Outcome)
      requires View() == stored
      modifies this
      ensures Settled(AcceptPlan(old(stored), k, p), w, out)
      ensures out == Failed(AttemptDisappeared) <==> k !in old(stored).sends
      ensures out == Failed(ReceiptMismatch) <==>
              && k in old(stored).sends
              && (p != Receipt(k.id, p.turn, old(stored).sends[k].binding.steered) || p.turn == "")
      ensures out == Failed(AcceptedBeforeSubmission) ==> old(stored).sends[k].state == Prepared
      ensures out == Failed(AcceptedByAnotherTurn) ==>
              old(stored).sends[k].state == Accepted && old(stored).sends[k].turn != p.turn
    {
      if k !in sendAttempts { return Failed(AttemptDisappeared); }
      var attempt := sendAttempts[k];
      if p.turn == "" || p.message != k.id || p.steered != attempt.binding.steered { return Failed(ReceiptMismatch); }
      if attempt.state.Accepted? {
        if attempt.turn != p.turn { return Failed(AcceptedByAnotherTurn); }
        return Done;
      }
      if !attempt.state.Submitting? { return Failed(AcceptedBeforeSubmission); }
      out := Install(k, attempt.(state := Accepted, turn := p.turn), w);
    }

    method RestoreRejectedSendClaim(k: Identity, claim: string, w: WriteOutcome) returns (out: Outcome)
      requires View() == stored
      modifies this
      ensures Settled(RestorePlan(database, old(stored), k, claim), w, out)
      ensures out == Failed(RejectedAttemptChanged) <==> !Restorable(database, old(stored), k, claim)
      ensures w.Written? && Restorable(database, old(stored), k, claim) ==>
              && out.Done? && stored.sends.Keys == old(stored).sends.Keys
              && stored.sends[k] == SendAttempt(old(stored).sends[k].binding, Prepared, old(stored).sends[k].turn, "")
              && stored == Persisted(database, old(stored).(sends := old(stored).sends[k := stored.sends[k]]))
    {
      if k !in sendAttempts { return Failed(RejectedAttemptChanged); }
      var attempt := sendAttempts[k];
      if !attempt.state.Submitting? || (database && claim != "" && attempt.admission != claim) {
        return Failed(RejectedAttemptChanged);
      }
      out := Install(k, attempt.(state := Prepared, admission := ""), w);
    }

    method DiscardPreparedSend(k: Identity, digest: string, context: string, options: string,
      w: WriteOutcome) returns (out: Outcome)
      requires View() == stored
      modifies this
      ensures Settled(DiscardPlan(old(stored), k, digest, context, options), w, out)
      ensures out == Failed(ReusedForAnotherAction) <==>
              k in old(stored).sends &&
              old(stored).sends[k].binding != Binding(digest, context, options, old(stored).sends[k].binding.steered)
    {
      if k !in sendAttempts { return Done; }
      var attempt := sendAttempts[k];
      var b := attempt.binding;
      if b.digest != digest || b.context != context || b.options != options { return Failed(ReusedForAnotherAction); }
      if !attempt.state.Prepared? || k in queueAttempts { return Done; }
      sendAttempts := sendAttempts - {k};
      var ok := Write(w);
      if !ok {
        sendAttempts := sendAttempts[k := attempt];
        assert sendAttempts == old(sendAttempts);
        return Failed(WriteFailed);
      }
      return Done;
    }

    method ClearQueueDeletionAndAttempt(thread: string, queuedId: string, message: string,
      w: WriteOutcome) returns (out: Outcome)
      requires View() == stored
      modifies this
      ensures Settled(ClearDeletionPlan(old(stored), thread, queuedId, message), w, out)
      ensures out == Failed(DeletionBoundToAnother) <==>
              && Identity(thread, queuedId) in old(stored).deletions
              && old(stored).deletions[Identity(thread, queuedId)].message != message
    {
      var target, k := Identity(thread, queuedId), Identity(thread, message);
      var oldQueue, oldSends, oldDeletions := queueAttempts, sendAttempts, queueDeletions;
      if target in queueDeletions && queueDeletions[target].message != message {
        return Failed(DeletionBoundToAnother);
      }
      var prepared := k in sendAttempts && k in queueAttempts && sendAttempts[k].state.Prepared?
        && !sendAttempts[k].binding.steered && sendAttempts[k].binding.digest == queueAttempts[k];
      queueDeletions := queueDeletions - {target};
      queueAttempts := queueAttempts - {k};
      if prepared { sendAttempts := sendAttempts - {k}; }
      var ok := Write(w);
      if !ok {
        queueAttempts, sendAttempts, queueDeletions := oldQueue, oldSends, oldDeletions;
        return Failed(WriteFailed);
      }
      return Done;
    }

    /** Drop the acknowledged attempts one by one; the first contradiction abandons the transaction. */
    method DropAcknowledged(thread: string, a: Acknowledgement) returns (kept: Sends,
      refusal: Option<Error>)
      requires forall id :: id in a.order <==> id in a.turns
      ensures refusal == FirstContradiction(View(), thread, a, a.order)
      ensures refusal.None? ==> kept == Acknowledged(thread, a, sendAttempts)
    {
      kept, refusal := sendAttempts, None;
      var i := 0;
      while i < |a.order|
        invariant 0 <= i <= |a.order|
        invariant kept == Without(thread, a.order[..i], sendAttempts)
        invariant FirstContradiction(View(), thread, a, a.order) == FirstContradiction(View(), thread, a, a.order[i..])
      {
        var id := a.order[i];
        var k := Identity(thread, id);
        ContradictionAt(View(), thread, a, i);
        WithoutNext(thread, a.order, i, sendAttempts);
        if k in sendAttempts {
          var attempt := sendAttempts[k];
          if id !in a.digests || attempt.binding.digest != a.digests[id] { return kept, Some(IdentityChanged); }
          if attempt.state.Accepted? && attempt.turn != a.turns[id] { return kept, Some(AcceptedByAnotherTurn); }
        }
        kept := kept - {k};
        i := i + 1;
      }
      assert a.order[..i] == a.order;
    }

    method AcknowledgeSends(thread: string, a: Acknowledgement, w: WriteOutcome) returns (out: Outcome)
      requires View() == stored && forall id :: id in a.order <==> id in a.turns
      modifies this
      ensures Settled(AcknowledgePlan(old(stored), thread, a), w, out)
    {
      var kept, refusal := DropAcknowledged(thread, a);
      if refusal.Some? { return Failed(refusal.value); }
      if kept == sendAttempts { return Done; }
      var removed := sendAttempts;
      sendAttempts := kept;
      var ok := Write(w);
      if !ok {
        sendAttempts := removed;
        return Failed(WriteFailed);
      }
      return Done;
    }

    method ClearConversationAttempts(thread: string, directory: string, w: WriteOutcome) returns (out: Outcome)
      requires View() == stored
      modifies this
      ensures Settled(ClearConversationPlan(old(stored), thread, directory), w, out)
      ensures out == Failed(OperationBoundToAnother) <==>
              directory in old(stored).operations && old(stored).operations[directory] != thread
    {
      if directory in operations && operations[directory] != thread { return Failed(OperationBoundToAnother); }
      var before := View();
      queueAttempts, sendAttempts := ForgetThread(thread, queueAttempts), ForgetThread(thread, sendAttempts);
      queueDeletions, operations := ForgetThread(thread, queueDeletions), operations - {directory};
      if View() == before { return Done; }
      var ok := Write(w);
      if !ok {
        queueAttempts, sendAttempts, queueDeletions := before.queued, before.sends, before.deletions;
        operations := before.operations;
        return Failed(WriteFailed);
      }
      return Done;
    }

    method ClearRetiredThreadAttempts(thread: string, w: WriteOutcome) returns (out: Outcome)
      requires View() == stored
      modifies this
      ensures Settled(ClearRetiredPlan(old(stored), thread), w, out)
    {
      var before := View();
      queueAttempts, sendAttempts := ForgetThread(thread, queueAttempts), ForgetThread(thread, sendAttempts);
      queueDeletions := ForgetThread(thread, queueDeletions);
      if View() == before { return Done; }
      var ok := Write(w);
      if !ok {
        queueAttempts, sendAttempts, queueDeletions := before.queued, before.sends, before.deletions;
        return Failed(WriteFailed);
      }
      return Done;
    }

    method RecordThreadOperationAttempt(directory: string, thread: string, w: WriteOutcome) returns (out: Outcome)
      requires View() == stored
      modifies this
      ensures Settled(RecordOperationPlan(old(stored), directory, thread), w, out)
      ensures out == Failed(OperationBoundToAnother) <==>
              directory in old(stored).operations && old(stored).operations[directory] != thread
      ensures w.Written? && directory !in old(stored).operations ==>
              out.Done? && stored.operations == old(stored).operations[directory := thread]
    {
      if directory in operations {
        if operations[directory] != thread { return Failed(OperationBoundToAnother); }
        return Done;
      }
      operations := operations[directory := thread];
      var ok := Write(w);
      if !ok {
        operations := operations - {directory};
        assert operations == old(operations);
        return Failed(WriteFailed);
      }
      return Done;
    }
  }
}
