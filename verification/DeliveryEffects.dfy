/** What every transaction of the delivery protocol does, exactly, when its write goes through
    (codex/client.go:2749-3214, 3399-3514, codex/send_delivery.go:27-78). */
module DeliveryEffects {
  import opened Prelude
  import opened SubmissionRecords
  import opened Delivery
  import opened DeliverySteps
  import opened DeliveryResults
  import opened RestoreClaims

  // ---------------------------------------------------------------------------------------------
  // The legacy ledger holds no tokens

  predicate NoTokens(r: Records) { forall k :: k in r.sends ==> r.sends[k].admission == "" }

  lemma {:induction false} LegacyHoldsNoTokens(states: seq<System>, steps: seq<Step>, n: nat)
    requires IsRun(false, states, steps) && n < |states|
    ensures NoTokens(states[n].records)
  {
    if n > 0 {
      LegacyHoldsNoTokens(states, steps, n - 1);
      assert StepAt(false, states, steps, n - 1);
      RecordsAfter(false, states[n - 1], steps[n - 1]);
    }
  }

  /** What a ledger keeps of a token. */
  function Kept(database: bool, token: string): string { if database then token else "" }

  // ---------------------------------------------------------------------------------------------
  // What a step does to the record of its message, and to no other

  /** The records are as they were, but for the record of one message. */
  predicate OnlyRecord(r: Records, r': Records, k: Identity, a: SendAttempt) {
    r' == r.(sends := r.sends[k := a])
  }

  lemma SavedRecord(database: bool, r: Records, k: Identity, a: SendAttempt)
    requires database || NoTokens(r)
    ensures OnlyRecord(r, Persisted(database, r.(sends := r.sends[k := a])), k,
              a.(admission := Kept(database, a.admission)))
  {
    if !database {
      var saved := Persisted(false, r.(sends := r.sends[k := a]));
      assert saved.sends == r.sends[k := a.(admission := "")];
    }
  }

  lemma NoTokensIn(database: bool, states: seq<System>, steps: seq<Step>, n: nat)
    requires IsRun(database, states, steps) && n < |states|
    ensures database || NoTokens(states[n].records)
  {
    if !database { LegacyHoldsNoTokens(states, steps, n); }
  }

  /** The message may be claimed: it is recorded as this very action, prepared and not queued. */
  predicate Claimable(r: Records, m: Message) {
    && m.identity in r.sends && m.identity !in r.queued
    && r.sends[m.identity].state == Prepared && r.sends[m.identity].binding == m.binding
  }

  /** Recording prepares a message that has no record, and is no change otherwise. */
  lemma RecordPrepares(database: bool, states: seq<System>, steps: seq<Step>, n: nat)
    requires IsRun(database, states, steps) && n < |steps| && steps[n].Record? && steps[n].w.Written?
    ensures var s, s', op := states[n], states[n + 1], steps[n].op;
            && In(s, op) && PhaseOf(s', op) == Idle
            && var Message(k, b) := s.ops[op].message;
               if k in s.records.sends then s'.records == s.records
               else OnlyRecord(s.records, s'.records, k, SendAttempt(b, Prepared, "", ""))
  {
    assert StepAt(database, states, steps, n);
    NoTokensIn(database, states, steps, n);
    RecordsAfter(database, states[n], steps[n]);
    var m := states[n].ops[steps[n].op].message;
    SavedRecord(database, states[n].records, m.identity, SendAttempt(m.binding, Prepared, "", ""));
  }

  /** A claim goes through exactly for a message that may be claimed; it marks the record, with its token in the
      database, and nothing else. */
  lemma ClaimExactlyWhen(database: bool, states: seq<System>, steps: seq<Step>, n: nat)
    requires IsRun(database, states, steps) && n < |steps| && steps[n].Claim? && steps[n].w.Written?
    ensures var s, s', op := states[n], states[n + 1], steps[n].op;
            && In(s, op)
            && var Operation(m, claim, _) := s.ops[op];
               if Claimable(s.records, m) then
                 && PhaseOf(s', op) == Admitted
                 && OnlyRecord(s.records, s'.records, m.identity,
                      SendAttempt(m.binding, Submitting, s.records.sends[m.identity].turn, Kept(database, claim)))
               else s'.records == s.records && PhaseOf(s', op) == Unsure
  {
    assert StepAt(database, states, steps, n);
    NoTokensIn(database, states, steps, n);
    RecordsAfter(database, states[n], steps[n]);
    var r, o := states[n].records, states[n].ops[steps[n].op];
    var k := o.message.identity;
    if k in r.sends { SavedRecord(database, r, k, r.sends[k].(state := Submitting, admission := o.claim)); }
  }

  /** The record of the message is submitting and, in the database, with the operation's own token. */
  predicate Restorable(database: bool, s: System, op: nat)
    requires In(s, op)
  {
    && IdentityOf(s, op) in s.records.sends && s.records.sends[IdentityOf(s, op)].state == Submitting
    && (database ==> s.records.sends[IdentityOf(s, op)].admission == s.ops[op].claim)
  }

  /** A restore makes the record prepared again, without a token and otherwise as it was, exactly when it is submitting
      and, in the database, holds the operation's own token; it changes nothing else. */
  lemma RestoreExactlyWhen(database: bool, states: seq<System>, steps: seq<Step>, n: nat)
    requires IsRun(database, states, steps) && n < |steps| && steps[n].Restore? && steps[n].w.Written?
    ensures var s, s', op := states[n], states[n + 1], steps[n].op;
            && In(s, op) && PhaseOf(s', op) == Unsure
            && (s'.records != s.records <==> Restorable(database, s, op))
            && var k := IdentityOf(s, op);
               (Restorable(database, s, op) ==>
                  OnlyRecord(s.records, s'.records, k,
                    SendAttempt(s.records.sends[k].binding, Prepared, s.records.sends[k].turn, "")))
  {
    assert StepAt(database, states, steps, n);
    NoTokensIn(database, states, steps, n);
    RunInvariant(database, states, steps, n);
    RecordsAfter(database, states[n], steps[n]);
    var r, k := states[n].records, IdentityOf(states[n], steps[n].op);
    if k in r.sends { SavedRecord(database, r, k, r.sends[k].(state := Prepared, admission := "")); }
  }

  /** A receipt for a turn is recorded exactly for the action that it accepts, and never over another turn. */
  lemma AcceptExactlyWhen(database: bool, states: seq<System>, steps: seq<Step>, n: nat)
    requires IsRun(database, states, steps) && n < |steps| && steps[n].MarkAccepted? && steps[n].w.Written?
    ensures var s, s', op := states[n], states[n + 1], steps[n].op;
            && In(s, op) && s.ops[op].phase.Proved?
            && var Operation(Message(k, b), _, Proved(turn)) := s.ops[op];
               var known := k in s.records.sends && s.records.sends[k].binding.steered == b.steered && turn != "";
               if known && s.records.sends[k].state == Submitting then
                 && PhaseOf(s', op) == Returned(Sent(turn))
                 && OnlyRecord(s.records, s'.records, k, s.records.sends[k].(state := Accepted, turn := turn))
               else
                 && s'.records == s.records
                 && PhaseOf(s', op) == Returned(
                      if known && s.records.sends[k].state == Accepted && s.records.sends[k].turn == turn
                      then Sent(turn) else Unknown)
  {
    assert StepAt(database, states, steps, n);
    NoTokensIn(database, states, steps, n);
    RecordsAfter(database, states[n], steps[n]);
    var r, k := states[n].records, IdentityOf(states[n], steps[n].op);
    var turn := states[n].ops[steps[n].op].phase.turn;
    if k in r.sends { SavedRecord(database, r, k, r.sends[k].(state := Accepted, turn := turn)); }
  }

  /** A message that history shows is recorded as accepted, unless its record binds another action or names another
      turn. */
  lemma ReceiptExactlyWhen(database: bool, states: seq<System>, steps: seq<Step>, n: nat)
    requires IsRun(database, states, steps) && n < |steps| && steps[n].RecordReceipt? && steps[n].w.Written?
    ensures var s, s', op := states[n], states[n + 1], steps[n].op;
            && In(s, op) && s.ops[op].phase.Proved?
            && var Operation(Message(k, b), _, Proved(turn)) := s.ops[op];
               var sends := s.records.sends;
               if turn == "" || (k in sends && sends[k].binding != b) then
                 s'.records == s.records && PhaseOf(s', op) == Returned(Unknown)
               else if k in sends && sends[k].state == Accepted then
                 && s'.records == s.records
                 && PhaseOf(s', op) == Returned(if sends[k].turn == turn then Sent(turn) else Unknown)
               else
                 && PhaseOf(s', op) == Returned(Sent(turn))
                 && OnlyRecord(s.records, s'.records, k, SendAttempt(b, Accepted, turn, ""))
  {
    assert StepAt(database, states, steps, n);
    NoTokensIn(database, states, steps, n);
    RecordsAfter(database, states[n], steps[n]);
    var m, turn := states[n].ops[steps[n].op].message, states[n].ops[steps[n].op].phase.turn;
    SavedRecord(database, states[n].records, m.identity, SendAttempt(m.binding, Accepted, turn, ""));
  }

  /** The same text, context and options; how it was sent does not matter. */
  predicate SameAction(a: Binding, b: Binding) {
    a.digest == b.digest && a.context == b.context && a.options == b.options
  }

  /** What an operation answers without evidence of its own is what one look at the ledger proves. */
  lemma ConcludeExactlyWhen(database: bool, states: seq<System>, steps: seq<Step>, n: nat)
    requires IsRun(database, states, steps) && n < |steps| && steps[n].Conclude?
    ensures var s, s', op := states[n], states[n + 1], steps[n].op;
            && In(s, op) && s'.records == s.records
            && var Message(k, b) := s.ops[op].message;
               var sends := s.records.sends;
               var own := k in sends && SameAction(sends[k].binding, b) && k !in s.records.queued;
               PhaseOf(s', op) == Returned(
                 if own && sends[k].state == Prepared then NotSent
                 else if own && sends[k].state == Accepted then Sent(sends[k].turn)
                 else if k !in sends && k !in s.records.queued && steps[n].allowAbsent then NotSent
                 else Unknown)
  {
    assert StepAt(database, states, steps, n);
  }

  lemma SavedQueue(database: bool, r: Records, queued: map<Identity, string>)
    requires database || NoTokens(r)
    ensures Persisted(database, r.(queued := queued)) == r.(queued := queued)
  {
    if !database { assert Persisted(false, r.(queued := queued)).sends == r.sends; }
  }

  /** A message is recorded as queued exactly when it was never submitted otherwise, and what is queued is its text. */
  lemma QueueExactlyWhen(database: bool, states: seq<System>, steps: seq<Step>, n: nat)
    requires IsRun(database, states, steps) && n < |steps| && steps[n].RecordQueue? && steps[n].w.Written?
    ensures var s, s', op := states[n], states[n + 1], steps[n].op;
            && In(s, op)
            && var Message(k, b) := s.ops[op].message;
               var r := s.records;
               if k in r.queued then
                 s'.records == r && PhaseOf(s', op) == if r.queued[k] == b.digest then QueueReady else Returned(Unknown)
               else if k in r.sends && !(r.sends[k].state == Prepared && !r.sends[k].binding.steered
                                         && r.sends[k].binding.digest == b.digest) then
                 s'.records == r && PhaseOf(s', op) == Returned(Unknown)
               else
                 s'.records == r.(queued := r.queued[k := b.digest]) && PhaseOf(s', op) == QueueReady
  {
    assert StepAt(database, states, steps, n);
    NoTokensIn(database, states, steps, n);
    RecordsAfter(database, states[n], steps[n]);
    var r, m := states[n].records, states[n].ops[steps[n].op].message;
    SavedQueue(database, r, r.queued[m.identity := m.binding.digest]);
  }

  /** A write that was lost before it became durable changed nothing; one that was lost after has the same effect as
      one that went through, and is reported as failed. */
  lemma LostWrites(database: bool, s: System, step: Step)
    requires Enabled(s, step) && WritesLedger(step) && !step.w.Written?
    ensures Enabled(s, step.(w := Written))
    ensures Apply(database, s, step).records ==
              if step.w.LostBefore? then s.records else Apply(database, s, step.(w := Written)).records
    ensures PlanOf(database, s, step).Change? ==> Settled(database, s, step).1 == Failed(WriteFailed)
  {
    RecordsAfter(database, s, step);
    RecordsAfter(database, s, step.(w := Written));
  }

  // ---------------------------------------------------------------------------------------------
  // What clearing takes, and that it takes nothing else

  /** The deletion, if one was recorded, is of this message. */
  predicate DeletionAgrees(r: Records, thread: string, queuedId: string, id: string) {
    Identity(thread, queuedId) in r.deletions ==> r.deletions[Identity(thread, queuedId)].message == id
  }

  /** The directory's marker, if there is one, is of this thread. */
  predicate MarkerAgrees(r: Records, thread: string, directory: string) {
    directory in r.operations ==> r.operations[directory] == thread
  }

  /** No record contradicts what history shows. */
  predicate HistoryAgrees(r: Records, thread: string, shown: Acknowledgement) {
    forall id :: id in shown.order && id in shown.turns && Identity(thread, id) in r.sends ==>
      var a := r.sends[Identity(thread, id)];
      && id in shown.digests && a.binding.digest == shown.digests[id]
      && (a.state == Accepted ==> a.turn == shown.turns[id])
  }

  predicate TakesSend(r: Records, step: Step, x: Identity) {
    x in r.sends &&
    match step
    case Discard(k, digest, context, options, _) =>
      && x == k && x !in r.queued && r.sends[x].state == Prepared && r.sends[x].binding.digest == digest
      && r.sends[x].binding.context == context && r.sends[x].binding.options == options
    case ClearDeletion(thread, queuedId, id, _) =>
      && x == Identity(thread, id) && DeletionAgrees(r, thread, queuedId, id)
      && x in r.queued && r.sends[x].state == Prepared && !r.sends[x].binding.steered
      && r.sends[x].binding.digest == r.queued[x]
    case Acknowledge(thread, shown, _) => x.thread == thread && x.id in shown.turns && HistoryAgrees(r, thread, shown)
    case ClearConversation(thread, directory, _) => x.thread == thread && MarkerAgrees(r, thread, directory)
    case ClearRetired(thread, _) => x.thread == thread
    case _ => false
  }

  predicate TakesQueued(r: Records, step: Step, x: Identity) {
    match step
    case ClearQueue(k, _) => x == k
    case ClearDeletion(thread, queuedId, id, _) => x == Identity(thread, id) && DeletionAgrees(r, thread, queuedId, id)
    case ClearConversation(thread, directory, _) => x.thread == thread && MarkerAgrees(r, thread, directory)
    case ClearRetired(thread, _) => x.thread == thread
    case _ => false
  }

  predicate TakesDeletion(r: Records, step: Step, x: Identity) {
    match step
    case ClearDeletion(thread, queuedId, id, _) =>
      x == Identity(thread, queuedId) && DeletionAgrees(r, thread, queuedId, id)
    case ClearConversation(thread, directory, _) => x.thread == thread && MarkerAgrees(r, thread, directory)
    case ClearRetired(thread, _) => x.thread == thread
    case _ => false
  }

  predicate TakesMarker(r: Records, step: Step, directory: string) {
    step.ClearConversation? && step.directory == directory && MarkerAgrees(r, step.thread, directory)
  }

  /** An entry is gone if it was taken, and otherwise as it was. */
  predicate Taken<K, V(==)>(before: map<K, V>, after: map<K, V>, x: K, taken: bool) {
    (x in after <==> x in before && !taken) && (x in after ==> after[x] == before[x])
  }

  lemma PlanTakes(database: bool, s: System, step: Step, x: Identity, directory: string)
    requires Clearing(step) && !step.RecordDeletion?
    ensures var r, plan := s.records, PlanOf(database, s, step);
            var r' := if plan.Change? then plan.next else r;
            && Taken(r.sends, r'.sends, x, TakesSend(r, step, x))
            && Taken(r.queued, r'.queued, x, TakesQueued(r, step, x))
            && Taken(r.deletions, r'.deletions, x, TakesDeletion(r, step, x))
            && Taken(r.operations, r'.operations, directory, TakesMarker(r, step, directory))
  {
  }

  /** Exactly what a clearing step takes, over every run: each entry is gone if the step takes it, and otherwise as it
      was. */
  lemma ClearingExactlyWhen(
    database: bool, states: seq<System>, steps: seq<Step>, n: nat, x: Identity, directory: string)
    requires IsRun(database, states, steps) && n < |steps| && Clearing(steps[n]) && !steps[n].RecordDeletion?
    requires steps[n].w.Written?
    ensures var r, r', step := states[n].records, states[n + 1].records, steps[n];
            && Taken(r.sends, r'.sends, x, TakesSend(r, step, x))
            && Taken(r.queued, r'.queued, x, TakesQueued(r, step, x))
            && Taken(r.deletions, r'.deletions, x, TakesDeletion(r, step, x))
            && Taken(r.operations, r'.operations, directory, TakesMarker(r, step, directory))
  {
    assert StepAt(database, states, steps, n);
    NoTokensIn(database, states, steps, n);
    RecordsAfter(database, states[n], steps[n]);
    PlanTakes(database, states[n], steps[n], x, directory);
  }

  /** A deletion is recorded for good: once, and never for another message or text. */
  lemma DeletionExactlyWhen(database: bool, states: seq<System>, steps: seq<Step>, n: nat)
    requires IsRun(database, states, steps) && n < |steps| && steps[n].RecordDeletion? && steps[n].w.Written?
    ensures var r, r', step := states[n].records, states[n + 1].records, steps[n];
            r' == if step.identity in r.deletions then r
                  else r.(deletions := r.deletions[step.identity := step.deletion])
  {
    assert StepAt(database, states, steps, n);
    NoTokensIn(database, states, steps, n);
    RecordsAfter(database, states[n], steps[n]);
    var r, step := states[n].records, steps[n];
    var next := r.(deletions := r.deletions[step.identity := step.deletion]);
    if !database { assert Persisted(false, next).sends == r.sends; }
  }

  /** A message whose queue attempt is recorded is handed to the native queue, and its operation knows no more
      than that. */
  lemma QueueAddHandsOver(database: bool, states: seq<System>, steps: seq<Step>, n: nat)
    requires IsRun(database, states, steps) && n < |steps| && steps[n].QueueAdd?
    ensures var s, s', op := states[n], states[n + 1], steps[n].op;
            && In(s, op) && s'.records == s.records && PhaseOf(s', op) == Returned(Unknown)
            && s'.queueSent == s.queueSent + {IdentityOf(s, op)}
            && (IdentityOf(s, op) in s.records.queued || IdentityOf(s, op) in s.queueForgotten)
  {
    assert StepAt(database, states, steps, n);
    RunInvariant(database, states, steps, n);
  }
}
