/** A message gets through, or is known not to have been sent, when nothing is in its way
    (codex/client.go:5277-5433, codex/send_delivery.go:27-78, codex/continuation.go:57-119). */
module DeliveryProgress {
  import opened Prelude
  import opened SubmissionRecords
  import opened Delivery
  import opened DeliveryResults
  import opened RestoreClaims
  import opened DeliveryEffects

  /** The run goes on with these steps. */
  ghost predicate GoesOn(database: bool, steps: seq<Step>, next: seq<Step>, more: seq<System>, all: seq<Step>) {
    IsRun(database, more, all) && all == steps + next
  }

  /** The state that a run ends in. */
  function End(states: seq<System>): System
    requires states != []
  {
    states[|states| - 1]
  }

  lemma Extend(database: bool, states: seq<System>, steps: seq<Step>, step: Step)
    returns (more: seq<System>, all: seq<Step>)
    requires IsRun(database, states, steps) && Enabled(End(states), step)
    ensures GoesOn(database, steps, [step], more, all) && more == states + [Apply(database, End(states), step)]
  {
    more, all := states + [Apply(database, End(states), step)], steps + [step];
    forall i | 0 <= i < |all| ensures StepAt(database, more, all, i) {
      if i < |steps| { assert StepAt(database, states, steps, i); }
    }
  }

  /** The message is free: it is not queued, and has no record or may be claimed. */
  predicate Free(r: Records, m: Message) { m.identity !in r.queued && (m.identity in r.sends ==> Claimable(r, m)) }

  /** The record of the message is as the operation's claim left it. */
  predicate Claimed(database: bool, s: System, op: nat) {
    && In(s, op) && Restorable(database, s, op) && IdentityOf(s, op) !in s.records.queued
    && s.records.sends[IdentityOf(s, op)].binding == s.ops[op].message.binding
  }

  lemma Prepares(database: bool, states: seq<System>, steps: seq<Step>, op: nat)
    returns (more: seq<System>, all: seq<Step>)
    requires IsRun(database, states, steps)
    requires var s := End(states); PhaseOf(s, op).Idle? && Free(s.records, s.ops[op].message)
    ensures GoesOn(database, steps, [Record(op, Written)], more, all)
    ensures End(more).ops == End(states).ops && Claimable(End(more).records, End(states).ops[op].message)
  {
    more, all := Extend(database, states, steps, Record(op, Written));
    RecordPrepares(database, more, all, |steps|);
    assert End(more).ops == End(states).ops;
  }

  lemma Admits(database: bool, states: seq<System>, steps: seq<Step>, op: nat)
    returns (more: seq<System>, all: seq<Step>)
    requires IsRun(database, states, steps)
    requires var s := End(states); PhaseOf(s, op).Idle? && Free(s.records, s.ops[op].message)
    ensures GoesOn(database, steps, [Record(op, Written), Claim(op, Written)], more, all)
    ensures Claimed(database, End(more), op) && PhaseOf(End(more), op).Admitted?
    ensures End(more).ops[op].message == End(states).ops[op].message
  {
    more, all := Prepares(database, states, steps, op);
    ghost var n := |all|;
    more, all := Extend(database, more, all, Claim(op, Written));
    ClaimExactlyWhen(database, more, all, n);
  }

  /** The operation still holds its claim, and is in this phase. */
  predicate StillHolds(database: bool, s: System, op: nat, m: Message, phase: Phase) {
    Claimed(database, s, op) && s.ops[op].message == m && s.ops[op].phase == phase
  }

  lemma Dispatches(database: bool, states: seq<System>, steps: seq<Step>, op: nat)
    returns (more: seq<System>, all: seq<Step>)
    requires IsRun(database, states, steps)
    requires var s := End(states); PhaseOf(s, op).Idle? && Free(s.records, s.ops[op].message)
    ensures GoesOn(database, steps, [Record(op, Written), Claim(op, Written), WriteOut(op)], more, all)
    ensures StillHolds(database, End(more), op, End(states).ops[op].message, Awaiting) && op in End(more).wire
  {
    more, all := Admits(database, states, steps, op);
    more, all := Extend(database, more, all, WriteOut(op));
  }

  lemma LearnsReply(database: bool, states: seq<System>, steps: seq<Step>, op: nat, turn: string)
    returns (more: seq<System>, all: seq<Step>)
    requires IsRun(database, states, steps) && turn != "" && op in End(states).wire && In(End(states), op)
    requires StillHolds(database, End(states), op, End(states).ops[op].message, Awaiting)
    ensures GoesOn(database, steps, [Accept(op, turn, Some(AcceptedReply(turn))), Receive(op)], more, all)
    ensures StillHolds(database, End(more), op, End(states).ops[op].message, Proved(turn))
  {
    more, all := Extend(database, states, steps, Accept(op, turn, Some(AcceptedReply(turn))));
    more, all := Extend(database, more, all, Receive(op));
  }

  lemma LosesReply(database: bool, states: seq<System>, steps: seq<Step>, op: nat, turn: string)
    returns (more: seq<System>, all: seq<Step>)
    requires IsRun(database, states, steps) && turn != "" && op in End(states).wire && In(End(states), op)
    requires StillHolds(database, End(states), op, End(states).ops[op].message, Awaiting)
    ensures GoesOn(database, steps, [Accept(op, turn, None), GiveUp(op)], more, all)
    ensures StillHolds(database, End(more), op, End(states).ops[op].message, Unsure)
    ensures Seen(End(more), IdentityOf(End(states), op), turn)
  {
    more, all := Extend(database, states, steps, Accept(op, turn, None));
    more, all := Extend(database, more, all, GiveUp(op));
    assert In(End(more), op) && op in End(more).turns && End(more).turns[op] == turn;
  }

  lemma LearnsFromHistory(database: bool, states: seq<System>, steps: seq<Step>, op: nat, turn: string)
    returns (more: seq<System>, all: seq<Step>)
    requires IsRun(database, states, steps) && turn != "" && In(End(states), op)
    requires StillHolds(database, End(states), op, End(states).ops[op].message, Unsure)
    requires Seen(End(states), IdentityOf(End(states), op), turn)
    ensures GoesOn(database, steps, [ReadHistory(op, turn)], more, all)
    ensures StillHolds(database, End(more), op, End(states).ops[op].message, Proved(turn))
  {
    more, all := Extend(database, states, steps, ReadHistory(op, turn));
  }

  lemma LearnsRefusal(database: bool, states: seq<System>, steps: seq<Step>, op: nat)
    returns (more: seq<System>, all: seq<Step>)
    requires IsRun(database, states, steps) && op in End(states).wire && In(End(states), op)
    requires StillHolds(database, End(states), op, End(states).ops[op].message, Awaiting)
    ensures GoesOn(database, steps, [Step.Refuse(op), Receive(op)], more, all)
    ensures StillHolds(database, End(more), op, End(states).ops[op].message, Undispatched)
  {
    more, all := Extend(database, states, steps, Step.Refuse(op));
    more, all := Extend(database, more, all, Receive(op));
  }

  /** A message that is free and that the server accepts is delivered: its operation answers with the turn,
      and the record names it. */
  lemma SendIsDelivered(database: bool, states: seq<System>, steps: seq<Step>, op: nat, turn: string)
    returns (more: seq<System>, all: seq<Step>)
    requires IsRun(database, states, steps) && turn != ""
    requires var s := End(states); PhaseOf(s, op).Idle? && Free(s.records, s.ops[op].message)
    ensures GoesOn(database, steps, [Record(op, Written), Claim(op, Written), WriteOut(op),
              Accept(op, turn, Some(AcceptedReply(turn))), Receive(op), MarkAccepted(op, Written)], more, all)
    ensures PhaseOf(End(more), op) == Returned(Sent(turn)) && Recorded(End(states), End(more), op, turn)
  {
    more, all := Dispatches(database, states, steps, op);
    more, all := LearnsReply(database, more, all, op, turn);
    more, all := MarksAccepted(database, more, all, op, turn);
  }

  /** The record of the message says that this turn accepted it. */
  predicate Recorded(s: System, t: System, op: nat, turn: string) {
    && In(s, op) && IdentityOf(s, op) in t.records.sends
    && var a := t.records.sends[IdentityOf(s, op)];
       a.state == Accepted && a.turn == turn && a.binding == s.ops[op].message.binding
  }

  lemma MarksAccepted(database: bool, states: seq<System>, steps: seq<Step>, op: nat, turn: string)
    returns (more: seq<System>, all: seq<Step>)
    requires IsRun(database, states, steps) && turn != ""
    requires Claimed(database, End(states), op) && PhaseOf(End(states), op) == Proved(turn)
    ensures GoesOn(database, steps, [MarkAccepted(op, Written)], more, all)
    ensures PhaseOf(End(more), op) == Returned(Sent(turn)) && Recorded(End(states), End(more), op, turn)
  {
    more, all := Extend(database, states, steps, MarkAccepted(op, Written));
    AcceptExactlyWhen(database, more, all, |steps|);
  }

  /** When the reply is lost, history shows the message, and its operation answers with the turn all the same. */
  lemma LostReplyIsFound(database: bool, states: seq<System>, steps: seq<Step>, op: nat, turn: string)
    returns (more: seq<System>, all: seq<Step>)
    requires IsRun(database, states, steps) && turn != ""
    requires var s := End(states); PhaseOf(s, op).Idle? && Free(s.records, s.ops[op].message)
    ensures GoesOn(database, steps, [Record(op, Written), Claim(op, Written), WriteOut(op), Accept(op, turn, None),
              GiveUp(op), ReadHistory(op, turn), MarkAccepted(op, Written)], more, all)
    ensures PhaseOf(End(more), op) == Returned(Sent(turn)) && Recorded(End(states), End(more), op, turn)
  {
    more, all := Dispatches(database, states, steps, op);
    more, all := LosesReply(database, more, all, op, turn);
    more, all := LearnsFromHistory(database, more, all, op, turn);
    more, all := MarksAccepted(database, more, all, op, turn);
  }

  /** An operation that knows that its message was not accepted answers so, and leaves it free to be sent again. */
  lemma UndoesClaim(database: bool, states: seq<System>, steps: seq<Step>, op: nat)
    returns (more: seq<System>, all: seq<Step>)
    requires IsRun(database, states, steps)
    requires Claimed(database, End(states), op) && PhaseOf(End(states), op).Undispatched?
    ensures GoesOn(database, steps, [Restore(op, Written), Conclude(op, false)], more, all)
    ensures PhaseOf(End(more), op) == Returned(NotSent)
    ensures Claimable(End(more).records, End(states).ops[op].message)
  {
    more, all := Extend(database, states, steps, Restore(op, Written));
    RestoreExactlyWhen(database, more, all, |steps|);
    ghost var n := |all|;
    more, all := Extend(database, more, all, Conclude(op, false));
    ConcludeExactlyWhen(database, more, all, n);
  }

  lemma RefusalIsNotSent(database: bool, states: seq<System>, steps: seq<Step>, op: nat)
    returns (more: seq<System>, all: seq<Step>)
    requires IsRun(database, states, steps)
    requires var s := End(states); PhaseOf(s, op).Idle? && Free(s.records, s.ops[op].message)
    ensures GoesOn(database, steps, [Record(op, Written), Claim(op, Written), WriteOut(op), Step.Refuse(op),
              Receive(op),
              Restore(op, Written), Conclude(op, false)], more, all)
    ensures PhaseOf(End(more), op) == Returned(NotSent) && Claimable(End(more).records, End(states).ops[op].message)
  {
    more, all := Dispatches(database, states, steps, op);
    more, all := LearnsRefusal(database, more, all, op);
    more, all := UndoesClaim(database, more, all, op);
  }

  lemma UnwrittenIsNotSent(database: bool, states: seq<System>, steps: seq<Step>, op: nat)
    returns (more: seq<System>, all: seq<Step>)
    requires IsRun(database, states, steps)
    requires var s := End(states); PhaseOf(s, op).Idle? && Free(s.records, s.ops[op].message)
    ensures GoesOn(database, steps, [Record(op, Written), Claim(op, Written), Unwritten(op), Restore(op, Written),
              Conclude(op, false)], more, all)
    ensures PhaseOf(End(more), op) == Returned(NotSent) && Claimable(End(more).records, End(states).ops[op].message)
  {
    more, all := Admits(database, states, steps, op);
    more, all := Extend(database, more, all, Unwritten(op));
    more, all := UndoesClaim(database, more, all, op);
  }

  /** In the database, and in the legacy ledger while nobody claimed the message since, a restore that goes
      through lets its operation answer that the message was not sent. */
  lemma RestoredIsNotSent(database: bool, states: seq<System>, steps: seq<Step>, op: nat)
    returns (more: seq<System>, all: seq<Step>)
    requires IsRun(database, states, steps) && PhaseOf(End(states), op).Undispatched?
    requires Restorable(database, End(states), op)
    requires database || IdentityOf(End(states), op) !in End(states).forgotten
    ensures GoesOn(database, steps, [Restore(op, Written), Conclude(op, false)], more, all)
    ensures PhaseOf(End(more), op) == Returned(NotSent)
  {
    RunInvariant(database, states, steps, |steps|);
    BoundByClaim(database, states, steps, op);
    more, all := UndoesClaim(database, states, steps, op);
  }

  /** A record that is submitting for an operation binds its message. */
  lemma BoundByClaim(database: bool, states: seq<System>, steps: seq<Step>, op: nat)
    requires IsRun(database, states, steps) && PhaseOf(End(states), op).Undispatched?
    requires Restorable(database, End(states), op)
    requires database || IdentityOf(End(states), op) !in End(states).forgotten
    ensures Claimed(database, End(states), op)
  {
    RunInvariant(database, states, steps, |steps|);
    if database { BoundInDatabase(states, steps, op); }
  }

  lemma BoundInDatabase(states: seq<System>, steps: seq<Step>, op: nat)
    requires IsRun(true, states, steps) && PhaseOf(End(states), op).Undispatched? && Restorable(true, End(states), op)
    ensures End(states).records.sends[IdentityOf(End(states), op)].binding == End(states).ops[op].message.binding
  {
    var n, k := |steps|, IdentityOf(End(states), op);
    var c := OwnClaim(true, states, steps, n, op);
    OperationInRun(true, states, steps, c, n, op);
    forall i | c + 1 <= i < n ensures !Claims(states, steps, i, k) {
      if Claims(states, steps, i, k) { AnotherToken(states, steps, c, i, n, op, k); }
    }
    ThroughoutExactlyWhen(states, steps, c + 1, n, k);
    BindingIsStable(true, states, steps, c + 1, n, k);
    ClaimExactlyWhen(true, states, steps, c);
  }
}
