/** Which claim a restore undoes (codex/send_delivery.go:63-78), in the legacy ledger and in the database. */
module RestoreClaims {
  import opened Prelude
  import opened SubmissionRecords
  import opened Delivery
  import opened DeliverySteps
  import opened DeliveryResults

  predicate Submitting(r: Records, k: Identity) { k in r.sends && r.sends[k].state.Submitting? }

  /** The i-th step makes a message submitting. */
  predicate Claims(states: seq<System>, steps: seq<Step>, i: nat, k: Identity) {
    i < |steps| && i + 1 < |states| && !Submitting(states[i].records, k) && Submitting(states[i + 1].records, k)
  }

  // ---------------------------------------------------------------------------------------------
  // One step

  lemma ClearingPlanKeeps(database: bool, s: System, step: Step, k: Identity)
    requires Clearing(step)
    ensures var plan := PlanOf(database, s, step);
            plan.Change? && k in plan.next.sends ==> k in s.records.sends && plan.next.sends[k] == s.records.sends[k]
  {
  }

  /** Only the plan of a claim makes its message submitting, with its token. */
  lemma PlanClaims(database: bool, s: System, step: Step, k: Identity)
    requires Enabled(s, step) && WritesLedger(step)
    ensures var plan := PlanOf(database, s, step);
            plan.Change? && Submitting(plan.next, k) ==>
              if Submitting(s.records, k) then plan.next.sends[k].admission == s.records.sends[k].admission
              else step.Claim? && IdentityOf(s, step.op) == k && plan.next.sends[k].admission == s.ops[step.op].claim
  {
    if Clearing(step) { ClearingPlanKeeps(database, s, step, k); }
  }

  lemma RecordsAfter(database: bool, s: System, step: Step)
    requires Enabled(s, step)
    ensures Apply(database, s, step).records == Settled(database, s, step).0
  {
  }

  /** Only a claim of the message makes it submitting, and the database then stores its token. */
  lemma OnlyClaims(database: bool, s: System, step: Step, k: Identity)
    requires Enabled(s, step) && !Submitting(s.records, k) && Submitting(Apply(database, s, step).records, k)
    ensures step.Claim? && IdentityOf(s, step.op) == k
    ensures database ==> Apply(database, s, step).records.sends[k].admission == s.ops[step.op].claim
  {
    RecordsAfter(database, s, step);
    if WritesLedger(step) { PlanClaims(database, s, step, k); }
  }

  lemma AdmissionStays(s: System, step: Step, k: Identity)
    requires Enabled(s, step) && Submitting(s.records, k) && Submitting(Apply(true, s, step).records, k)
    ensures Apply(true, s, step).records.sends[k].admission == s.records.sends[k].admission
  {
    RecordsAfter(true, s, step);
    if WritesLedger(step) { PlanClaims(true, s, step, k); }
  }

  lemma NeverIdleAgain(database: bool, s: System, step: Step)
    requires Enabled(s, step) && OwnStep(step) && !PhaseOf(s, step.op).Idle?
    ensures !NextPhase(database, s, step).Idle?
  {
  }

  /** An operation keeps its message and its token, and leaves the idle phase for good. */
  lemma OperationStays(database: bool, s: System, step: Step, op: nat)
    requires Enabled(s, step) && In(s, op)
    ensures var s' := Apply(database, s, step);
            && In(s', op) && s'.ops[op].message == s.ops[op].message && s'.ops[op].claim == s.ops[op].claim
            && (!s.ops[op].phase.Idle? ==> !s'.ops[op].phase.Idle?)
  {
    if OwnStep(step) && step.op == op && !s.ops[op].phase.Idle? { NeverIdleAgain(database, s, step); }
  }

  /** An operation comes to hold a claim only by making its message submitting. */
  lemma HoldsByClaim(database: bool, s: System, step: Step, op: nat)
    requires Inv(s) && Enabled(s, step) && !HoldsClaim(PhaseOf(s, op))
    requires HoldsClaim(PhaseOf(Apply(database, s, step), op))
    ensures step == Claim(op, Written) && In(s, op) && !PhaseOf(Apply(database, s, step), op).Idle?
    ensures !Submitting(s.records, IdentityOf(s, op))
    ensures Submitting(Apply(database, s, step).records, IdentityOf(s, op))
  {
    if OwnStep(step) { NextPhaseFacts(database, s, step); }
  }

  // ---------------------------------------------------------------------------------------------
  // Runs

  lemma {:induction false} OperationInRun(
    database: bool, states: seq<System>, steps: seq<Step>, m: nat, n: nat, op: nat)
    requires IsRun(database, states, steps) && m <= n < |states| && In(states[m], op)
    ensures In(states[n], op) && states[n].ops[op].message == states[m].ops[op].message
    ensures states[n].ops[op].claim == states[m].ops[op].claim
    ensures !states[m].ops[op].phase.Idle? ==> !states[n].ops[op].phase.Idle?
  {
    if m < n {
      OperationInRun(database, states, steps, m, n - 1, op);
      assert StepAt(database, states, steps, n - 1);
      OperationStays(database, states[n - 1], steps[n - 1], op);
    }
  }

  /** The step at which an operation made its message submitting. */
  predicate ClaimedAt(states: seq<System>, steps: seq<Step>, c: nat, op: nat) {
    && c < |steps| && c + 1 < |states| && steps[c] == Claim(op, Written) && In(states[c], op) && In(states[c + 1], op)
    && !PhaseOf(states[c + 1], op).Idle? && Claims(states, steps, c, IdentityOf(states[c], op))
  }

  lemma ClaimedNow(database: bool, states: seq<System>, steps: seq<Step>, c: nat, op: nat)
    requires IsRun(database, states, steps) && c < |steps|
    requires !HoldsClaim(PhaseOf(states[c], op)) && HoldsClaim(PhaseOf(states[c + 1], op))
    ensures ClaimedAt(states, steps, c, op)
  {
    assert StepAt(database, states, steps, c);
    RunInvariant(database, states, steps, c);
    HoldsByClaim(database, states[c], steps[c], op);
  }

  lemma {:induction false} OwnClaim(database: bool, states: seq<System>, steps: seq<Step>, n: nat, op: nat)
    returns (c: nat)
    requires IsRun(database, states, steps) && n < |states| && HoldsClaim(PhaseOf(states[n], op))
    ensures c < n && ClaimedAt(states, steps, c, op)
  {
    if n > 0 && HoldsClaim(PhaseOf(states[n - 1], op)) {
      c := OwnClaim(database, states, steps, n - 1, op);
    } else {
      c := n - 1;
      ClaimedNow(database, states, steps, c, op);
    }
  }

  /** Between two moments at which a message is submitting, it is so throughout exactly when it is not claimed again. */
  lemma {:induction false} ThroughoutExactlyWhen(states: seq<System>, steps: seq<Step>, m: nat, n: nat, k: Identity)
    requires |states| == |steps| + 1 && m <= n < |states|
    requires Submitting(states[m].records, k) && Submitting(states[n].records, k)
    ensures (forall i :: m <= i < n ==> !Claims(states, steps, i, k)) <==>
            forall i :: m <= i <= n ==> Submitting(states[i].records, k)
    decreases n - m
  {
    if m < n {
      if Submitting(states[n - 1].records, k) {
        ThroughoutExactlyWhen(states, steps, m, n - 1, k);
      } else {
        assert Claims(states, steps, n - 1, k);
      }
    }
  }

  /** The token that the database holds for a submitting message is that of the last operation to claim it. */
  lemma {:induction false} TokenOfLastClaim(
    states: seq<System>, steps: seq<Step>, i: nat, n: nat, k: Identity) returns (last: nat)
    requires IsRun(true, states, steps) && i < n < |states| && Claims(states, steps, i, k)
    requires Submitting(states[n].records, k)
    ensures i <= last < n && Claims(states, steps, last, k) && steps[last].Claim? && In(states[last], steps[last].op)
    ensures states[n].records.sends[k].admission == states[last].ops[steps[last].op].claim
    decreases n - i
  {
    assert StepAt(true, states, steps, n - 1);
    if Submitting(states[n - 1].records, k) {
      last := TokenOfLastClaim(states, steps, i, n - 1, k);
      AdmissionStays(states[n - 1], steps[n - 1], k);
    } else {
      last := n - 1;
      OnlyClaims(true, states[n - 1], steps[n - 1], k);
    }
  }

  /** In the database, a claim since would show in the token. */
  lemma AnotherToken(states: seq<System>, steps: seq<Step>, c: nat, i: nat, n: nat, op: nat, k: Identity)
    requires IsRun(true, states, steps) && c < i < n < |states| && Claims(states, steps, i, k)
    requires ClaimedAt(states, steps, c, op) && Submitting(states[n].records, k)
    ensures In(states[n], op) && states[n].records.sends[k].admission != states[n].ops[op].claim
  {
    var last := TokenOfLastClaim(states, steps, i, n, k);
    assert StepAt(true, states, steps, last);
    OperationInRun(true, states, steps, c + 1, last, op);
    OperationInRun(true, states, steps, last, n, op);
    OperationInRun(true, states, steps, last, n, steps[last].op);
    RunInvariant(true, states, steps, n);
  }

  /** A claim since is another operation's. */
  predicate ForeignClaim(states: seq<System>, steps: seq<Step>, i: nat, op: nat, k: Identity) {
    && i < |steps| && i < |states| && steps[i].Claim? && steps[i].op != op
    && In(states[i], steps[i].op) && IdentityOf(states[i], steps[i].op) == k
  }

  lemma LaterClaims(database: bool, states: seq<System>, steps: seq<Step>, c: nat, i: nat, op: nat, k: Identity)
    requires IsRun(database, states, steps) && c < i < |steps| && Claims(states, steps, i, k)
    requires ClaimedAt(states, steps, c, op)
    ensures ForeignClaim(states, steps, i, op, k)
  {
    assert StepAt(database, states, steps, i);
    OnlyClaims(database, states[i], steps[i], k);
    OperationInRun(database, states, steps, c + 1, i, op);
  }

  lemma RestoreNeeds(database: bool, s: System, step: Step)
    requires Enabled(s, step) && step.Restore? && Apply(database, s, step).records.sends != s.records.sends
    ensures In(s, step.op) && HoldsClaim(PhaseOf(s, step.op)) && Submitting(s.records, IdentityOf(s, step.op))
    ensures database && s.ops[step.op].claim != "" ==>
              s.records.sends[IdentityOf(s, step.op)].admission == s.ops[step.op].claim
  {
  }

  lemma NotClaimedInDatabase(states: seq<System>, steps: seq<Step>, c: nat, i: nat, n: nat)
    requires IsRun(true, states, steps) && c < i < n < |steps| && steps[n].Restore? && In(states[n], steps[n].op)
    requires states[n + 1].records.sends != states[n].records.sends && ClaimedAt(states, steps, c, steps[n].op)
    ensures !Claims(states, steps, i, IdentityOf(states[n], steps[n].op))
  {
    var k := IdentityOf(states[n], steps[n].op);
    assert StepAt(true, states, steps, n);
    RestoreNeeds(true, states[n], steps[n]);
    RunInvariant(true, states, steps, n);
    if Claims(states, steps, i, k) { AnotherToken(states, steps, c, i, n, steps[n].op, k); }
  }

  /** A restore that changes anything follows a claim of its own operation.  It undoes that claim if and only if nobody
      claimed the message since, that is, if and only if the message was submitting all along; any claim since is
      another operation's.  In the database there is none. */
  lemma RestoreUndoesOwnClaimExactlyWhen(database: bool, states: seq<System>, steps: seq<Step>, n: nat) returns (c: nat)
    requires IsRun(database, states, steps) && n < |steps| && steps[n].Restore? && In(states[n], steps[n].op)
    requires states[n + 1].records.sends != states[n].records.sends
    ensures c < n && ClaimedAt(states, steps, c, steps[n].op)
    ensures var k := IdentityOf(states[n], steps[n].op);
            && IdentityOf(states[c], steps[n].op) == k
            && ((forall i :: c < i < n ==> !Claims(states, steps, i, k)) <==>
                forall i :: c < i <= n ==> Submitting(states[i].records, k))
            && (forall i :: c < i < n && Claims(states, steps, i, k) ==>
                  ForeignClaim(states, steps, i, steps[n].op, k))
            && (database ==> forall i :: c < i < n ==> !Claims(states, steps, i, k))
  {
    var op := steps[n].op;
    var k := IdentityOf(states[n], op);
    assert StepAt(database, states, steps, n);
    RestoreNeeds(database, states[n], steps[n]);
    c := OwnClaim(database, states, steps, n, op);
    OperationInRun(database, states, steps, c, n, op);
    ThroughoutExactlyWhen(states, steps, c + 1, n, k);
    forall i | c < i < n && Claims(states, steps, i, k)
      ensures !database && ForeignClaim(states, steps, i, op, k)
    {
      LaterClaims(database, states, steps, c, i, op, k);
      if database { NotClaimedInDatabase(states, steps, c, i, n); }
    }
  }
}
