/** What holds over every run of the delivery protocol (codex/client.go, codex/send_delivery.go,
    codex/continuation.go). */
module DeliveryResults {
  import opened SubmissionRecords
  import opened Delivery
  import opened DeliverySteps

  lemma {:induction false} RunInvariant(database: bool, states: seq<System>, steps: seq<Step>, n: nat)
    requires IsRun(database, states, steps) && n < |states|
    ensures Inv(states[n])
  {
    if n > 0 {
      RunInvariant(database, states, steps, n - 1);
      assert StepAt(database, states, steps, n - 1);
      StepKeeps(database, states[n - 1], steps[n - 1]);
    }
  }

  // ---------------------------------------------------------------------------------------------
  // Main results

  /** Over every run: at most one acceptance for an identity, and it is the action its record binds. */
  lemma DeliveredAtMostOnce(database: bool, states: seq<System>, steps: seq<Step>, n: nat)
    requires IsRun(database, states, steps) && n < |states|
    ensures AtMostOnce(states[n])
  {
    RunInvariant(database, states, steps, n);
  }

  /** Whenever an operation reports that its message was not sent, nothing was ever accepted for that
      identity, nothing is on its way, and nobody may still write it; nor was it handed to the native queue or started
      from there, unless its queue record was cleared. */
  lemma NotSentIsTrue(database: bool, states: seq<System>, steps: seq<Step>, n: nat)
    requires IsRun(database, states, steps) && n < |steps| && steps[n].Conclude? && StepAt(database, states, steps, n)
    requires Concluded(states[n].records, states[n].ops[steps[n].op].message, steps[n].allowAbsent) == NotSent
    requires IdentityOf(states[n], steps[n].op) !in states[n].forgotten
    ensures NothingDispatched(states[n], IdentityOf(states[n], steps[n].op))
    ensures var s, k := states[n], IdentityOf(states[n], steps[n].op);
            k !in s.queueForgotten ==>
              && k !in s.queueSent && (forall t :: (k, t) !in s.queueTurns)
              && (forall t :: !Seen(s, k, t))
              && (forall i :: In(s, i) && IdentityOf(s, i) == k ==> !s.ops[i].phase.QueueReady?)
  {
    RunInvariant(database, states, steps, n);
    var s, k := states[n], IdentityOf(states[n], steps[n].op);
    if k !in s.queueForgotten {
      forall t ensures (k, t) !in s.queueTurns && !Seen(s, k, t) {
        if exists i :: In(s, i) && i in s.turns && IdentityOf(s, i) == k && s.turns[i] == t {
          var i :| In(s, i) && i in s.turns && IdentityOf(s, i) == k && s.turns[i] == t;
          assert Live(s, i);
        }
      }
    }
  }

  /** Over every run, `accepted` records and the receipts that operations return name the accepting turn. */
  lemma AcceptedTurnIsTrue(database: bool, states: seq<System>, steps: seq<Step>, n: nat)
    requires IsRun(database, states, steps) && n < |states|
    ensures ReceiptsTrue(states[n])
  {
    RunInvariant(database, states, steps, n);
    var s := states[n];
    forall k, i | k in s.records.sends && s.records.sends[k].state.Accepted? && k !in s.forgotten
      && k !in s.queueForgotten
                  && In(s, i) && i in s.turns && IdentityOf(s, i) == k
      ensures s.turns[i] == s.records.sends[k].turn
    {
      var t := s.records.sends[k].turn;
      assert Live(s, i) && Seen(s, k, t);
      if (k, t) !in s.queueTurns {
        var j :| In(s, j) && j in s.turns && IdentityOf(s, j) == k && s.turns[j] == t;
        assert Live(s, j) && SameMessage(s, i, j);
      }
    }
  }

  /** From an empty ledger no run reaches an identity that is both queued and being submitted. */
  lemma QueueAndSubmissionExclude(database: bool, states: seq<System>, steps: seq<Step>, n: nat)
    requires IsRun(database, states, steps) && n < |states|
    ensures QueueExcludesSubmission(states[n].records)
  {
    RunInvariant(database, states, steps, n);
  }

  lemma BindingStep(database: bool, s: System, step: Step, k: Identity)
    requires Inv(s) && Enabled(s, step) && k in s.records.sends && k in Apply(database, s, step).records.sends
    ensures Apply(database, s, step).records.sends[k].binding == s.records.sends[k].binding
  {
    if Clearing(step) {
      ClearingShrinks(database, s, step);
      ShrinkFacts(s.records, Apply(database, s, step).records);
    } else if OwnStep(step) {
      OwnStepMoves(database, s, step);
      OwnStepFacts(database, s, step);
    }
  }

  lemma BindingInRun(database: bool, states: seq<System>, steps: seq<Step>, n: nat, k: Identity)
    requires IsRun(database, states, steps) && n < |steps| && k in states[n].records.sends
    requires k in states[n + 1].records.sends
    ensures states[n + 1].records.sends[k].binding == states[n].records.sends[k].binding
  {
    RunInvariant(database, states, steps, n);
    assert StepAt(database, states, steps, n);
    BindingStep(database, states[n], steps[n], k);
  }

  /** While a send record exists, the action it binds never changes. */
  lemma {:induction false} BindingIsStable(database: bool, states: seq<System>, steps: seq<Step>, m: nat, n: nat,
    k: Identity)
    requires IsRun(database, states, steps) && m <= n < |states|
    requires forall i :: m <= i <= n ==> k in states[i].records.sends
    ensures states[n].records.sends[k].binding == states[m].records.sends[k].binding
  {
    if m < n {
      BindingIsStable(database, states, steps, m, n - 1, k);
      BindingInRun(database, states, steps, n - 1, k);
    }
  }

  /** A restore leaves nothing dispatched for a remembered identity; in the database it undoes its own
      claim and no other, even for an identity that was cleared and prepared again. */
  lemma RestoreUndoesOwnClaim(database: bool, states: seq<System>, steps: seq<Step>, n: nat)
    requires IsRun(database, states, steps) && n < |steps| && steps[n].Restore? && StepAt(database, states, steps, n)
    requires states[n + 1].records.sends != states[n].records.sends
    ensures var s, op := states[n], steps[n].op; var k := IdentityOf(s, op);
            && Nowhere(s, op) && k in s.records.sends && s.records.sends[k].state.Submitting?
            && (k !in s.forgotten ==> NothingDispatched(states[n + 1], k))
            && (database ==> s.records.sends[k].admission == s.ops[op].claim)
            && (database ==> forall i :: In(s, i) && s.ops[i].claim == s.records.sends[k].admission ==> i == op)
  {
    assert StepAt(database, states, steps, n);
    RunInvariant(database, states, steps, n);
    RunInvariant(database, states, steps, n + 1);
    OwnStepMoves(database, states[n], steps[n]);
    var s, s', op := states[n], states[n + 1], steps[n].op;
    var k := IdentityOf(s, op);
    if k !in s.forgotten {
      forall i | Live(s', i) ensures IdentityOf(s', i) != k {
        if IdentityOf(s', i) == k { assert i != op && Live(s, i) && Live(s, op) && SameMessage(s, i, op); }
      }
    }
  }
}
