/** Why a restore must compare its claim (codex/send_delivery.go): a run over the legacy ledger. */
module LegacyRestore {
  import opened Prelude
  import opened SubmissionRecords
  import opened Delivery

  // The legacy ledger does not store claims.  After a record was cleared and prepared again, a late
  // restore can undo a claim whose message is on its way, as the following run shows.

  const DemoMessage := Message(Identity("t", "m"), Binding("text", "", "", false))

  function DemoRecords(state: SendState): Records {
    Empty.(sends := map[DemoMessage.identity := SendAttempt(DemoMessage.binding, state, "", "")])
  }

  ghost predicate Steps(s: System, step: Step, s': System) { Enabled(s, step) && s' == Apply(false, s, step) }

  lemma DemoRecord(op: nat, s: System)
    requires PhaseOf(s, op).Idle? && s.ops[op].message == DemoMessage && s.records == Empty
    ensures Steps(s, Record(op, Written), s.(records := DemoRecords(Prepared)))
  {
    assert Persisted(false, DemoRecords(Prepared)) == DemoRecords(Prepared);
    assert s.ops[op := s.ops[op].(phase := Idle)] == s.ops;
  }

  lemma DemoClaim(op: nat, s: System)
    requires PhaseOf(s, op).Idle? && s.ops[op].message == DemoMessage && s.records == DemoRecords(Prepared)
    ensures Steps(s, Claim(op, Written), Move(s, op, Admitted).(records := DemoRecords(Submitting)))
  {
    var k := DemoMessage.identity;
    var next := Empty.(sends := map[k := SendAttempt(DemoMessage.binding, Submitting, "", s.ops[op].claim)]);
    assert DemoRecords(Prepared).sends[k := next.sends[k]] == next.sends;
    assert ClaimPlan(s.records, k, Some(DemoMessage.binding), s.ops[op].claim) == Change(next);
    assert Persisted(false, next) == DemoRecords(Submitting);
  }

  lemma DemoClear(s: System)
    requires s.records == DemoRecords(Submitting)
    ensures Steps(s, ClearConversation("t", "/d", Written),
            s.(records := Empty, forgotten := s.forgotten + {DemoMessage.identity}))
  {
    assert ForgetThread("t", s.records.sends) == map[] && ForgetThread("t", s.records.queued) == map[];
    assert ForgetThread("t", s.records.deletions) == map[] && s.records.operations - {"/d"} == map[];
    assert DemoMessage.identity in s.records.sends;
    assert ClearConversationPlan(s.records, "t", "/d") == Change(Empty);
    assert Persisted(false, Empty) == Empty;
    assert s.queueForgotten + {} == s.queueForgotten;
  }

  lemma DemoRestore(s: System)
    requires PhaseOf(s, 0).Undispatched? && s.ops[0].message == DemoMessage && s.records == DemoRecords(Submitting)
    ensures Steps(s, Restore(0, Written), Move(s, 0, Unsure).(records := DemoRecords(Prepared)))
  {
    var k := DemoMessage.identity;
    assert DemoRecords(Submitting).sends[k := SendAttempt(DemoMessage.binding, Prepared, "", "")]
      == DemoRecords(Prepared).sends;
    assert RestorePlan(false, s.records, k, s.ops[0].claim) == Change(DemoRecords(Prepared));
    assert Persisted(false, DemoRecords(Prepared)) == DemoRecords(Prepared);
  }

  lemma DemoBegin(op: nat, claim: string, s: System)
    requires !In(s, op) && claim != "" && forall i :: In(s, i) ==> s.ops[i].claim != claim
    ensures Steps(s, Begin(op, DemoMessage, claim), s.(ops := s.ops[op := Operation(DemoMessage, claim, Idle)]))
  {
  }

  lemma DemoUnwritten(op: nat, s: System)
    requires PhaseOf(s, op).Admitted?
    ensures Steps(s, Unwritten(op), Move(s, op, Undispatched))
  {
  }

  lemma DemoWriteOut(op: nat, s: System)
    requires PhaseOf(s, op).Admitted?
    ensures Steps(s, WriteOut(op), Move(s, op, Awaiting).(wire := s.wire + {op}))
  {
  }

  ghost predicate Path(states: seq<System>, steps: seq<Step>) {
    |states| == |steps| + 1 && forall i :: 0 <= i < |steps| ==> Steps(states[i], steps[i], states[i + 1])
  }

  lemma OneStep(s: System, step: Step, s': System)
    requires Steps(s, step, s')
    ensures Path([s, s'], [step])
  {
  }

  lemma Joined(a: seq<System>, x: seq<Step>, b: seq<System>, y: seq<Step>)
    requires Path(a, x) && Path(b, y) && a[|x|] == b[0]
    ensures Path(a + b[1..], x + y)
  {
    var states, steps := a + b[1..], x + y;
    forall i | 0 <= i < |steps| ensures Steps(states[i], steps[i], states[i + 1]) {
      if i < |x| {
        assert Steps(a[i], x[i], a[i + 1]);
      } else {
        assert Steps(b[i - |x|], y[i - |x|], b[i - |x| + 1]);
      }
    }
  }

  /** Prepare the message and claim it. */
  lemma DemoPrepareAndClaim(op: nat, claim: string, s: System) returns (states: seq<System>, steps: seq<Step>)
    requires !In(s, op) && claim != "" && (forall i :: In(s, i) ==> s.ops[i].claim != claim) && s.records == Empty
    ensures Path(states, steps) && |steps| == 3 && states[0] == s
    ensures states[3] == s.(ops := s.ops[op := Operation(DemoMessage, claim, Admitted)],
            records := DemoRecords(Submitting))
  {
    var s1 := s.(ops := s.ops[op := Operation(DemoMessage, claim, Idle)]);
    var s2 := s1.(records := DemoRecords(Prepared));
    var s3 := Move(s2, op, Admitted).(records := DemoRecords(Submitting));
    assert s1.ops[op := s1.ops[op].(phase := Admitted)] == s.ops[op := Operation(DemoMessage, claim, Admitted)];
    DemoBegin(op, claim, s);
    OneStep(s, Begin(op, DemoMessage, claim), s1);
    DemoRecord(op, s1);
    OneStep(s1, Record(op, Written), s2);
    DemoClaim(op, s2);
    OneStep(s2, Claim(op, Written), s3);
    Joined([s, s1], [Begin(op, DemoMessage, claim)], [s1, s2], [Record(op, Written)]);
    Joined([s, s1] + [s1, s2][1..], [Begin(op, DemoMessage, claim)] + [Record(op, Written)], [s2, s3],
      [Claim(op, Written)]);
    states := [s, s1] + [s1, s2][1..] + [s2, s3][1..];
    steps := [Begin(op, DemoMessage, claim)] + [Record(op, Written)] + [Claim(op, Written)];
  }

  lemma DemoGiveUpAndClear(s: System) returns (states: seq<System>, steps: seq<Step>)
    requires PhaseOf(s, 0).Admitted? && s.records == DemoRecords(Submitting)
    ensures Path(states, steps) && |steps| == 2 && states[0] == s
    ensures states[2] == Move(s, 0, Undispatched).(records := Empty, forgotten := s.forgotten + {DemoMessage.identity})
  {
    var s1 := Move(s, 0, Undispatched);
    var s2 := s1.(records := Empty, forgotten := s1.forgotten + {DemoMessage.identity});
    DemoUnwritten(0, s);
    OneStep(s, Unwritten(0), s1);
    DemoClear(s1);
    OneStep(s1, ClearConversation("t", "/d", Written), s2);
    Joined([s, s1], [Unwritten(0)], [s1, s2], [ClearConversation("t", "/d", Written)]);
    states, steps := [s, s1] + [s1, s2][1..], [Unwritten(0)] + [ClearConversation("t", "/d", Written)];
  }

  lemma DemoWriteAndRestore(s: System) returns (states: seq<System>, steps: seq<Step>)
    requires PhaseOf(s, 1).Admitted? && PhaseOf(s, 0).Undispatched? && s.ops[0].message == DemoMessage
    requires s.records == DemoRecords(Submitting)
    ensures Path(states, steps) && |steps| == 2 && states[0] == s && steps[1] == Restore(0, Written)
    ensures states[1].forgotten == states[2].forgotten == s.forgotten
    ensures In(states[2], 1) && states[2].ops[1].message == s.ops[1].message && 1 in states[2].wire
    ensures states[2].records == DemoRecords(Prepared)
  {
    var s1 := Move(s, 1, Awaiting).(wire := s.wire + {1});
    var s2 := Move(s1, 0, Unsure).(records := DemoRecords(Prepared));
    DemoWriteOut(1, s);
    OneStep(s, WriteOut(1), s1);
    DemoRestore(s1);
    OneStep(s1, Restore(0, Written), s2);
    Joined([s, s1], [WriteOut(1)], [s1, s2], [Restore(0, Written)]);
    states, steps := [s, s1] + [s1, s2][1..], [WriteOut(1)] + [Restore(0, Written)];
  }

  /** The condition in RestoreUndoesOwnClaim is needed: without the database, a restore for a cleared
      identity can make a message that is on its way look unsent. */
  lemma LegacyRestoreCanUndoAnotherClaim() returns (states: seq<System>, steps: seq<Step>)
    ensures IsRun(false, states, steps) && |steps| == 10 && steps[9] == Restore(0, Written)
    ensures DemoMessage.identity in states[9].forgotten
    ensures In(states[10], 1) && 1 in states[10].wire && states[10].ops[1].message == DemoMessage
    ensures Concluded(states[10].records, DemoMessage, false) == NotSent
  {
    var a, x := DemoPrepareAndClaim(0, "c0", Init());
    var b, y := DemoGiveUpAndClear(a[3]);
    var c, z := DemoPrepareAndClaim(1, "c1", b[2]);
    var d, u := DemoWriteAndRestore(c[3]);
    Joined(a, x, b, y);
    Joined(c, z, d, u);
    Joined(a + b[1..], x + y, c + d[1..], z + u);
    states, steps := a + b[1..] + (c + d[1..])[1..], x + y + (z + u);
    forall i | 0 <= i < |steps| ensures StepAt(false, states, steps, i) {
      assert Steps(states[i], steps[i], states[i + 1]);
    }
  }
}
