/** Every step of the delivery protocol keeps its invariant: first what each ledger transaction does to the
    records, whatever becomes of its write, and then the steps of operations, of the server and of clearing. */
module DeliverySteps {
  import opened Prelude
  import opened SubmissionRecords
  import opened Delivery

  // ---------------------------------------------------------------------------------------------
  // What a ledger transaction does to the records, whatever becomes of its write

  /** Equal up to the admission claims, which the legacy ledger does not store. */
  ghost predicate Alike(a: Records, b: Records) {
    && a.queued == b.queued && a.sends.Keys == b.sends.Keys
    && forall k :: k in a.sends ==> a.sends[k].(admission := "") == b.sends[k].(admission := "")
  }

  lemma SettleCases(database: bool, r: Records, plan: Plan, w: WriteOutcome)
    ensures var r' := Settle(database, r, plan, w).0; r' == r || (plan.Change? && Alike(plan.next, r'))
  {
  }

  /** Live claims keep the record they rely on. */
  ghost predicate KeepsSubmitted(r: Records, r': Records) {
    forall m :: Submitted(r, m) ==> Submitted(r', m)
  }

  /** The only record that may have become `accepted` is that of `k`, with turn `t`. */
  ghost predicate AcceptsOnly(r: Records, r': Records, k: Identity, t: string) {
    forall x :: x in r'.sends && r'.sends[x].state.Accepted? ==>
      (x in r.sends && r.sends[x].state.Accepted? && r.sends[x].turn == r'.sends[x].turn)
        || (x == k && r'.sends[x].turn == t)
  }

  ghost predicate AcceptsNone(r: Records, r': Records) {
    forall x :: x in r'.sends && r'.sends[x].state.Accepted? ==>
      x in r.sends && r.sends[x].state.Accepted? && r.sends[x].turn == r'.sends[x].turn
  }

  predicate GrowsQueue(r: Records, r': Records) { r.queued.Keys <= r'.queued.Keys }

  ghost predicate KeepsExclusion(r: Records, r': Records) {
    QueueExcludesSubmission(r) ==> QueueExcludesSubmission(r')
  }

  ghost predicate KeepsBindings(r: Records, r': Records) {
    forall k :: k in r.sends && k in r'.sends ==> r'.sends[k].binding == r.sends[k].binding
  }

  lemma RecordFacts(database: bool, r: Records, k: Identity, b: Binding, w: WriteOutcome)
    ensures var r' := Settle(database, r, RecordSendPlan(r, k, b, None), w).0;
            KeepsSubmitted(r, r') && AcceptsNone(r, r') && GrowsQueue(r, r') && KeepsExclusion(r, r')
              && KeepsBindings(r, r')
  {
    SettleCases(database, r, RecordSendPlan(r, k, b, None), w);
  }

  lemma ReceiptFacts(database: bool, r: Records, k: Identity, b: Binding, p: Receipt, w: WriteOutcome)
    ensures var r' := Settle(database, r, RecordSendPlan(r, k, b, Some(p)), w).0;
            KeepsSubmitted(r, r') && AcceptsOnly(r, r', k, p.turn) && GrowsQueue(r, r') && KeepsExclusion(r, r')
              && KeepsBindings(r, r')
  {
    SettleCases(database, r, RecordSendPlan(r, k, b, Some(p)), w);
  }

  lemma AcceptFacts(database: bool, r: Records, k: Identity, p: Receipt, w: WriteOutcome)
    ensures var r' := Settle(database, r, AcceptPlan(r, k, p), w).0;
            KeepsSubmitted(r, r') && AcceptsOnly(r, r', k, p.turn) && GrowsQueue(r, r') && KeepsExclusion(r, r')
              && KeepsBindings(r, r')
  {
    SettleCases(database, r, AcceptPlan(r, k, p), w);
  }

  lemma ClaimFacts(database: bool, r: Records, k: Identity, b: Binding, claim: string, w: WriteOutcome)
    ensures var (r', out) := Settle(database, r, ClaimPlan(r, k, Some(b), claim), w);
            && KeepsSubmitted(r, r') && AcceptsNone(r, r') && GrowsQueue(r, r') && KeepsExclusion(r, r')
            && KeepsBindings(r, r')
            && (out.Done? ==> k in r.sends && r.sends[k].state.Prepared? && Submitted(r', Message(k, b)))
  {
    SettleCases(database, r, ClaimPlan(r, k, Some(b), claim), w);
  }

  lemma RestoreFacts(database: bool, r: Records, k: Identity, claim: string, w: WriteOutcome)
    ensures var r' := Settle(database, r, RestorePlan(database, r, k, claim), w).0;
            && (forall m :: Submitted(r, m) && m.identity != k ==> Submitted(r', m))
            && AcceptsNone(r, r') && GrowsQueue(r, r') && KeepsExclusion(r, r') && KeepsBindings(r, r')
  {
    SettleCases(database, r, RestorePlan(database, r, k, claim), w);
  }

  lemma QueueFacts(database: bool, r: Records, k: Identity, digest: string, w: WriteOutcome)
    ensures var (r', out) := Settle(database, r, RecordQueuePlan(r, k, digest), w);
            && KeepsSubmitted(r, r') && AcceptsNone(r, r') && GrowsQueue(r, r') && KeepsExclusion(r, r')
            && KeepsBindings(r, r')
            && (out.Done? ==> k in r'.queued)
  {
    SettleCases(database, r, RecordQueuePlan(r, k, digest), w);
  }

  /** Records are dropped or kept as they are; none is added or altered. */
  ghost predicate Shrinks(r: Records, r': Records) {
    && r'.queued.Keys <= r.queued.Keys && r'.sends.Keys <= r.sends.Keys
    && forall k :: k in r'.sends ==> r'.sends[k].(admission := "") == r.sends[k].(admission := "")
  }

  ghost predicate DropsOnlyPrepared(r: Records, r': Records) {
    forall k :: k in r.sends && k !in r'.sends ==> r.sends[k].state.Prepared?
  }

  lemma ShrinkFacts(r: Records, r': Records)
    requires Shrinks(r, r')
    ensures AcceptsNone(r, r') && KeepsExclusion(r, r') && KeepsBindings(r, r')
    ensures forall m :: Submitted(r, m) && m.identity in r'.sends ==> Submitted(r', m)
    ensures DropsOnlyPrepared(r, r') ==> KeepsSubmitted(r, r')
  {
  }

  lemma ClearingPlanShrinks(database: bool, s: System, step: Step)
    requires Clearing(step)
    ensures var plan := PlanOf(database, s, step);
            && (plan.Change? ==> Shrinks(s.records, plan.next))
            && (plan.Change? && !ClearsSubmitted(step) ==> DropsOnlyPrepared(s.records, plan.next))
  {
  }

  lemma ClearingShrinks(database: bool, s: System, step: Step)
    requires Clearing(step)
    ensures var r' := Settled(database, s, step).0;
            Shrinks(s.records, r') && (ClearsSubmitted(step) || DropsOnlyPrepared(s.records, r'))
  {
    SettleCases(database, s.records, PlanOf(database, s, step), step.w);
    ClearingPlanShrinks(database, s, step);
  }

  // ---------------------------------------------------------------------------------------------
  // Every step keeps the invariant

  /** Steps that an operation takes itself. */
  predicate OwnStep(step: Step) { !Clearing(step) && !Environmental(step) }

  predicate MayFollow(s: System, op: nat, p: Phase) {
    && (p.Idle? || p.Admitted? ==> Nowhere(s, op) && op !in s.replies)
    && (p.Undispatched? || p.QueueReady? ==> Nowhere(s, op))
  }

  lemma NextPhaseFacts(database: bool, s: System, step: Step)
    requires ClaimsConsistent(s) && Enabled(s, step) && OwnStep(step)
    ensures In(s, step.op) && MayFollow(s, step.op, NextPhase(database, s, step))
    ensures HoldsClaim(NextPhase(database, s, step)) ==> HoldsClaim(PhaseOf(s, step.op)) || step.Claim?
    ensures step.WriteOut? ==> PhaseOf(s, step.op).Admitted? && NextPhase(database, s, step).Awaiting?
  {
  }

  /** The shape of an operation's own step, with nothing said about the records. */
  ghost predicate Moved(s: System, op: nat, p: Phase, wrote: bool, s': System) {
    && In(s, op) && s'.ops == s.ops[op := s.ops[op].(phase := p)]
    && s'.turns == s.turns && s'.replies == s.replies && s'.queueTurns == s.queueTurns
    && s'.wire == (if wrote then s.wire + {op} else s.wire)
    && s'.forgotten == s.forgotten && s'.queueForgotten == s.queueForgotten
  }

  lemma OwnStepMoves(database: bool, s: System, step: Step)
    requires ClaimsConsistent(s) && Enabled(s, step) && OwnStep(step)
    ensures Moved(s, step.op, NextPhase(database, s, step), step.WriteOut?, Apply(database, s, step))
    ensures Apply(database, s, step).records == Settled(database, s, step).0
  {
    NextPhaseFacts(database, s, step);
  }

  lemma MovedClaims(s: System, op: nat, p: Phase, wrote: bool, s': System)
    requires ClaimsConsistent(s) && Moved(s, op, p, wrote, s') && MayFollow(s, op, p)
    requires wrote ==> p.Awaiting? && s.ops[op].phase.Admitted?
    ensures ClaimsConsistent(s')
  {
  }

  lemma LiveTransfer(s: System, s': System)
    requires LiveRecorded(s) && LiveUnique(s)
    requires s.forgotten <= s'.forgotten
    requires forall i :: Live(s', i) ==> Live(s, i) && s'.ops[i].message == s.ops[i].message
    requires forall i :: Live(s', i) && IdentityOf(s', i) !in s'.forgotten ==>
               Submitted(s.records, s.ops[i].message) ==> Submitted(s'.records, s.ops[i].message)
    ensures LiveRecorded(s') && LiveUnique(s')
  {
    forall i, j | Live(s', i) && Live(s', j) && SameMessage(s', i, j) ensures i == j {
      assert SameMessage(s, i, j);
    }
  }

  lemma SeenGrows(s: System, s': System, k: Identity, t: string)
    requires Seen(s, k, t)
    requires s.queueTurns <= s'.queueTurns
    requires forall i :: In(s, i) ==> In(s', i) && s'.ops[i].message == s.ops[i].message
    requires forall i :: i in s.turns ==> i in s'.turns && s'.turns[i] == s.turns[i]
    ensures Seen(s', k, t)
  {
    if (k, t) !in s.queueTurns {
      var i :| In(s, i) && i in s.turns && IdentityOf(s, i) == k && s.turns[i] == t;
      assert In(s', i) && IdentityOf(s', i) == k;
    }
  }

  /** Old evidence stays; a new proof names a turn that history shows. */
  lemma EvidenceTransfer(s: System, s': System)
    requires EvidenceTrue(s)
    requires s.queueTurns <= s'.queueTurns
    requires forall i :: In(s, i) ==> In(s', i) && s'.ops[i].message == s.ops[i].message
    requires forall i :: i in s.turns ==> i in s'.turns && s'.turns[i] == s.turns[i]
    requires forall i :: In(s', i) && Named(s'.ops[i].phase).Some? ==>
               In(s, i) && (s.ops[i].phase == s'.ops[i].phase
                 || Seen(s, IdentityOf(s', i), Named(s'.ops[i].phase).value))
    requires AcceptsNone(s.records, s'.records)
             || (exists i ::
                   && In(s, i) && s.ops[i].phase.Proved?
                   && AcceptsOnly(s.records, s'.records, IdentityOf(s, i), s.ops[i].phase.turn))
    ensures EvidenceTrue(s')
  {
    forall i | In(s', i) && Named(s'.ops[i].phase).Some? ensures Seen(s', IdentityOf(s', i),
      Named(s'.ops[i].phase).value) {
      SeenGrows(s, s', IdentityOf(s', i), Named(s'.ops[i].phase).value);
    }
    forall k | k in s'.records.sends
      && s'.records.sends[k].state.Accepted? ensures Seen(s', k, s'.records.sends[k].turn) {
      SeenGrows(s, s', k, s'.records.sends[k].turn);
    }
  }

  /** What the ledger transaction of an operation's own step does. */
  lemma OwnStepFacts(database: bool, s: System, step: Step)
    requires Enabled(s, step) && OwnStep(step) && In(s, step.op)
    ensures var r, r', o := s.records, Settled(database, s, step).0, s.ops[step.op];
            && GrowsQueue(r, r') && KeepsExclusion(r, r') && KeepsBindings(r, r')
            && (AcceptsNone(r, r') || (o.phase.Proved? && AcceptsOnly(r, r', o.message.identity, o.phase.turn)))
            && (forall m :: Submitted(r, m) && (step.Restore? ==> m.identity != o.message.identity) ==>
                  Submitted(r', m))
            && (step.Claim? && Settled(database, s, step).1.Done? ==>
                  && Submitted(r', o.message)
                  && o.message.identity in r.sends && r.sends[o.message.identity].state.Prepared?)
            && (step.RecordQueue? && Settled(database, s, step).1.Done? ==> o.message.identity in r'.queued)
  {
    if WritesLedger(step) {
      var Operation(Message(k, b), claim, phase) := s.ops[step.op];
      if step.Record? { RecordFacts(database, s.records, k, b, step.w); }
      else if step.RecordReceipt? { ReceiptFacts(database, s.records, k, b, Receipt(k.id, phase.turn, b.steered),
        step.w); }
      else if step.Claim? { ClaimFacts(database, s.records, k, b, claim, step.w); }
      else if step.MarkAccepted? { AcceptFacts(database, s.records, k, Receipt(k.id, phase.turn, b.steered), step.w); }
      else if step.Restore? { RestoreFacts(database, s.records, k, claim, step.w); }
      else { QueueFacts(database, s.records, k, b.digest, step.w); }
    }
  }

  lemma OwnStepProof(database: bool, s: System, step: Step)
    requires ClaimsConsistent(s) && Enabled(s, step) && OwnStep(step) && In(s, step.op)
    requires Named(NextPhase(database, s, step)).Some?
    requires EvidenceTrue(s)
    ensures Seen(s, IdentityOf(s, step.op), Named(NextPhase(database, s, step)).value)
  {
    if step.Receive? {
      assert s.replies[step.op].AcceptedReply? && step.op in s.turns;
    }
  }

  lemma OwnStepEvidence(database: bool, s: System, step: Step)
    requires Inv(s) && Enabled(s, step) && OwnStep(step)
    ensures EvidenceTrue(Apply(database, s, step))
  {
    OwnStepMoves(database, s, step);
    OwnStepFacts(database, s, step);
    var p, s' := NextPhase(database, s, step), Apply(database, s, step);
    if Named(p).Some? { OwnStepProof(database, s, step); }
    EvidenceTransfer(s, s');
  }

  /** A claim can only be made when no claim for the same remembered identity is live. */
  lemma ClaimKeepsLive(database: bool, s: System, step: Step)
    requires Inv(s) && Enabled(s, step) && step.Claim?
    ensures LiveRecorded(Apply(database, s, step)) && LiveUnique(Apply(database, s, step))
  {
    OwnStepMoves(database, s, step);
    OwnStepFacts(database, s, step);
    var s' := Apply(database, s, step);
    var k := IdentityOf(s, step.op);
    forall i | Live(s', i) && i != step.op
      ensures Live(s, i) && (k !in s.forgotten && PhaseOf(s', step.op).Admitted? ==> IdentityOf(s, i) != k)
    {
    }
    forall i, j | Live(s', i) && Live(s', j) && SameMessage(s', i, j) ensures i == j {
      if i != step.op && j != step.op { assert SameMessage(s, i, j); }
    }
  }

  lemma RestoreKeepsLive(database: bool, s: System, step: Step)
    requires Inv(s) && Enabled(s, step) && step.Restore?
    ensures LiveRecorded(Apply(database, s, step)) && LiveUnique(Apply(database, s, step))
  {
    OwnStepMoves(database, s, step);
    OwnStepFacts(database, s, step);
    var s' := Apply(database, s, step);
    var op := step.op;
    assert Live(s, op) && !Live(s', op);
    forall i | Live(s', i) && IdentityOf(s', i) !in s'.forgotten ensures IdentityOf(s', i) != IdentityOf(s, op) {
      assert Live(s, i) && !SameMessage(s, i, op);
    }
    LiveTransfer(s, s');
  }

  lemma OwnStepKeepsLive(database: bool, s: System, step: Step)
    requires Inv(s) && Enabled(s, step) && OwnStep(step)
    ensures LiveRecorded(Apply(database, s, step)) && LiveUnique(Apply(database, s, step))
  {
    if step.Claim? {
      ClaimKeepsLive(database, s, step);
    } else if step.Restore? {
      RestoreKeepsLive(database, s, step);
    } else {
      NextPhaseFacts(database, s, step);
      OwnStepMoves(database, s, step);
      OwnStepFacts(database, s, step);
      LiveTransfer(s, Apply(database, s, step));
    }
  }

  lemma OwnStepQueue(database: bool, s: System, step: Step)
    requires Inv(s) && Enabled(s, step) && OwnStep(step)
    ensures QueueRemembered(Apply(database, s, step))
  {
    NextPhaseFacts(database, s, step);
    OwnStepMoves(database, s, step);
    OwnStepFacts(database, s, step);
    var s' := Apply(database, s, step);
    forall k | Queued(s, k) ensures Queued(s', k) {}
    forall i | In(s', i) && s'.ops[i].phase.QueueReady? ensures Queued(s', IdentityOf(s', i)) {
      assert i == step.op ==> step.RecordQueue?;
    }
  }

  lemma OwnStepKeeps(database: bool, s: System, step: Step)
    requires Inv(s) && Enabled(s, step) && OwnStep(step)
    ensures Inv(Apply(database, s, step))
  {
    NextPhaseFacts(database, s, step);
    OwnStepMoves(database, s, step);
    OwnStepFacts(database, s, step);
    MovedClaims(s, step.op, NextPhase(database, s, step), step.WriteOut?, Apply(database, s, step));
    OwnStepKeepsLive(database, s, step);
    OwnStepEvidence(database, s, step);
    OwnStepQueue(database, s, step);
  }

  lemma EnvironmentTokens(s: System, step: Step)
    requires TokensDistinct(s) && Environmental(step) && Enabled(s, step)
    ensures TokensDistinct(Environment(s, step))
  {
  }

  lemma AnswerClaims(s: System, op: nat, reply: Option<Reply>)
    requires ClaimsConsistent(s) && op in s.wire && (reply.Some? ==> !reply.value.AcceptedReply?)
    ensures ClaimsConsistent(Answer(s, op, reply))
  {
  }

  lemma AcceptClaims(s: System, op: nat, turn: string, reply: Option<Reply>)
    requires ClaimsConsistent(s) && op in s.wire && turn != ""
    requires (reply.Some? ==> reply.value == AcceptedReply(turn) || reply.value.OtherReply?)
    ensures ClaimsConsistent(Answer(s, op, reply).(turns := s.turns[op := turn]))
  {
  }

  lemma EnvironmentClaims(s: System, step: Step)
    requires ClaimsConsistent(s) && Environmental(step) && Enabled(s, step)
    ensures ClaimsConsistent(Environment(s, step))
  {
    match step
    case Accept(op, turn, reply) => AcceptClaims(s, op, turn, reply);
    case Refuse(op) => AnswerClaims(s, op, Some(RefusedReply));
    case Lose(op, replied) => AnswerClaims(s, op, if replied then Some(OtherReply) else None);
    case _ =>
  }

  lemma EnvironmentLive(s: System, step: Step)
    requires ClaimsConsistent(s) && LiveRecorded(s) && LiveUnique(s) && Environmental(step) && Enabled(s, step)
    ensures LiveRecorded(Environment(s, step)) && LiveUnique(Environment(s, step))
  {
    LiveTransfer(s, Environment(s, step));
  }

  lemma EnvironmentEvidence(s: System, step: Step)
    requires ClaimsConsistent(s) && EvidenceTrue(s) && Environmental(step) && Enabled(s, step)
    ensures EvidenceTrue(Environment(s, step))
  {
    EvidenceTransfer(s, Environment(s, step));
  }

  lemma EnvironmentQueue(s: System, step: Step)
    requires QueueRemembered(s) && Environmental(step) && Enabled(s, step)
    ensures QueueRemembered(Environment(s, step)) && Environment(s, step).records == s.records
  {
    var s' := Environment(s, step);
    forall k | Queued(s, k) ensures Queued(s', k) {}
  }

  lemma EnvironmentKeeps(s: System, step: Step)
    requires Inv(s) && Environmental(step) && Enabled(s, step)
    ensures Inv(Environment(s, step))
  {
    EnvironmentTokens(s, step);
    EnvironmentClaims(s, step);
    EnvironmentLive(s, step);
    EnvironmentEvidence(s, step);
    EnvironmentQueue(s, step);
  }

  lemma ForgetLive(s: System, submitted: bool, records: Records)
    requires LiveRecorded(s) && LiveUnique(s)
    requires Shrinks(s.records, records) && (submitted || DropsOnlyPrepared(s.records, records))
    ensures LiveRecorded(Forget(s, submitted, records)) && LiveUnique(Forget(s, submitted, records))
  {
    ShrinkFacts(s.records, records);
    LiveTransfer(s, Forget(s, submitted, records));
  }

  lemma ForgetEvidence(s: System, submitted: bool, records: Records)
    requires EvidenceTrue(s) && Shrinks(s.records, records)
    ensures EvidenceTrue(Forget(s, submitted, records))
  {
    ShrinkFacts(s.records, records);
    EvidenceTransfer(s, Forget(s, submitted, records));
  }

  lemma ForgetRest(s: System, submitted: bool, records: Records)
    requires TokensDistinct(s) && ClaimsConsistent(s) && QueueRemembered(s)
    ensures TokensDistinct(Forget(s, submitted, records)) && ClaimsConsistent(Forget(s, submitted, records))
    ensures QueueRemembered(Forget(s, submitted, records))
  {
    var s' := Forget(s, submitted, records);
    forall k | Queued(s, k) ensures Queued(s', k) {}
  }

  lemma ForgetKeeps(s: System, submitted: bool, records: Records)
    requires Inv(s) && Shrinks(s.records, records) && (submitted || DropsOnlyPrepared(s.records, records))
    ensures Inv(Forget(s, submitted, records))
  {
    ShrinkFacts(s.records, records);
    ForgetRest(s, submitted, records);
    ForgetLive(s, submitted, records);
    ForgetEvidence(s, submitted, records);
  }

  lemma StepKeeps(database: bool, s: System, step: Step)
    requires Inv(s) && Enabled(s, step)
    ensures Inv(Apply(database, s, step))
  {
    if Environmental(step) {
      EnvironmentKeeps(s, step);
    } else if Clearing(step) {
      ClearingShrinks(database, s, step);
      ForgetKeeps(s, ClearsSubmitted(step), Settled(database, s, step).0);
    } else {
      OwnStepKeeps(database, s, step);
    }
  }
}
