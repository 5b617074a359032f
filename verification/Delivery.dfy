/** Delivery of messages over a ledger shared by any number of operations (codex/client.go,
    codex/send_delivery.go, codex/continuation.go), as a step system.

    Every operation (a Send, a ContinueFailedTurn, a Queue, a SendAttempted) runs alone or beside any
    others, in the same client or in other processes, and may stop for good between any two steps.
    A ledger transaction is one step; its write may be lost before or after it became durable.  What
    is written may reach the App Server late or never, and replies may be lost.  A refusal reply is
    one of the JSON-RPC codes -32600, -32601 and -32602, which the server sends for input it did not
    accept.  History shows accepted messages, possibly late. */
module Delivery {
  import opened Prelude
  import opened SubmissionRecords

  datatype Result = Sent(turn: string) | NotSent | Unknown

  datatype Phase =
    | Idle                      // reads and records, has not claimed
    | Admitted                  // claimed; nothing handed to the writer
    | Awaiting                  // handed to the writer; waiting for the reply
    | Undispatched              // proof in hand that the claimed message was not accepted
    | Unsure                    // knows nothing that the ledger or history does not say
    | Proved(turn: string)      // a reply or history names the accepting turn
    | QueueReady                // queue attempt recorded; about to add to the native queue
    | Returned(result: Result)
    | Stopped

  datatype Message = Message(identity: Identity, binding: Binding)

  /** An operation, with the random token it uses if it claims. */
  datatype Operation = Operation(message: Message, claim: string, phase: Phase)

  datatype Reply = AcceptedReply(turn: string) | RefusedReply | OtherReply

  /** Operations are never removed, so that their messages can be spoken of after they stopped. */
  datatype System = System(
    records: Records,
    ops: map<nat, Operation>,
    wire: set<nat>,                      // operations whose message was written and not processed
    turns: map<nat, string>,             // operations whose message was accepted, with its turn
    replies: map<nat, Reply>,
    queueSent: set<Identity>,            // handed to the native queue
    queueTurns: set<(Identity, string)>, // started from the native queue
    forgotten: set<Identity>,            // send record removed after it may have been submitted
    queueForgotten: set<Identity>)       // queue record removed

  datatype Step =
    | Begin(op: nat, message: Message, claim: string)
    | Crash(op: nat)
    | Record(op: nat, w: WriteOutcome)
    | RecordReceipt(op: nat, w: WriteOutcome)
    | Claim(op: nat, w: WriteOutcome)
    | Unwritten(op: nat)
    | WriteOut(op: nat)
    | GiveUp(op: nat)
    | Receive(op: nat)
    | ReadHistory(op: nat, turn: string)
    | MarkAccepted(op: nat, w: WriteOutcome)
    | Restore(op: nat, w: WriteOutcome)
    | Conclude(op: nat, allowAbsent: bool)
    | RecordQueue(op: nat, w: WriteOutcome)
    | QueueAdd(op: nat)
    | Accept(op: nat, turn: string, reply: Option<Reply>)
    | Refuse(op: nat)
    | Lose(op: nat, replied: bool)
    | QueueStart(identity: Identity, turn: string)
    | Discard(identity: Identity, digest: string, context: string, options: string, w: WriteOutcome)
    | ClearQueue(identity: Identity, w: WriteOutcome)
    | RecordDeletion(identity: Identity, deletion: Deletion, w: WriteOutcome)
    | ClearDeletion(thread: string, queuedId: string, id: string, w: WriteOutcome)
    | Acknowledge(thread: string, shown: Acknowledgement, w: WriteOutcome)
    | ClearConversation(thread: string, directory: string, w: WriteOutcome)
    | ClearRetired(thread: string, w: WriteOutcome)

  function Init(): System {
    System(Empty, map[], {}, map[], map[], {}, {}, {}, {})
  }

  // ---------------------------------------------------------------------------------------------
  // Steps

  predicate In(s: System, op: nat) { op in s.ops }

  function PhaseOf(s: System, op: nat): Phase {
    if In(s, op) then s.ops[op].phase else Stopped
  }

  function IdentityOf(s: System, op: nat): Identity
    requires In(s, op)
  {
    s.ops[op].message.identity
  }

  /** History shows that turn `t` contains the message `k`. */
  ghost predicate Seen(s: System, k: Identity, t: string) {
    (exists i :: In(s, i) && i in s.turns && IdentityOf(s, i) == k && s.turns[i] == t) || (k, t) in s.queueTurns
  }

  ghost predicate Enabled(s: System, step: Step) {
    match step
    case Begin(op, _, claim) => !In(s, op) && claim != "" && forall i :: In(s, i) ==> s.ops[i].claim != claim
    case Crash(op) => In(s, op)
    case Record(op, _) => PhaseOf(s, op).Idle?
    case RecordReceipt(op, _) => PhaseOf(s, op).Proved?
    case Claim(op, _) => PhaseOf(s, op).Idle?
    case Unwritten(op) => PhaseOf(s, op).Admitted?
    case WriteOut(op) => PhaseOf(s, op).Admitted?
    case GiveUp(op) => PhaseOf(s, op).Awaiting?
    case Receive(op) => PhaseOf(s, op).Awaiting? && op in s.replies
    case ReadHistory(op, turn) => (PhaseOf(s, op).Idle? || PhaseOf(s, op).Unsure?) && Seen(s, IdentityOf(s, op), turn)
    case MarkAccepted(op, _) => PhaseOf(s, op).Proved?
    case Restore(op, _) => PhaseOf(s, op).Undispatched?
    case Conclude(op, _) => PhaseOf(s, op).Idle? || PhaseOf(s, op).Unsure?
    case RecordQueue(op, _) => PhaseOf(s, op).Idle?
    case QueueAdd(op) => PhaseOf(s, op).QueueReady?
    case Accept(op, turn, reply) =>
      op in s.wire && turn != "" && (reply.Some? ==> reply.value == AcceptedReply(turn) || reply.value.OtherReply?)
    case Refuse(op) => op in s.wire
    case Lose(op, _) => op in s.wire
    case QueueStart(k, turn) => k in s.queueSent && turn != ""
    case _ => true
  }

  function Move(s: System, op: nat, phase: Phase): System
    requires In(s, op)
  {
    s.(ops := s.ops[op := s.ops[op].(phase := phase)])
  }

  /** What unwrittenSendOutcome answers from one ledger snapshot. */
  function Concluded(r: Records, m: Message, allowAbsent: bool): Result {
    var k := m.identity;
    if k in r.sends && r.sends[k].binding.(steered := m.binding.steered) != m.binding then
      Unknown
    else if k !in r.queued && ((k in r.sends && r.sends[k].state.Prepared?) || (k !in r.sends && allowAbsent)) then
      NotSent
    else if k !in r.queued && k in r.sends && r.sends[k].state.Accepted? then
      Sent(r.sends[k].turn)
    else
      Unknown
  }

  predicate ClearsSubmitted(step: Step) { step.Acknowledge? || step.ClearConversation? || step.ClearRetired? }

  predicate Clearing(step: Step) {
    step.Discard? || step.ClearQueue? || step.RecordDeletion? || step.ClearDeletion? || ClearsSubmitted(step)
  }

  /** What a step plans for the records; steps of the server and the transport plan nothing. */
  function PlanOf(database: bool, s: System, step: Step): Plan {
    match step
    case Discard(k, digest, context, options, _) => DiscardPlan(s.records, k, digest, context, options)
    case ClearQueue(k, _) => ClearQueuePlan(s.records, k)
    case RecordDeletion(k, d, _) => RecordDeletionPlan(s.records, k, d)
    case ClearDeletion(thread, queuedId, id, _) => ClearDeletionPlan(s.records, thread, queuedId, id)
    case Acknowledge(thread, shown, _) => AcknowledgePlan(s.records, thread, shown)
    case ClearConversation(thread, directory, _) => ClearConversationPlan(s.records, thread, directory)
    case ClearRetired(thread, _) => ClearRetiredPlan(s.records, thread)
    case QueueStart(_, _) => Unchanged
    case _ =>
      if !In(s, step.op) then Unchanged else
      var Operation(Message(k, b), claim, phase) := s.ops[step.op];
      match step
      case Record(_, _) => RecordSendPlan(s.records, k, b, None)
      case RecordReceipt(_, _) =>
        if phase.Proved? then RecordSendPlan(s.records, k, b, Some(Receipt(k.id, phase.turn, b.steered))) else Unchanged
      case Claim(_, _) => ClaimPlan(s.records, k, Some(b), claim)
      case MarkAccepted(_, _) =>
        if phase.Proved? then AcceptPlan(s.records, k, Receipt(k.id, phase.turn, b.steered)) else Unchanged
      case Restore(_, _) => RestorePlan(database, s.records, k, claim)
      case RecordQueue(_, _) => RecordQueuePlan(s.records, k, b.digest)
      case _ => Unchanged
  }

  predicate WritesLedger(step: Step) {
    || step.Record? || step.RecordReceipt? || step.Claim? || step.MarkAccepted? || step.Restore? || step.RecordQueue?
    || Clearing(step)
  }

  function Settled(database: bool, s: System, step: Step): (Records, Outcome) {
    if WritesLedger(step) then Settle(database, s.records, PlanOf(database, s, step), step.w) else (s.records, Done)
  }

  /** Where a step leaves the operation that takes it. */
  function NextPhase(database: bool, s: System, step: Step): Phase
    requires Enabled(s, step) && !Clearing(step) && !step.QueueStart? && !step.Begin?
  {
    var done := Settled(database, s, step).1.Done?;
    match step
    case Crash(_) => Stopped
    case RecordReceipt(op, _) => Returned(if done then Sent(PhaseOf(s, op).turn) else Unknown)
    case Claim(_, _) => if done then Admitted else Unsure
    case Unwritten(_) => Undispatched
    case WriteOut(_) => Awaiting
    case GiveUp(_) => Unsure
    case Receive(op) =>
      (match s.replies[op]
       case AcceptedReply(turn) => Proved(turn)
       case RefusedReply => Undispatched
       case OtherReply => Unsure)
    case ReadHistory(_, turn) => Proved(turn)
    case MarkAccepted(op, _) => Returned(if done then Sent(PhaseOf(s, op).turn) else Unknown)
    case Restore(_, _) => Unsure
    case Conclude(op, allowAbsent) => Returned(Concluded(s.records, s.ops[op].message, allowAbsent))
    case RecordQueue(_, _) => if done then QueueReady else Returned(Unknown)
    case QueueAdd(_) => Returned(Unknown)
    case _ => PhaseOf(s, step.op)
  }

  function Answer(s: System, op: nat, reply: Option<Reply>): System {
    s.(wire := s.wire - {op}, replies := if reply.Some? then s.replies[op := reply.value] else s.replies)
  }

  /** Steps of the server, and of an operation that begins. */
  predicate Environmental(step: Step) { step.Begin? || step.QueueStart? || step.Accept? || step.Refuse? || step.Lose? }

  function Environment(s: System, step: Step): System
    requires Environmental(step)
  {
    match step
    case Begin(op, message, claim) => s.(ops := s.ops[op := Operation(message, claim, Idle)])
    case QueueStart(k, turn) => s.(queueTurns := s.queueTurns + {(k, turn)})
    case Accept(op, turn, reply) => Answer(s, op, reply).(turns := s.turns[op := turn])
    case Refuse(op) => Answer(s, op, Some(RefusedReply))
    case Lose(op, replied) => Answer(s, op, if replied then Some(OtherReply) else None)
  }

  function Forget(s: System, submitted: bool, records: Records): System {
    s.(records := records,
       forgotten := if submitted then s.forgotten + (s.records.sends.Keys - records.sends.Keys) else s.forgotten,
       queueForgotten := s.queueForgotten + (s.records.queued.Keys - records.queued.Keys))
  }

  function Apply(database: bool, s: System, step: Step): System
    requires Enabled(s, step)
  {
    if Environmental(step) then
      Environment(s, step)
    else if Clearing(step) then
      Forget(s, ClearsSubmitted(step), Settled(database, s, step).0)
    else
      Move(s, step.op, NextPhase(database, s, step)).(
        records := Settled(database, s, step).0,
        wire := if step.WriteOut? then s.wire + {step.op} else s.wire,
        queueSent := if step.QueueAdd? then s.queueSent + {IdentityOf(s, step.op)} else s.queueSent)
  }

  ghost predicate IsRun(database: bool, states: seq<System>, steps: seq<Step>) {
    && |states| == |steps| + 1
    && states[0] == Init()
    && forall i :: 0 <= i < |steps| ==> StepAt(database, states, steps, i)
  }

  ghost predicate StepAt(database: bool, states: seq<System>, steps: seq<Step>, i: int)
    requires |states| == |steps| + 1 && 0 <= i < |steps|
  {
    Enabled(states[i], steps[i]) && states[i + 1] == Apply(database, states[i], steps[i])
  }

  // ---------------------------------------------------------------------------------------------
  // What is promised

  /** Two operations for one identity whose submission record was never cleared. */
  predicate SameMessage(s: System, i: nat, j: nat) {
    In(s, i) && In(s, j) && IdentityOf(s, i) == IdentityOf(s, j) && IdentityOf(s, i) !in s.forgotten
  }

  /** No identity whose submission record was never cleared is accepted twice, and what was accepted is
      the action that its record binds. */
  ghost predicate AtMostOnce(s: System) {
    && (forall i, j :: i in s.turns && j in s.turns && SameMessage(s, i, j) ==> i == j)
    && (forall i :: In(s, i) && i in s.turns && IdentityOf(s, i) !in s.forgotten ==>
          IdentityOf(s, i) in s.records.sends && s.records.sends[IdentityOf(s, i)].binding == s.ops[i].message.binding)
  }

  /** A receipt that was answered, and an `accepted` record, name a turn that contains the message; and when
      the message was accepted as a turn/start or turn/steer, exactly that turn, whichever operation recorded it.
      */
  ghost predicate ReceiptsTrue(s: System) {
    && (forall i :: In(s, i) && Named(s.ops[i].phase).Some? ==> Seen(s, IdentityOf(s, i), Named(s.ops[i].phase).value))
    && forall k :: k in s.records.sends && s.records.sends[k].state.Accepted? ==>
      && Seen(s, k, s.records.sends[k].turn)
      && (k !in s.forgotten && k !in s.queueForgotten ==>
            forall i :: In(s, i) && i in s.turns && IdentityOf(s, i) == k ==> s.turns[i] == s.records.sends[k].turn)
  }

  /** A queued identity is never being submitted. */
  ghost predicate QueueExcludesSubmission(r: Records) {
    forall k :: k in r.queued && k in r.sends ==> !r.sends[k].state.Submitting?
  }

  /** Nothing was accepted for `k`, nothing is on its way, and nobody may still write it. */
  ghost predicate NothingDispatched(s: System, k: Identity) {
    forall i :: Live(s, i) ==> IdentityOf(s, i) != k
  }

  // ---------------------------------------------------------------------------------------------
  // The invariant

  predicate HoldsClaim(p: Phase) { p.Admitted? || p.Awaiting? || p.Undispatched? }

  /** The operation's claim may still lead to an acceptance or a restored record, or led to an acceptance. */
  predicate Live(s: System, i: nat) { In(s, i) && (i in s.wire || i in s.turns || HoldsClaim(s.ops[i].phase)) }

  ghost predicate TokensDistinct(s: System) {
    && (forall i, j :: In(s, i) && In(s, j) && s.ops[i].claim == s.ops[j].claim ==> i == j)
    && (forall i :: In(s, i) ==> s.ops[i].claim != "")
  }

  /** Before it is written, and once it is known to be refused, a message is nowhere. */
  predicate Nowhere(s: System, i: nat) { i !in s.wire && i !in s.turns }

  ghost predicate ClaimsConsistent(s: System) {
    && s.wire <= s.ops.Keys && s.turns.Keys <= s.ops.Keys && s.replies.Keys <= s.ops.Keys
    && s.wire !! s.turns.Keys && s.wire !! s.replies.Keys
    && (forall i :: In(s, i) && (s.ops[i].phase.Idle? || s.ops[i].phase.Admitted?) ==>
          Nowhere(s, i) && i !in s.replies)
    && (forall i :: In(s, i) && (s.ops[i].phase.Undispatched? || s.ops[i].phase.QueueReady?) ==> Nowhere(s, i))
    && (forall i :: i in s.replies && s.replies[i].RefusedReply? ==> i !in s.turns)
    && (forall i :: i in s.replies && s.replies[i].AcceptedReply? ==> i in s.turns && s.turns[i] == s.replies[i].turn)
    && (forall i :: i in s.turns ==> s.turns[i] != "")
  }

  /** The record of `m` is what a live claim for it relies on. */
  predicate Submitted(r: Records, m: Message) {
    && m.identity in r.sends && !r.sends[m.identity].state.Prepared? && m.identity !in r.queued
    && r.sends[m.identity].binding == m.binding
  }

  ghost predicate LiveRecorded(s: System) {
    forall i :: Live(s, i) && IdentityOf(s, i) !in s.forgotten ==> Submitted(s.records, s.ops[i].message)
  }

  ghost predicate LiveUnique(s: System) {
    forall i, j :: Live(s, i) && Live(s, j) && SameMessage(s, i, j) ==> i == j
  }

  /** The turn that an operation holds to contain its message, or has answered its caller with. */
  function Named(p: Phase): Option<string> {
    if p.Proved? then Some(p.turn) else if p.Returned? && p.result.Sent? then Some(p.result.turn) else None
  }

  ghost predicate EvidenceTrue(s: System) {
    && (forall i :: In(s, i) && Named(s.ops[i].phase).Some? ==> Seen(s, IdentityOf(s, i), Named(s.ops[i].phase).value))
    && (forall k :: k in s.records.sends && s.records.sends[k].state.Accepted? ==> Seen(s, k, s.records.sends[k].turn))
  }

  predicate Queued(s: System, k: Identity) { k in s.records.queued || k in s.queueForgotten }

  ghost predicate QueueRemembered(s: System) {
    && (forall i :: In(s, i) && s.ops[i].phase.QueueReady? ==> Queued(s, IdentityOf(s, i)))
    && (forall k :: k in s.queueSent ==> Queued(s, k))
    && (forall k, t :: (k, t) in s.queueTurns ==> k in s.queueSent)
  }

  ghost predicate Inv(s: System) {
    && TokensDistinct(s) && ClaimsConsistent(s) && LiveRecorded(s) && LiveUnique(s)
    && EvidenceTrue(s) && QueueRemembered(s) && QueueExcludesSubmission(s.records)
  }
}
