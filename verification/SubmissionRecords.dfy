/** The records of the submission ledger (codex/client.go, codex/send_delivery.go): what is kept for
    a message identity, and what each ledger transaction decides to do with it.

    A transaction reads the records, decides on a `Plan`, and writes once.  The write may fail before
    or after it became durable (a rename whose directory sync fails, a COMMIT whose reply is lost), so
    a failed write says nothing about the stored records.  Text and option digests are taken to be
    injective: a digest stands for the content it was computed from. */
module SubmissionRecords {
  import opened Prelude

  /** A message (or queued submission) inside a thread. */
  datatype Identity = Identity(thread: string, id: string)

  /** The action an identity is bound to when its attempt is recorded. */
  datatype Binding = Binding(digest: string, context: string, options: string, steered: bool)

  datatype SendState = Prepared | Submitting | Accepted

  datatype SendAttempt = SendAttempt(binding: Binding, state: SendState, turn: string, admission: string)

  datatype Receipt = Receipt(message: string, turn: string, steered: bool)

  datatype Deletion = Deletion(message: string, digest: string)

  datatype Records = Records(
    sends: map<Identity, SendAttempt>,
    queued: map<Identity, string>,
    deletions: map<Identity, Deletion>,
    operations: map<string, string>)

  datatype Error =
    | ReusedForAnotherAction
    | ReusedWithDifferentText
    | EarlierAttemptUnreconciled
    | AttemptDisappeared
    | IdentityChanged
    | AdmissionChanged
    | ReceiptMismatch
    | AcceptedByAnotherTurn
    | AcceptedBeforeSubmission
    | RejectedAttemptChanged
    | DeletionChanged
    | DeletionBoundToAnother
    | OperationBoundToAnother
    | NoScope
    | WriteFailed

  datatype Plan = Refuse(error: Error) | Unchanged | Change(next: Records)

  datatype WriteOutcome = Written | LostBefore | LostAfter

  datatype Outcome = Done | Failed(error: Error)

  const Empty := Records(map[], map[], map[], map[])

  /** The legacy JSON ledger does not store the admission claim; the database does. */
  function Persisted(database: bool, r: Records): Records {
    if database then r else r.(sends := map k | k in r.sends :: r.sends[k].(admission := ""))
  }

  /** What is stored, and what the caller is told, when `plan` meets one write. */
  function Settle(database: bool, r: Records, plan: Plan, w: WriteOutcome): (Records, Outcome) {
    match plan
    case Refuse(e) => (r, Failed(e))
    case Unchanged => (r, Done)
    case Change(next) =>
      match w
      case Written => (Persisted(database, next), Done)
      case LostBefore => (r, Failed(WriteFailed))
      case LostAfter => (Persisted(database, next), Failed(WriteFailed))
  }

  // ---------------------------------------------------------------------------------------------
  // Queue attempts and deletion intents

  function RecordQueuePlan(r: Records, k: Identity, digest: string): Plan {
    if k in r.queued then
      if r.queued[k] != digest then Refuse(ReusedWithDifferentText) else Unchanged
    else if k in r.sends && (!r.sends[k].state.Prepared? || r.sends[k].binding.steered
      || r.sends[k].binding.digest != digest) then
      Refuse(EarlierAttemptUnreconciled)
    else
      Change(r.(queued := r.queued[k := digest]))
  }

  function ClearQueuePlan(r: Records, k: Identity): Plan {
    if k in r.queued then Change(r.(queued := r.queued - {k})) else Unchanged
  }

  function RecordDeletionPlan(r: Records, target: Identity, wanted: Deletion): Plan {
    if target in r.deletions then
      if r.deletions[target] != wanted then Refuse(DeletionChanged) else Unchanged
    else
      Change(r.(deletions := r.deletions[target := wanted]))
  }

  /** A deleted queue entry takes its delegated, never submitted, send record with it. */
  predicate DelegatedSend(r: Records, k: Identity) {
    && k in r.sends && k in r.queued
    && r.sends[k].state.Prepared? && !r.sends[k].binding.steered && r.sends[k].binding.digest == r.queued[k]
  }

  function ClearDeletionPlan(r: Records, thread: string, queuedId: string, message: string): Plan {
    var target, k := Identity(thread, queuedId), Identity(thread, message);
    if target in r.deletions && r.deletions[target].message != message then
      Refuse(DeletionBoundToAnother)
    else
      Change(r.(
        deletions := r.deletions - {target},
        queued := r.queued - {k},
        sends := if DelegatedSend(r, k) then r.sends - {k} else r.sends))
  }

  // ---------------------------------------------------------------------------------------------
  // Send attempts

  function RecordSendPlan(r: Records, k: Identity, b: Binding, receipt: Option<Receipt>): Plan {
    var found := k in r.sends;
    if found && r.sends[k].binding != b then
      Refuse(ReusedForAnotherAction)
    else if receipt.None? then
      if found then Unchanged else Change(r.(sends := r.sends[k := SendAttempt(b, Prepared, "", "")]))
    else
      var p := receipt.value;
      var accepted := found && r.sends[k].state.Accepted?;
      if p.message != k.id || p.turn == "" || p.steered != b.steered || (accepted && r.sends[k].turn != p.turn) then
        Refuse(ReceiptMismatch)
      else if accepted then
        Unchanged
      else
        Change(r.(sends := r.sends[k := SendAttempt(b, Accepted, p.turn, "")]))
  }

  /** The atomic prepared-to-submitting claim; `wanted` is the exact action being claimed, if any. */
  function ClaimPlan(r: Records, k: Identity, wanted: Option<Binding>, claim: string): Plan {
    if k !in r.sends then
      Refuse(AttemptDisappeared)
    else if wanted.Some? && wanted.value != r.sends[k].binding then
      Refuse(IdentityChanged)
    else if !r.sends[k].state.Prepared? || k in r.queued then
      Refuse(AdmissionChanged)
    else
      Change(r.(sends := r.sends[k := r.sends[k].(state := Submitting, admission := claim)]))
  }

  function AcceptPlan(r: Records, k: Identity, p: Receipt): Plan {
    if k !in r.sends then
      Refuse(AttemptDisappeared)
    else if p.turn == "" || p.message != k.id || p.steered != r.sends[k].binding.steered then
      Refuse(ReceiptMismatch)
    else if r.sends[k].state.Accepted? then
      if r.sends[k].turn != p.turn then Refuse(AcceptedByAnotherTurn) else Unchanged
    else if !r.sends[k].state.Submitting? then
      Refuse(AcceptedBeforeSubmission)
    else
      Change(r.(sends := r.sends[k := r.sends[k].(state := Accepted, turn := p.turn)]))
  }

  /** Only the database compares the claim; an empty claim is never compared. */
  function RestorePlan(database: bool, r: Records, k: Identity, claim: string): Plan {
    if k !in r.sends || !r.sends[k].state.Submitting? || (database && claim != "" && r.sends[k].admission != claim) then
      Refuse(RejectedAttemptChanged)
    else
      Change(r.(sends := r.sends[k := r.sends[k].(state := Prepared, admission := "")]))
  }

  /** Retire an exact attempt that was never submitted. */
  function DiscardPlan(r: Records, k: Identity, digest: string, context: string, options: string): Plan {
    if k !in r.sends then
      Unchanged
    else
      var b := r.sends[k].binding;
      if b.digest != digest || b.context != context || b.options != options then
        Refuse(ReusedForAnotherAction)
      else if !r.sends[k].state.Prepared? || k in r.queued then
        Unchanged
      else
        Change(r.(sends := r.sends - {k}))
  }

  // ---------------------------------------------------------------------------------------------
  // Clearing whole conversations

  predicate InThread(thread: string, k: Identity) { k.thread == thread }

  function ForgetThread<V>(thread: string, m: map<Identity, V>): map<Identity, V> {
    map k | k in m && !InThread(thread, k) :: m[k]
  }

  function ClearConversationPlan(r: Records, thread: string, directory: string): Plan {
    if directory in r.operations && r.operations[directory] != thread then
      Refuse(OperationBoundToAnother)
    else
      var next := Records(
        ForgetThread(thread, r.sends), ForgetThread(thread, r.queued),
        ForgetThread(thread, r.deletions), r.operations - {directory});
      if next == r then Unchanged else Change(next)
  }

  /** A retired thread loses its attempts but keeps the markers of directories. */
  function ClearRetiredPlan(r: Records, thread: string): Plan {
    var next := r.(sends := ForgetThread(thread, r.sends), queued := ForgetThread(thread, r.queued),
      deletions := ForgetThread(thread, r.deletions));
    if next == r then Unchanged else Change(next)
  }

  /** A directory is bound to one thread for good; a stored binding is never blank. */
  function RecordOperationPlan(r: Records, directory: string, thread: string): Plan {
    if directory in r.operations then
      if r.operations[directory] != thread then Refuse(OperationBoundToAnother) else Unchanged
    else
      Change(r.(operations := r.operations[directory := thread]))
  }

  /** Messages that history shows, with their turns and texts, in the order in which they are visited. */
  datatype Acknowledgement = Acknowledgement(turns: map<string, string>, digests: map<string, string>,
    order: seq<string>)

  /** Why a message cannot be acknowledged. */
  function Contradiction(r: Records, thread: string, a: Acknowledgement, id: string): Option<Error> {
    var k := Identity(thread, id);
    if id !in a.turns || k !in r.sends then None
    else if id !in a.digests || r.sends[k].binding.digest != a.digests[id] then Some(IdentityChanged)
    else if r.sends[k].state.Accepted? && r.sends[k].turn != a.turns[id] then Some(AcceptedByAnotherTurn)
    else None
  }

  function FirstContradiction(r: Records, thread: string, a: Acknowledgement, order: seq<string>): (e: Option<Error>)
    ensures e.Some? <==> exists id :: id in order && Contradiction(r, thread, a, id).Some?
    ensures e.Some? ==> e.value.IdentityChanged? || e.value.AcceptedByAnotherTurn?
  {
    if order == [] then None
    else if Contradiction(r, thread, a, order[0]).Some? then Contradiction(r, thread, a, order[0])
    else FirstContradiction(r, thread, a, order[1..])
  }

  lemma ContradictionAt(r: Records, thread: string, a: Acknowledgement, i: nat)
    requires i < |a.order|
    ensures var here := Contradiction(r, thread, a, a.order[i]);
            FirstContradiction(r, thread, a, a.order[i..])
              == if here.Some? then here else FirstContradiction(r, thread, a, a.order[i + 1..])
  {
    assert a.order[i..][1..] == a.order[i + 1..];
  }

  type Sends = map<Identity, SendAttempt>

  /** The attempts that are left when those of some messages are dropped. */
  function Without(thread: string, ids: seq<string>, sends: Sends): Sends {
    map k | k in sends && !(k.thread == thread && k.id in ids) :: sends[k]
  }

  lemma WithoutNext(thread: string, ids: seq<string>, i: nat, sends: Sends)
    requires i < |ids|
    ensures Without(thread, ids[..i + 1], sends) == Without(thread, ids[..i], sends) - {Identity(thread, ids[i])}
  {
    assert ids[..i + 1] == ids[..i] + [ids[i]];
  }

  function Acknowledged(thread: string, a: Acknowledgement, sends: Sends): Sends {
    map k | k in sends && !(k.thread == thread && k.id in a.turns) :: sends[k]
  }

  function AcknowledgePlan(r: Records, thread: string, a: Acknowledgement): Plan {
    var refusal := FirstContradiction(r, thread, a, a.order);
    if refusal.Some? then Refuse(refusal.value) else
    var next := Acknowledged(thread, a, r.sends);
    if next == r.sends then Unchanged else Change(r.(sends := next))
  }
}
