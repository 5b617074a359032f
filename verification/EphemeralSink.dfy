/** The sink of an ephemeral turn (codex/ephemeral.go): it buffers notifications that arrive before the
    turn is bound, replays them on bind, and says whether a failed turn is safe to retry. */
module EphemeralSink {
  import opened Prelude
  import opened EphemeralEvidence

  datatype Failure = Protocol | Isolation | Server

  /** What the sink is bound to; an empty turn is not bound yet. */
  datatype Owner = Owner(generation: nat, thread: string, turn: string, issued: bool)

  datatype Answer = Answer(id: string, text: string)

  /** What the evidence so far comes to. */
  datatype Verdict = Verdict(
    err: Option<Failure>,
    ambiguous: bool,
    revoked: bool,
    cleanupTurn: string,
    answer: Option<Answer>,
    completed: bool,
    terminal: bool,
    transient: bool,
    settled: bool,
    evidence: Evidence)

  datatype State = State(own: Owner, events: seq<Frame>, v: Verdict)

  const EventLimit := 32
  const OutputLimit := 16 * 1024

  // ---------------------------------------------------------------------------------------------
  // Rejecting evidence

  function Blame(v: Verdict, f: Failure): Verdict { if v.err.None? then v.(err := Some(f)) else v }

  /** Reject for good: nothing that follows can make the turn safe to retry. */
  function Revoke(v: Verdict, f: Failure): Verdict { Blame(v.(revoked := true, transient := false), f) }

  predicate OwnError(o: Owner, cleanupTurn: string, p: Params) {
    && p.Params? && p.thread.Some? && p.turnId.Some? && ValidId(p.thread.value) && ValidId(p.turnId.value)
    && o.issued && p.thread.value == o.thread
    && (o.turn == "" || p.turnId.value == o.turn) && (cleanupTurn == "" || p.turnId.value == cleanupTurn)
  }

  /** An error notification that is well formed, whoever it is about. */
  predicate ShapedError(p: Params) {
    p.Params? && p.willRetry.Some? && p.error.Some? && !Classify(p.error.value).InvalidError?
  }

  /** An error notification is evidence only before the turn settled, and only about this turn. */
  function RejectError(o: Owner, v: Verdict, p: Params): (Verdict, bool) {
    if !v.settled && OwnError(o, v.cleanupTurn, p) && ShapedError(p) then
      (v, false)
    else
      (v.(ambiguous := v.ambiguous || !(v.settled || OwnError(o, v.cleanupTurn, p)),
          transient := false, revoked := true, err := Some(Protocol)), true)
  }

  predicate TurnMethod(m: Method) { m.TurnStarted? || m.TurnCompleted? }

  /** The turn that a message names; empty when it names none. */
  function TurnNamed(m: Method, p: Params): string {
    if p.NotAnObject? then ""
    else if TurnMethod(m) then (if p.turn.Some? then p.turn.value.id else "")
    else (if p.turnId.Some? then p.turnId.value else "")
  }

  /** The message has the shape that a turn identity may be read from, and names this thread. */
  predicate Identifies(thread: string, m: Method, p: Params) {
    && p.Params? && p.thread == Some(thread)
    && (if TurnMethod(m) then
          p.turn.Some? && p.turn.value.items.Some? && (m.TurnStarted? ==> p.turn.value.status.InProgress?)
        else
          p.item.Some? && ValidId(p.item.value.id) && ValidId(p.item.value.kind))
    && ValidId(TurnNamed(m, p))
  }

  /** The message cannot be about this turn. */
  predicate Foreign(o: Owner, cleanupTurn: string, m: Method, p: Params) {
    || !Identifies(o.thread, m, p)
    || (cleanupTurn != "" && cleanupTurn != TurnNamed(m, p)) || (o.turn != "" && o.turn != TurnNamed(m, p))
  }

  function NoteIdentity(o: Owner, v: Verdict, m: Method, p: Params): Verdict {
    if !o.issued then v else Noted(v, Foreign(o, v.cleanupTurn, m, p), TurnNamed(m, p))
  }

  function Noted(v: Verdict, foreign: bool, turn: string): Verdict {
    if foreign then Blame(v.(ambiguous := true), Protocol) else v.(cleanupTurn := turn)
  }

  function ItemFault(v: Verdict, item: Item, completed: bool): Option<Failure> {
    if item.isolated then
      Some(Isolation)
    else if !ValidId(item.id) || !ValidId(item.kind) then
      Some(Protocol)
    else if !item.agentMessage || !completed || item.phase.Commentary? then
      None
    else if !item.phase.FinalAnswer? || item.text.None? || !(0 < |item.text.value| <= OutputLimit)
      || (v.answer.Some? && v.answer.value != Answer(item.id, item.text.value))
      || (v.settled && v.terminal && v.answer.None?) then
      Some(Protocol)
    else
      None
  }

  /** The first fault among the items of a completion. */
  function ItemsFault(v: Verdict, items: seq<Option<Item>>): Option<Failure> {
    if items == [] then None
    else if items[0].None? then Some(Protocol)
    else if ItemFault(v, items[0].value, true).Some? then ItemFault(v, items[0].value, true)
    else ItemsFault(v, items[1..])
  }

  predicate FinalStatus(status: Status) { status.Completed? || status.Failed? || status.Interrupted? }

  predicate ShapedTurn(turn: Turn) {
    FinalStatus(turn.status) && (turn.error.Some? ==> !Classify(turn.error.value).InvalidError?) && turn.items.Some?
  }

  function CompletionFault(v: Verdict, turn: Turn): Option<Failure> {
    if v.completed || !ShapedTurn(turn) then Some(Protocol)
    else if ItemsFault(v, turn.items.value).Some? then ItemsFault(v, turn.items.value)
    else if v.settled && v.terminal && CompletionEvidence(turn) != v.evidence then Some(Protocol)
    else None
  }

  /** What is wrong with a message other than an error notification, once its identity was noted. */
  function Fault(v: Verdict, m: Method, p: Params): Option<Failure> {
    if v.ambiguous || p.NotAnObject? then Some(Protocol)
    else if TurnMethod(m) then
      if p.turn.None? then Some(Protocol)
      else if m.TurnStarted? then (if v.settled then Some(Protocol) else None)
      else CompletionFault(v, p.turn.value)
    else if p.item.None? then Some(Protocol)
    else ItemFault(v, p.item.value, m.ItemCompleted?)
  }

  /** Runs before any earlier failure is considered, both on delivery and on replay. */
  function RejectEvidence(o: Owner, v: Verdict, m: Method, p: Params): (Verdict, bool) {
    if m.ErrorNote? then
      RejectError(o, v, p)
    else
      var noted := NoteIdentity(o, v, m, p);
      Judged(noted, Fault(noted, m, p))
  }

  function Judged(v: Verdict, fault: Option<Failure>): (Verdict, bool) {
    if fault.Some? then (Revoke(v, fault.value), true) else (v, false)
  }

  // ---------------------------------------------------------------------------------------------
  // Consuming evidence for a bound turn

  function TakeItem(v: Verdict, item: Item): Verdict {
    var fault := ItemFault(v, item, true);
    if fault.Some? then
      v.(revoked := true, transient := false, err := Some(fault.value))
    else if v.err.None? && item.agentMessage && item.phase.FinalAnswer? && item.text.Some? then
      v.(answer := Some(Answer(item.id, item.text.value)))
    else
      v
  }

  function TakeItems(v: Verdict, items: seq<Option<Item>>): Verdict
    decreases |items|
  {
    if items == [] then v
    else if items[0].None? then v.(err := Some(Protocol))
    else
      var t := TakeItem(v, items[0].value);
      if t.err.Some? then t else TakeItems(t, items[1..])
  }

  function TakeError(v: Verdict, willRetry: bool, grade: ErrorClass): Verdict {
    if willRetry then
      v
    else
      var transient := grade.TransientError? && (v.terminal ==> v.transient);
      v.(terminal := true, transient := transient, err := if transient then v.err else Some(Server))
  }

  /** Whether a failed turn was transient, given its own error and the errors that came before. */
  function FailedTransiently(v: Verdict, turn: Turn): bool {
    if turn.error.None? then v.terminal && v.transient
    else Classify(turn.error.value).TransientError? && (v.terminal ==> v.transient)
  }

  function Settle(v: Verdict, turn: Turn): Verdict {
    if !turn.status.Completed? then
      v.(terminal := true, transient := FailedTransiently(v, turn), settled := true,
         evidence := CompletionEvidence(turn), err := Some(Server))
    else if v.terminal then
      v.(settled := true, transient := false, err := Some(Server))
    else if v.completed then
      v.(settled := true, err := Some(Protocol))
    else
      v.(settled := true, completed := true)
  }

  function TakeCompletion(v: Verdict, turn: Turn): Verdict
    requires turn.items.Some?
  {
    var t := TakeItems(v, turn.items.value);
    if t.err.Some? then t else Settle(t, turn)
  }

  /** What a message that was not rejected holds for a bound turn. */
  datatype Content = Nothing | Malformed | AnError(willRetry: bool,
    grade: ErrorClass) | AnItem(item: Item) | ACompletion(turn: Turn)

  function ContentOf(o: Owner, m: Method, p: Params): Content {
    if m.TurnStarted? || m.ItemStarted? then Nothing
    else if p.NotAnObject? || p.thread != Some(o.thread) then Malformed
    else if m.ErrorNote? then (if ShapedError(p) then AnError(p.willRetry.value, Classify(p.error.value))
      else Malformed)
    else if TurnNamed(m, p) != o.turn then Malformed
    else if m.ItemCompleted? then (if p.item.Some? then AnItem(p.item.value) else Malformed)
    else if p.turn.Some? && p.turn.value.items.Some? then ACompletion(p.turn.value)
    else Malformed
  }

  /** The second half of consumeLocked: the message was not rejected and nothing has failed yet. */
  function Take(v: Verdict, content: Content): Verdict {
    match content
    case Nothing => v
    case Malformed => v.(err := Some(Protocol))
    case AnError(willRetry, grade) => TakeError(v, willRetry, grade)
    case AnItem(item) => TakeItem(v, item)
    case ACompletion(turn) => if turn.items.Some? then TakeCompletion(v, turn) else v.(err := Some(Protocol))
  }

  function Consume(o: Owner, v: Verdict, m: Method, p: Params): Verdict {
    var (t, rejected) := RejectEvidence(o, v, m, p);
    if rejected || t.err.Some? then t else Take(t, ContentOf(o, m, p))
  }

  // ---------------------------------------------------------------------------------------------
  // Delivery, binding and verdicts

  function HandleNotification(s: State, m: Method, p: Params): State {
    if m.OtherMethod? then s else
    var (t, rejected) := RejectEvidence(s.own, s.v, m, p);
    if rejected || t.err.Some? then s.(v := t)
    else if s.own.thread != "" && s.own.turn != "" then s.(v := Consume(s.own, t, m, p))
    else if |s.events| >= EventLimit then s.(v := t.(err := Some(Protocol)))
    else s.(v := t, events := s.events + [Notification(m, p)])
  }

  function Handle(s: State, generation: nat, frame: Frame): State {
    var t := if s.own.generation == 0 then s.(own := s.own.(generation := generation)) else s;
    if t.own.generation != generation then
      t.(v := Revoke(t.v.(ambiguous := true), Protocol))
    else
      match frame
      case Reply => t
      case ServerRequest => t.(v := Revoke(t.v, Isolation))
      case Notification(m, p) => HandleNotification(t, m, p)
  }

  function Replay(o: Owner, v: Verdict, events: seq<Frame>): Verdict
    decreases |events|
  {
    if events == [] then v
    else if events[0].Notification? then Replay(o, Consume(o, v, events[0].kind, events[0].params), events[1..])
    else Replay(o, v, events[1..])
  }

  predicate Misbinds(s: State, generation: nat, thread: string, turn: string) {
    || s.own.generation != generation || (s.own.thread != "" && s.own.thread != thread)
    || (s.own.turn != "" && s.own.turn != turn)
    || (turn != "" && s.v.cleanupTurn != "" && s.v.cleanupTurn != turn)
  }

  function Bind(s: State, generation: nat, thread: string, turn: string): State {
    if Misbinds(s, generation, thread, turn) then
      s.(v := s.v.(ambiguous := true, err := Some(Protocol)))
    else
      var own := s.own.(thread := thread, turn := turn);
      if turn == "" then s.(own := own) else State(own, [], Replay(own, s.v, s.events))
  }

  predicate CanBegin(s: State, generation: nat, thread: string) {
    s.v.err.None? && s.own.generation == generation && s.own.thread == thread && !s.own.issued
  }

  predicate CanRetry(s: State, generation: nat, thread: string, turn: string) {
    && !s.v.revoked && s.v.transient && s.v.terminal && s.v.settled && !s.v.ambiguous
    && s.own.generation == generation && s.own.thread == thread && s.own.turn == turn && turn != ""
  }

  function Success(s: State): Option<string> {
    if s.v.err.None? && s.v.completed && s.v.answer.Some? then Some(s.v.answer.value.text) else None
  }

  const NoVerdict := Verdict(None, false, false, "", None, false, false, false, false, NoEvidence)

  /** A sink whose thread is bound and whose turn was requested. */
  function Begun(generation: nat, thread: string): State { State(Owner(generation, thread, "", true), [], NoVerdict) }

  function Deliver(s: State, trace: seq<Arrival>): State
    decreases |trace|
  {
    if trace == [] then s else Deliver(Handle(s, trace[0].generation, trace[0].frame), trace[1..])
  }
}
