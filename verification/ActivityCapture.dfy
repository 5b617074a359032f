/** What every event does to the activity recorder of a thread (codex/activity_recording.go,
    codex/activity.go:106-157), as functions. */
module ActivityCapture {
  import opened Prelude
  import opened ActivityTiming

  const PendingLimit := 128
  const SleepLimit := 43200000

  // ---------------------------------------------------------------------------------------------
  // Observations

  datatype Category = Approval | UserInput | Unsupported | UnknownCategory

  datatype RequestKind = ApprovalRequest | ElicitationRequest | UserInputRequest | OtherRequest

  function CategoryOf(kind: RequestKind): Category {
    match kind
    case ApprovalRequest => Approval
    case ElicitationRequest => Unsupported
    case UserInputRequest => UserInput
    case OtherRequest => UnknownCategory
  }

  predicate BlocksByDefault(kind: RequestKind) { kind.ApprovalRequest? || kind.UserInputRequest? }

  datatype Request = Request(turn: string, item: string, kind: RequestKind, blocking: bool, category: Category,
    openedAt: int)

  datatype Reason = Subagents | Sleep

  datatype ToolWait = ToolWait(turn: string, reason: Reason, until: int)

  datatype Flag = WaitingOnApproval | WaitingOnUserInput | OtherFlag

  datatype CurrentTurn = CurrentTurn(id: string, active: bool, ready: bool, startObserved: bool, workObserved: bool)

  datatype Pending = Pending(requests: map<string, Request>, toolWaits: map<string, ToolWait>, flags: seq<Flag>,
    overflow: bool)

  datatype Observation = Observation(
    connection: string, connected: bool, turn: CurrentTurn, pending: Pending,
    state: Activity, since: int, through: int, openWaiting: int, revision: nat)

  const NoTurn := CurrentTurn("", false, false, false, false)
  const NoPending := Pending(map[], map[], [], false)

  predicate Explained(flag: Flag, requests: map<string, Request>) {
    match flag
    case WaitingOnApproval => exists r :: r in requests && requests[r].category.Approval?
    case WaitingOnUserInput => exists r :: r in requests && requests[r].category.UserInput?
    case OtherFlag => true
  }

  predicate HasUnknown(requests: map<string, Request>) {
    exists r :: r in requests && requests[r].category.UnknownCategory?
  }

  predicate HasBlocking(requests: map<string, Request>) { exists r :: r in requests && requests[r].blocking }

  function ActivityState(turn: CurrentTurn, p: Pending): Activity {
    if p.overflow || HasUnknown(p.requests) then Unclassified
    else if HasBlocking(p.requests) || (turn.active && p.toolWaits != map[]) then Waiting
    else if !turn.ready || (exists f :: f in p.flags && !Explained(f, p.requests)) then Unclassified
    else if turn.active then Working
    else Idle
  }

  // ---------------------------------------------------------------------------------------------
  // Messages

  datatype ItemKind = SleepItem | OwnWait | OtherItem

  datatype TurnMetadata = TurnMetadata(bounds: Bounds, hasSleep: bool, countsKnown: bool, automaticWaits: map<string,
    ToolWait>)

  datatype Message =
    | ItemStarted(turn: string, item: string, kind: ItemKind, startedAt: int, duration: nat)
    | ItemCompleted(turn: string, item: string, kind: ItemKind)
    | Resolved(resolved: string)
    | TurnStarted(bounds: Bounds)
    | TurnCompleted(bounds: Bounds)
    | StatusChanged(active: bool, flags: seq<Flag>)
    | Requested(id: string, policy: RequestKind, turn: string, item: string, isBlocking: Option<bool>)

  predicate Ignored(m: Message, turn: CurrentTurn) {
    (m.ItemStarted? || m.ItemCompleted?) && (m.turn != turn.id || !turn.active || m.item == "" || m.kind.OtherItem?)
  }

  function Without(flags: seq<Flag>, flag: Flag): seq<Flag> {
    if flags == [] then [] else (if flags[0] == flag then [] else [flags[0]]) + Without(flags[1..], flag)
  }

  function WithoutTurn(requests: map<string, Request>, turn: string): map<string, Request> {
    map r | r in requests && requests[r].turn != turn :: requests[r]
  }

  /** A request was resolved; its flag goes with the last request of its category. */
  function Resolve(p: Pending, id: string): Pending {
    var rest := p.requests - {id};
    if id !in p.requests || (exists r :: r in rest && rest[r].category == p.requests[id].category) then
      p.(requests := rest)
    else
      p.(requests := rest, flags := Without(p.flags, if p.requests[id].category.UserInput? then WaitingOnUserInput
        else WaitingOnApproval))
  }

  /** Until when a tool wait lasts; only a sleep of at most half a day says so. */
  function WaitUntil(kind: ItemKind, startedAt: int, duration: nat, now: int): int {
    if kind.SleepItem? && 0 < duration <= SleepLimit
      then (if startedAt <= 0 || startedAt > now then now else startedAt) + duration else 0
  }

  function Opened(o: Observation, m: Message, now: int): Observation
    requires m.Requested?
  {
    var p := o.pending;
    if m.id in p.requests then o
    else if |p.requests| >= PendingLimit || |m.id| > 256 then
      o.(turn := o.turn.(ready := false), pending := p.(overflow := true))
    else
      var blocking := if m.policy.UserInputRequest?
        && m.isBlocking.Some? then m.isBlocking.value else BlocksByDefault(m.policy);
      o.(pending := p.(requests := p.requests[m.id := Request(m.turn, m.item, m.policy, blocking, CategoryOf(m.policy),
        now)]))
  }

  /** What a message changes in an observation. */
  function Reacted(o: Observation, m: Message, now: int): Observation {
    var p := o.pending;
    match m
    case ItemStarted(turn, item, kind, startedAt, duration) =>
      if |p.toolWaits| >= PendingLimit then o.(pending := p.(overflow := true))
      else
        var reason := if kind.SleepItem? then Sleep else Subagents;
        o.(pending := p.(toolWaits := p.toolWaits[item := ToolWait(turn, reason,
          WaitUntil(kind, startedAt, duration, now))]))
    case ItemCompleted(turn, item, kind) => o.(pending := p.(toolWaits := p.toolWaits - {item}))
    case Resolved(id) => o.(pending := Resolve(p, id))
    case TurnStarted(b) => o.(turn := CurrentTurn(b.id, true, true, true, false), pending := p.(toolWaits := map[]),
      openWaiting := 0)
    case TurnCompleted(b) =>
      var ended := o.turn.id == b.id;
      var toolWaits := if ended then map[] else p.toolWaits;
      o.(turn := if ended then o.turn.(active := false) else o.turn, openWaiting := if ended then 0 else o.openWaiting,
         pending := p.(requests := WithoutTurn(p.requests, b.id), toolWaits := toolWaits, flags := []))
    case StatusChanged(active, flags) =>
      var turn := if o.turn.active && active then o.turn.(workObserved := true, ready := true) else o.turn;
      o.(turn := turn, pending := p.(flags := flags))
    case Requested(_, _, _, _, _) => Opened(o, m, now)
  }

  /** The moment at which a message takes effect: turn boundaries have second precision, and are moved back
      to the second that the message names, but never before what was accounted for already. */
  function Boundary(o: Observation, m: Message, now: int): int {
    if m.TurnStarted? && o.connected && o.turn.ready && o.state.Idle? && 0 < m.bounds.startedAt <= now then
      Max(m.bounds.startedAt, o.through)
    else if m.TurnCompleted? && o.turn.id == m.bounds.id && 0 < m.bounds.completedAt < now then
      Max(m.bounds.completedAt, o.through)
    else
      now
  }

  // ---------------------------------------------------------------------------------------------
  // Recorders

  datatype Span = Span(from: int, to: int)

  /** What the records compress.  `log` holds every interval accrued, and `cut` is how much of it was taken back;
      `dark` holds the past times without a connection, `darkFrom` the start of the present one; `lost` holds the
      times that counted and were not accrued, `uncounted` those that did not count; and `mark` is the latest
      time that the recorder was carried through. */
  datatype Trail = Trail(log: seq<Interval>, cut: int, copies: map<string, nat>, dark: seq<Span>, darkFrom: int,
    mark: int, lost: seq<Span>, uncounted: seq<Span>)

  type Turns = map<string, TurnRecord>

  function KeyOf(t: Trail, id: string): Key { Key(id, CopyOf(t.copies, id)) }

  function RecordOf(turns: Turns, id: string): TurnRecord { if id in turns then turns[id] else NoRecord }

  // ---------------------------------------------------------------------------------------------
  // Accounting for time

  predicate Counts(o: Observation) {
    o.connected && o.turn.active && o.turn.id != "" && (o.state.Working? || o.state.Waiting?)
  }

  /** The counted time up to a moment that accruing drops: the turn has no record and there is no room for one, its
      record is final, or the time precedes the start of the turn. */
  function Unaccounted(live: Option<Observation>, turns: Turns, now: int): seq<Span> {
    if live.None? || !Counts(live.value) || now <= live.value.through then [] else
    var o, r := live.value, RecordOf(turns, live.value.turn.id);
    if Blocked(turns, o.turn.id) || r.final then [Span(o.through, now)]
    else if o.through < r.startedAt then [Span(o.through, Min(r.startedAt, now))]
    else []
  }

  function Lengths(spans: seq<Span>): int {
    if spans == [] then 0 else spans[0].to - spans[0].from + Lengths(spans[1..])
  }

  /** The observation once the time up to now is accounted for; one that has no room for its record is not classified
      any more, and an open wait goes on. */
  function Accounted(o: Observation, turns: Turns, now: int): (u: Observation)
    ensures u.connection == o.connection && u.connected == o.connected && u.pending == o.pending
    ensures u.turn == o.turn.(ready := u.turn.ready) && u.through == Max(now, o.through)
  {
    var to, r := Max(now, o.through), RecordOf(turns, o.turn.id);
    if Counts(o) && Blocked(turns, o.turn.id) then
      o.(turn := o.turn.(ready := false), state := Unclassified, through := to)
    else if Counts(o) && o.state.Waiting? && !r.final then
      o.(openWaiting := o.openWaiting + Max(to - Max(o.through, r.startedAt), 0), through := to)
    else o.(through := to)
  }

  /** The time that carrying an observation on leaves unaccounted for. */
  function Skipped(o: Observation, now: int): seq<Span> {
    if Counts(o) && o.through < now then [Span(o.through, now)] else []
  }

  predicate Blocked(turns: Turns, id: string) { id !in turns && |turns| >= PendingLimit }

  /** The interval that accruing up to a moment adds, if it adds one. */
  function Accrual(live: Option<Observation>, turns: Turns, t: Trail, now: int): seq<Interval> {
    if live.None? || !Counts(live.value) then [] else
    var o := live.value;
    var r := RecordOf(turns, o.turn.id);
    var from := Max(o.through, r.startedAt);
    if Blocked(turns, o.turn.id) || r.final
      || now <= from then [] else [Interval(KeyOf(t, o.turn.id), o.state, from, now)]
  }

  /** A connected time that does not count. */
  function Uncounted(o: Observation, now: int): seq<Span> {
    if o.connected && !Counts(o) && o.through < now then [Span(o.through, now)] else []
  }

  /** The message brings bounds for a record that is in memory or that there is room for. */
  predicate TakesBounds(turns: Turns, m: Message) {
    (m.TurnStarted? && !Blocked(turns, m.bounds.id)) || (m.TurnCompleted? && m.bounds.id in turns)
  }

  /** The message says that the current turn completed, at a time before now. */
  predicate Completes(m: Message, turn: string, now: int) {
    m.TurnCompleted? && m.bounds.id == turn && 0 < m.bounds.completedAt < now
  }

  /** Until when the current turn counts: now, or when the turn list says that it ended before. */
  function EndOf(o: Observation, metadata: map<string, TurnMetadata>, now: int): int {
    if o.turn.id in metadata && 0 < metadata[o.turn.id].bounds.completedAt < now
    then Max(metadata[o.turn.id].bounds.completedAt, o.through) else now
  }

  function Reconciled(r: TurnRecord, metadata: map<string, TurnMetadata>, id: string): TurnRecord {
    if id in metadata then ApplyMetadata(r, metadata[id].bounds) else r.(final := true, sequence := r.sequence + 1)
  }

  /** The turns by id; the last of several with one id counts. */
  function ById(history: seq<TurnMetadata>): map<string, TurnMetadata>
    decreases |history|
  {
    if history == [] then map[] else
    var last := history[|history| - 1];
    ById(history[..|history| - 1])[last.bounds.id := last]
  }

  function OpenRequests(requests: map<string, Request>, metadata: map<string, TurnMetadata>): map<string, Request> {
    map r | r in requests && !(requests[r].turn in metadata
      && Ended(metadata[requests[r].turn].bounds.status)) :: requests[r]
  }

  function Cleared(o: Observation, metadata: map<string, TurnMetadata>): Observation {
    o.(pending := o.pending.(requests := OpenRequests(o.pending.requests, metadata)))
  }

  /** The observation once it met the turn list. */
  function Listed(o: Observation, history: seq<TurnMetadata>, active: bool, flags: seq<Flag>): Observation {
    Cleared(Resumed(o, history, active, flags), ById(history))
  }

  /** What the latest turn and the thread's status say about the current turn. */
  function Resumed(o: Observation, history: seq<TurnMetadata>, active: bool, flags: seq<Flag>): Observation {
    if history == [] then
      o.(turn := CurrentTurn("", false, true, o.turn.startObserved && o.turn.id == "", o.turn.workObserved
        && o.turn.id == ""),
         pending := o.pending.(flags := flags, toolWaits := map[]), openWaiting := if o.turn.id == ""
           then o.openWaiting else 0)
    else
      var latest := history[|history| - 1];
      var same := o.turn.id == latest.bounds.id;
      var running := latest.bounds.status.InProgress?;
      var startObserved := o.turn.startObserved && same;
      var workObserved := (o.turn.workObserved && same) || (running && active);
      var ready := running ==> !latest.hasSleep || startObserved || workObserved;
      var waits := if same && running then o.pending.toolWaits else map[];
      o.(turn := CurrentTurn(latest.bounds.id, running, ready, startObserved, workObserved),
         pending := o.pending.(flags := flags, toolWaits := if running then Automatic(waits, latest) else map[]),
         openWaiting := if same then o.openWaiting else 0)
  }

  function Automatic(waits: map<string, ToolWait>, latest: TurnMetadata): map<string, ToolWait> {
    (map id | id in waits && !(latest.countsKnown && waits[id].reason.Subagents?) :: waits[id]) + latest.automaticWaits
  }

  // ---------------------------------------------------------------------------------------------
  // What an event does

  /** The observation of a thread, the records in memory, and the trail. */
  datatype Recorder = Recorder(live: Option<Observation>, turns: Turns, trail: Trail)

  const Fresh := Recorder(None, map[], Trail([], 0, map[], [], 1, 1, [], []))

  predicate Up(r: Recorder) { r.live.Some? && r.live.value.connected }

  /** The observation is about this connection. */
  predicate On(r: Recorder, connection: string) { r.live.Some? && r.live.value.connection == connection }

  /** Carry the trail through a moment without accruing. */
  function Carried(t: Trail, o: Observation, now: int): Trail {
    t.(lost := t.lost + Skipped(o, now), uncounted := t.uncounted + Uncounted(o, now), mark := Max(now, t.mark))
  }

  function Darkened(t: Trail): Trail { t.(darkFrom := t.mark) }

  function NewObservation(connection: string, now: int): Observation {
    Observation(connection, false, NoTurn, NoPending, Unclassified, now, now, 0, 0)
  }

  function ObservationStep(r: Recorder, connection: string, now: int): (q: Recorder)
    ensures On(q, connection)
  {
    if On(r, connection) then r
    else if Up(r) then
      r.(live := Some(NewObservation(connection, now)), trail := Darkened(Carried(r.trail, r.live.value, now)))
    else
      r.(live := Some(NewObservation(connection, now)), trail := r.trail.(mark := Max(now, r.trail.mark)))
  }

  /** The record once an interval was charged to it. */
  function ChargedRecord(r: TurnRecord, id: string, state: Activity, from: int, to: int): TurnRecord {
    if from < to then r.(id := id, sequence := r.sequence + 1, timing := Add(r.timing, state, from, to))
    else r.(id := id)
  }

  function Charged(turns: Turns, o: Observation, now: int): Turns {
    var r := RecordOf(turns, o.turn.id);
    if !Counts(o) || Blocked(turns, o.turn.id) || r.final then turns
    else turns[o.turn.id := ChargedRecord(r, o.turn.id, o.state, Max(o.through, r.startedAt), Max(now, o.through))]
  }

  function AccruedTrail(r: Recorder, now: int): Trail
    requires r.live.Some?
  {
    var t, o := r.trail, r.live.value;
    t.(log := t.log + Accrual(r.live, r.turns, t, now), lost := t.lost + Unaccounted(r.live, r.turns, now),
       uncounted := t.uncounted + Uncounted(o, now), mark := Max(now, t.mark))
  }

  function AccrueStep(r: Recorder, now: int): (q: Recorder)
    ensures q.live.Some? == r.live.Some? && Up(q) == Up(r)
    ensures q.live.Some? ==> q.live.value.connection == r.live.value.connection
  {
    if !Up(r) then r else
    Recorder(Some(Accounted(r.live.value, r.turns, now)), Charged(r.turns, r.live.value, now), AccruedTrail(r, now))
  }

  function MetadataTrail(t: Trail, r: TurnRecord, id: string, b: Bounds): Trail {
    t.(log := AfterMetadata(r, b, t.log, KeyOf(t, id)), cut := t.cut + CutOff(r, b, t.log, KeyOf(t, id)))
  }

  function MetadataStep(r: Recorder, id: string, b: Bounds): Recorder {
    var record := RecordOf(r.turns, id);
    r.(turns := r.turns[id := ApplyMetadata(record, b)], trail := MetadataTrail(r.trail, record, id, b))
  }

  function Updated(o: Observation, now: int): Observation {
    var state := ActivityState(o.turn, o.pending);
    var u := if state != o.state then o.(openWaiting := 0, state := state, since := now) else o;
    u.(through := Max(o.through, now))
  }

  function UpdateStep(r: Recorder, now: int): (q: Recorder)
    requires r.live.Some?
    ensures q.live.Some? && Up(q) == Up(r) && q.live.value.connection == r.live.value.connection
  {
    r.(live := Some(Updated(r.live.value, now)), trail := Carried(r.trail, r.live.value, now))
  }

  /** The connection is up from now on. */
  function LitStep(r: Recorder, now: int): (q: Recorder)
    requires r.live.Some?
    ensures q.live.Some? && Up(q) && q.live.value.connection == r.live.value.connection
  {
    if Up(r) then r else
    var mark := Max(now, r.trail.mark);
    r.(live := Some(r.live.value.(connected := true, through := Max(r.live.value.through, now))),
       trail := r.trail.(dark := r.trail.dark + [Span(r.trail.darkFrom, mark)], mark := mark))
  }

  function ConnectedStep(r: Recorder, connection: string, now: int): Recorder {
    UpdateStep(LitStep(ObservationStep(r, connection, now), now), now)
  }

  function DisconnectedStep(r: Recorder, connection: string, now: int): Recorder {
    if !On(r, connection) then r
    else if Up(r) then r.(live := None, trail := Darkened(Carried(r.trail, r.live.value, now)))
    else r.(live := None)
  }

  function ReactStep(r: Recorder, m: Message, now: int): (q: Recorder)
    requires r.live.Some?
    ensures q.live.Some? && Up(q) == Up(r) && q.live.value.connection == r.live.value.connection
  {
    var o := Reacted(r.live.value, m, now);
    var q := r.(live := Some(o.(revision := r.live.value.revision + 1)));
    if TakesBounds(r.turns, m) then MetadataStep(q, m.bounds.id, m.bounds) else q
  }

  /** A message takes effect at its boundary: what came before is accounted for under the old state. */
  function EffectStep(r: Recorder, m: Message, now: int): (q: Recorder)
    requires r.live.Some?
    ensures q.live.Some? && Up(q) == Up(r) && q.live.value.connection == r.live.value.connection
  {
    var boundary := Boundary(r.live.value, m, now);
    UpdateStep(ReactStep(AccrueStep(r, boundary), m, now), boundary)
  }

  /** A message to an observation; the time after the boundary counts under the new state. */
  function MessageStep(r: Recorder, m: Message, now: int): (q: Recorder)
    requires r.live.Some?
    ensures q.live.Some? && Up(q) == Up(r) && q.live.value.connection == r.live.value.connection
  {
    if Ignored(m, r.live.value.turn) then r
    else if Boundary(r.live.value, m, now) < now then AccrueStep(EffectStep(r, m, now), now)
    else EffectStep(r, m, now)
  }

  function ObserveStep(r: Recorder, connection: string, m: Message, now: int): (q: Recorder)
    ensures On(q, connection)
  {
    MessageStep(ObservationStep(r, connection, now), m, now)
  }

  /** The turns whose records are cut where the turn list says that they ended. */
  function CutsOf(turns: Turns, metadata: map<string, TurnMetadata>, ids: set<string>): map<string, int> {
    map id | id in ids && id in turns && id in metadata && Shortens(turns[id], metadata[id].bounds) ::
      metadata[id].bounds.completedAt
  }

  /** Every record meets the turn list. */
  function RecordsStep(r: Recorder, metadata: map<string, TurnMetadata>): Recorder {
    var cuts := CutsOf(r.turns, metadata, r.turns.Keys);
    r.(turns := map id | id in r.turns :: Reconciled(r.turns[id], metadata, id),
       trail := r.trail.(log := Trimmed(r.trail.log, cuts, r.trail.copies),
                         cut := r.trail.cut + Taken(r.trail.log, cuts, r.trail.copies)))
  }

  function ListStep(r: Recorder, history: seq<TurnMetadata>, active: bool, flags: seq<Flag>): (q: Recorder)
    requires r.live.Some?
    ensures q.live.Some? && Up(q) == Up(r) && q.live.value.connection == r.live.value.connection
  {
    var metadata := ById(history);
    var o := Listed(r.live.value, history, active, flags);
    var q := RecordsStep(r.(live := Some(o)), metadata);
    var id := o.turn.id;
    if id in metadata && !Blocked(q.turns, id) && (id in q.turns || o.turn.active)
    then MetadataStep(q, id, metadata[id].bounds) else q
  }

  /** The recorder before its state is brought up to date by a turn list. */
  function ReconcilingStep(
    r: Recorder, history: seq<TurnMetadata>, active: bool, flags: seq<Flag>, now: int, revision: nat): (q: Recorder)
    requires r.live.Some?
    ensures q.live.Some? && Up(q) == Up(r) && q.live.value.connection == r.live.value.connection
  {
    var q := AccrueStep(r, EndOf(r.live.value, ById(history), now));
    if q.live.value.revision == revision then ListStep(q, history, active, flags) else q
  }

  function ReconcileStep(
    r: Recorder, connection: string, history: seq<TurnMetadata>, active: bool, flags: seq<Flag>, now: int,
    revision: nat): Recorder
  {
    if !On(r, connection) || !Up(r) then r
    else UpdateStep(ReconcilingStep(r, history, active, flags, now, revision), now)
  }

  /** The writer stored a final record and drops it from memory; its turn gets another copy. */
  function ForgetStep(r: Recorder, id: string): Recorder {
    r.(turns := r.turns - {id}, trail := r.trail.(copies := r.trail.copies[id := CopyOf(r.trail.copies, id) + 1]))
  }
}
