/** The activity snapshot (codex/activity_snapshot.go:41-240, codex/activity.go:236-253): one pass over the turns of a
    thread that splits their time into working, waiting and unclassified parts, with a cache of the
    totals of the oldest turns. */
module ActivitySnapshot {
  import opened Prelude
  import opened ActivityTiming

  /** The metadata of a turn; a bound that is not known is 0. */
  datatype Turn = Turn(id: string, inProgress: bool, startedAt: nat, completedAt: nat, messages: nat, received: nat,
    toolCalls: nat, countsKnown: bool)

  datatype Live = Live(turn: string, state: Activity, active: bool, since: int, through: int, openWaiting: nat)

  /** What a snapshot reads besides the turns.  `failed` says that a checkpoint could not be stored. */
  datatype Sources = Sources(
    scope: string, now: nat, failed: bool, live: Option<Live>, checkpoint: map<string, TurnRecord>,
      summaries: map<string, TurnRecord>)

  datatype Totals = Totals(
    sent: int, received: int, toolCalls: int, working: int, waiting: int, open: int, between: int, unclassified: int,
    coverageStart: int, countsComplete: bool, coverageComplete: bool)

  // ---------------------------------------------------------------------------------------------
  // One turn

  /** The newer of the two stored records of a turn. */
  function RecordFor(e: Sources, id: string): Option<TurnRecord> {
    if id in e.summaries && (id !in e.checkpoint || e.summaries[id].sequence > e.checkpoint[id].sequence)
      then Some(e.summaries[id])
    else if id in e.checkpoint then Some(e.checkpoint[id])
    else None
  }

  function End(e: Sources, t: Turn): nat { if t.completedAt == 0 && t.inProgress then e.now else t.completedAt }

  predicate Bounded(e: Sources, t: Turn) { t.startedAt != 0 && End(e, t) != 0 && t.startedAt <= End(e, t) }

  /** The record can stand for the turn: it lies within its bounds and is about the same turn boundaries. */
  predicate Usable(e: Sources, t: Turn, r: TurnRecord) {
    && !r.boundsUnknown && r.timing.first >= t.startedAt && r.timing.through <= End(e, t)
    && (r.startedAt == 0 || r.startedAt == t.startedAt) && (r.completedAt == 0 || r.completedAt == t.completedAt)
    && r.timing.working + r.timing.waiting <= End(e, t) - t.startedAt
  }

  function UsableRecord(e: Sources, t: Turn): Option<TurnRecord> {
    var r := RecordFor(e, t.id);
    if r.Some? && Usable(e, t, r.value) then r else None
  }

  predicate IsOpen(e: Sources, t: Turn) {
    e.live.Some? && e.live.value.turn == t.id && e.live.value.state.Waiting? && e.live.value.active
  }

  /** How the time of a turn is split. */
  datatype Split = Split(working: int, waiting: int, open: int, unclassified: int, first: int)

  function SplitOf(e: Sources, t: Turn): Split
    requires Bounded(e, t)
  {
    var length, r := End(e, t) - t.startedAt, UsableRecord(e, t);
    if r.None? then Split(0, 0, 0, length, 0) else
    var m := r.value.timing;
    var open := if IsOpen(e, t) then Min(e.live.value.openWaiting, m.waiting) else 0;
    Split(m.working, m.waiting - open, open, length - (m.working + m.waiting), m.first)
  }

  function Earlier(start: int, first: int): int { if first > 0 && (start == 0 || first < start) then first else start }

  function Counted(r: Totals, t: Turn): Totals {
    r.(sent := r.sent + t.messages, received := r.received + t.received, toolCalls := r.toolCalls + t.toolCalls,
      countsComplete := r.countsComplete && t.countsKnown)
  }

  function Gap(turns: seq<Turn>, i: nat): int
    requires i < |turns|
  {
    if i > 0 && turns[i - 1].completedAt > 0
      && turns[i].startedAt > turns[i - 1].completedAt then turns[i].startedAt - turns[i - 1].completedAt else 0
  }

  function Added(r: Totals, s: Split): Totals {
    r.(working := r.working + s.working, waiting := r.waiting + s.waiting, open := r.open + s.open,
       unclassified := r.unclassified + s.unclassified, coverageStart := Earlier(r.coverageStart, s.first))
  }

  function AddTurn(e: Sources, turns: seq<Turn>, i: nat, r: Totals): Totals
    requires i < |turns|
  {
    var c := Counted(r, turns[i]);
    var b := c.(between := c.between + Gap(turns, i));
    if Bounded(e, turns[i]) then Added(b, SplitOf(e, turns[i])) else b.(coverageComplete := false)
  }

  function Start(e: Sources): Totals { Totals(0, 0, 0, 0, 0, 0, 0, 0, 0, e.scope != "unknown", !e.failed) }

  /** The totals of the first turns, computed from scratch. */
  function Fold(e: Sources, turns: seq<Turn>, n: nat): Totals
    requires n <= |turns|
  {
    if n == 0 then Start(e) else AddTurn(e, turns, n - 1, Fold(e, turns, n - 1))
  }

  // ---------------------------------------------------------------------------------------------
  // Time is conserved

  function Length(e: Sources, t: Turn): int { if Bounded(e, t) then End(e, t) - t.startedAt else 0 }

  function Lengths(e: Sources, turns: seq<Turn>, n: nat): int
    requires n <= |turns|
  {
    if n == 0 then 0 else Lengths(e, turns, n - 1) + Length(e, turns[n - 1])
  }

  function Gaps(turns: seq<Turn>, n: nat): int
    requires n <= |turns|
  {
    if n == 0 then 0 else Gaps(turns, n - 1) + Gap(turns, n - 1)
  }

  /** What the store accepts as a record. */
  predicate ValidRecords(e: Sources) {
    && (forall id :: id in e.checkpoint ==>
          e.checkpoint[id].timing.working >= 0 && e.checkpoint[id].timing.waiting >= 0)
    && (forall id :: id in e.summaries ==> e.summaries[id].timing.working >= 0 && e.summaries[id].timing.waiting >= 0)
  }

  lemma SplitConserves(e: Sources, t: Turn)
    requires ValidRecords(e) && Bounded(e, t)
    ensures var s := SplitOf(e, t);
            && s.working >= 0 && s.waiting >= 0 && s.open >= 0 && s.unclassified >= 0
            && s.working + s.waiting + s.open + s.unclassified == Length(e, t)
  {
  }

  /** The working, waiting, open and unclassified parts are never negative, and together they are exactly
      the lengths of the turns; the time between turns is kept apart. */
  lemma {:induction false} TimeIsConserved(e: Sources, turns: seq<Turn>, n: nat)
    requires ValidRecords(e) && n <= |turns|
    ensures var r := Fold(e, turns, n);
            && r.working >= 0 && r.waiting >= 0 && r.open >= 0 && r.unclassified >= 0
            && r.working + r.waiting + r.open + r.unclassified == Lengths(e, turns, n)
            && r.between == Gaps(turns, n)
  {
    if n > 0 {
      TimeIsConserved(e, turns, n - 1);
      if Bounded(e, turns[n - 1]) { SplitConserves(e, turns[n - 1]); }
    }
  }

  /** Turns in order, all but the last completed. */
  predicate InOrder(e: Sources, turns: seq<Turn>) {
    && (forall i :: 0 <= i < |turns| ==> Bounded(e, turns[i]))
    && (forall i :: 0 <= i < |turns| - 1 ==> turns[i].completedAt > 0 && turns[i].completedAt <= turns[i + 1].startedAt)
  }

  lemma {:induction false} Telescopes(e: Sources, turns: seq<Turn>, n: nat)
    requires InOrder(e, turns) && 0 < n <= |turns|
    ensures Lengths(e, turns, n) + Gaps(turns, n) == End(e, turns[n - 1]) - turns[0].startedAt
  {
    if n > 1 { Telescopes(e, turns, n - 1); }
  }

  // ---------------------------------------------------------------------------------------------
  // The rest of the snapshot

  datatype Snapshot = Snapshot(totals: Totals, state: Activity, since: int, open: int, idle: int,
    coverageComplete: bool)

  /** A live observation counts only when recording works and its turns are this thread's own. */
  function LiveOf(e: Sources, turns: seq<Turn>): Option<Live> {
    if e.failed || e.scope == "unknown" || (e.scope == "sinceFork" && turns == []) then None else e.live
  }

  function Effective(e: Sources, turns: seq<Turn>): Sources { e.(live := LiveOf(e, turns)) }

  function StateOf(e: Sources, turns: seq<Turn>): Activity {
    if e.scope == "unknown" then Unclassified
    else if LiveOf(e, turns).Some? then LiveOf(e, turns).value.state
    else if turns != [] && turns[|turns| - 1].inProgress then Unclassified
    else Idle
  }

  /** The display of the present state: how long a wait or an idle time has lasted. */
  function Finish(e: Sources, turns: seq<Turn>, r: Totals): Snapshot {
    var state, live := StateOf(e, turns), LiveOf(e, turns);
    var since := if live.Some? then live.value.since else 0;
    var open := if state.Waiting? && r.open == 0
      && live.Some? then Max(0, live.value.through - live.value.since) else r.open;
    var completedAt := if turns == [] then 0 else turns[|turns| - 1].completedAt;
    var idling := state.Idle? && turns != [] && completedAt > 0;
    var shown := if idling then Max(0, e.now - completedAt) else open;
    Snapshot(r, state, if idling then completedAt else since, shown, r.between + (if state.Idle? then shown else 0),
             r.coverageComplete && r.unclassified <= 0 && e.scope != "unknown")
  }

  /** The time from the creation of the thread to its first turn is idle time as well. */
  function IdleSinceCreation(e: Sources, turns: seq<Turn>, idle: int, createdAt: nat, complete: bool): int {
    var end := if turns == [] then e.now else turns[0].startedAt;
    if complete && e.scope != "unknown" && createdAt > 0 && end >= createdAt then idle + (end - createdAt) else idle
  }

  /** For turns in order, where the last one runs or idle time follows it, all the parts together are the
      time since the thread was created. */
  lemma AllTimeIsAccountedFor(e: Sources, turns: seq<Turn>, createdAt: nat)
    requires ValidRecords(e) && turns != [] && InOrder(e, turns) && 0 < createdAt <= turns[0].startedAt
    requires var last := turns[|turns| - 1];
             && (StateOf(e, turns).Idle? <==> last.completedAt > 0)
             && (last.completedAt > 0 ==> last.completedAt <= e.now)
    requires e.scope != "unknown"
    ensures var r := Fold(Effective(e, turns), turns, |turns|);
            var idle := IdleSinceCreation(e, turns, Finish(e, turns, r).idle, createdAt, true);
            r.working + r.waiting + r.open + r.unclassified + idle == e.now - createdAt
  {
    var f := Effective(e, turns);
    assert InOrder(f, turns) && ValidRecords(f);
    TimeIsConserved(f, turns, |turns|);
    Telescopes(f, turns, |turns|);
  }
}
