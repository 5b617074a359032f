/** What the totals of a snapshot are, turn by turn (codex/activity_snapshot.go:155-240): sums over the stored records,
    the turns' lengths and the gaps between them. */
module ActivityTotals {
  import opened Prelude
  import opened ActivityTiming
  import opened ActivitySnapshot

  // ---------------------------------------------------------------------------------------------
  // One turn

  /** The turn has a start, and an end that is not before it: its completion or, while it runs, the present. */
  predicate Timed(now: nat, t: Turn) {
    0 < t.startedAt && (t.startedAt <= t.completedAt || (t.completedAt == 0 && t.inProgress && t.startedAt <= now))
  }

  function Stop(now: nat, t: Turn): nat { if t.completedAt > 0 then t.completedAt else now }

  /** The record lies within the turn, agrees with what it knows of the turn's bounds, and holds no more time than the
      turn has. */
  predicate Fits(now: nat, t: Turn, r: TurnRecord) {
    && !r.boundsUnknown && t.startedAt <= r.timing.first && r.timing.through <= Stop(now, t)
    && r.startedAt in {0, t.startedAt} && r.completedAt in {0, t.completedAt}
    && r.timing.working + r.timing.waiting <= Stop(now, t) - t.startedAt
  }

  /** The checkpoint has the record that counts: no summary is newer, and it fits. */
  predicate CheckpointCounts(e: Sources, t: Turn) {
    && Timed(e.now, t) && t.id in e.checkpoint && Fits(e.now, t, e.checkpoint[t.id])
    && (t.id in e.summaries ==> e.summaries[t.id].sequence <= e.checkpoint[t.id].sequence)
  }

  /** The summary is the record that counts: it is newer than that of the checkpoint, and fits. */
  predicate SummaryCounts(e: Sources, t: Turn) {
    && Timed(e.now, t) && t.id in e.summaries && Fits(e.now, t, e.summaries[t.id])
    && (t.id in e.checkpoint ==> e.checkpoint[t.id].sequence < e.summaries[t.id].sequence)
  }

  function KnownTiming(e: Sources, t: Turn): Timing {
    if CheckpointCounts(e, t) then e.checkpoint[t.id].timing
    else if SummaryCounts(e, t) then e.summaries[t.id].timing
    else NoTiming
  }

  function Worked(e: Sources, t: Turn): int { KnownTiming(e, t).working }

  function Waited(e: Sources, t: Turn): int { KnownTiming(e, t).waiting }

  /** The wait that goes on, of which the record holds no more than it has waited. */
  function OpenWait(e: Sources, t: Turn): int {
    if e.live.Some? && e.live.value.active && e.live.value.state == Waiting && e.live.value.turn == t.id
    then Min(e.live.value.openWaiting, Waited(e, t)) else 0
  }

  function Span(e: Sources, t: Turn): int { if Timed(e.now, t) then Stop(e.now, t) - t.startedAt else 0 }

  lemma SplitIs(e: Sources, t: Turn)
    requires ValidRecords(e)
    ensures Bounded(e, t) <==> Timed(e.now, t)
    ensures Bounded(e, t) ==>
              SplitOf(e, t) == Split(Worked(e, t), Waited(e, t) - OpenWait(e, t), OpenWait(e, t),
                                     Span(e, t) - Worked(e, t) - Waited(e, t), KnownTiming(e, t).first)
    ensures !Timed(e.now, t) ==> Worked(e, t) == Waited(e, t) == Span(e, t) == 0
    ensures !Timed(e.now, t) ==> OpenWait(e, t) == 0
  {
  }

  // ---------------------------------------------------------------------------------------------
  // All turns

  function Sum(f: Turn -> int, turns: seq<Turn>, n: nat): int
    requires n <= |turns|
  {
    if n == 0 then 0 else Sum(f, turns, n - 1) + f(turns[n - 1])
  }

  /** The time between two turns, when the first has ended before the second started. */
  function Between(t: Turn, u: Turn): int { if 0 < t.completedAt < u.startedAt then u.startedAt - t.completedAt else 0 }

  function AllBetween(turns: seq<Turn>, n: nat): int
    requires n <= |turns|
  {
    if n <= 1 then 0 else AllBetween(turns, n - 1) + Between(turns[n - 2], turns[n - 1])
  }

  predicate TimesAreSums(e: Sources, turns: seq<Turn>, n: nat, r: Totals)
    requires n <= |turns|
  {
    && r.working == Sum(t => Worked(e, t), turns, n)
    && r.waiting + r.open == Sum(t => Waited(e, t), turns, n)
    && r.open == Sum(t => OpenWait(e, t), turns, n)
    && r.working + r.waiting + r.open + r.unclassified == Sum(t => Span(e, t), turns, n)
    && r.between == AllBetween(turns, n)
  }

  predicate CountsAreSums(e: Sources, turns: seq<Turn>, n: nat, r: Totals)
    requires n <= |turns|
  {
    && r.sent == Sum((t: Turn) => t.messages, turns, n) && r.received == Sum((t: Turn) => t.received, turns, n)
    && r.toolCalls == Sum((t: Turn) => t.toolCalls, turns, n)
    && (r.countsComplete <==> e.scope != "unknown" && forall i :: 0 <= i < n ==> turns[i].countsKnown)
    && (r.coverageComplete <==> !e.failed && forall i :: 0 <= i < n ==> Timed(e.now, turns[i]))
  }

  lemma {:induction false} CountsSumUp(e: Sources, turns: seq<Turn>, n: nat)
    requires ValidRecords(e) && n <= |turns|
    ensures CountsAreSums(e, turns, n, Fold(e, turns, n))
  {
    if n > 0 {
      CountsSumUp(e, turns, n - 1);
      SplitIs(e, turns[n - 1]);
    }
  }

  /** The working time is what the records that count say, and so are the waiting time, open or not; the open
      wait is that of the turn that waits now; and what is left of the turns is unclassified. */
  lemma {:induction false} TotalsAreSums(e: Sources, turns: seq<Turn>, n: nat)
    requires ValidRecords(e) && n <= |turns|
    ensures TimesAreSums(e, turns, n, Fold(e, turns, n))
  {
    if n > 0 {
      TotalsAreSums(e, turns, n - 1);
      SplitIs(e, turns[n - 1]);
    }
  }

  /** The coverage starts with the earliest record that counts. */
  predicate StartsEarliest(e: Sources, turns: seq<Turn>, n: nat, start: int)
    requires n <= |turns|
  {
    && start >= 0
    && (forall i :: 0 <= i < n && KnownTiming(e, turns[i]).first > 0 ==> 0 < start <= KnownTiming(e, turns[i]).first)
    && (start > 0 ==> exists i :: 0 <= i < n && KnownTiming(e, turns[i]).first == start)
  }

  lemma {:induction false} CoverageStartsEarliest(e: Sources, turns: seq<Turn>, n: nat)
    requires ValidRecords(e) && n <= |turns|
    ensures StartsEarliest(e, turns, n, Fold(e, turns, n).coverageStart)
  {
    if n > 0 {
      CoverageStartsEarliest(e, turns, n - 1);
      SplitIs(e, turns[n - 1]);
      var before, now := Fold(e, turns, n - 1).coverageStart, Fold(e, turns, n).coverageStart;
      if now > 0 && now != before {
        assert KnownTiming(e, turns[n - 1]).first == now;
      } else if now > 0 {
        var i :| 0 <= i < n - 1 && KnownTiming(e, turns[i]).first == before;
      }
    }
  }

  /** Every total is what the turns and the stored records say. */
  predicate SumsUp(e: Sources, turns: seq<Turn>, r: Totals) {
    && TimesAreSums(e, turns, |turns|, r) && CountsAreSums(e, turns, |turns|, r)
    && StartsEarliest(e, turns, |turns|, r.coverageStart)
  }

  lemma FoldSumsUp(e: Sources, turns: seq<Turn>)
    requires ValidRecords(e)
    ensures SumsUp(e, turns, Fold(e, turns, |turns|))
  {
    TotalsAreSums(e, turns, |turns|);
    CountsSumUp(e, turns, |turns|);
    CoverageStartsEarliest(e, turns, |turns|);
  }

  // ---------------------------------------------------------------------------------------------
  // What is shown

  /** The observation is shown: recording works, and the turns are known to be the thread's own. */
  predicate ShowsLive(e: Sources, turns: seq<Turn>) {
    e.live.Some? && !e.failed && e.scope != "unknown" && !(e.scope == "sinceFork" && turns == [])
  }

  /** The last turn has ended. */
  predicate LastEnded(turns: seq<Turn>) { turns != [] && turns[|turns| - 1].completedAt > 0 }

  /** The state is that of the observation; without one it is idle, unless a turn runs or the turns are not known. */
  lemma StateExactlyWhen(e: Sources, turns: seq<Turn>)
    ensures ShowsLive(e, turns) ==> StateOf(e, turns) == e.live.value.state
    ensures !ShowsLive(e, turns) ==> StateOf(e, turns) == Unclassified || StateOf(e, turns) == Idle
    ensures !ShowsLive(e, turns) ==>
              (StateOf(e, turns) == Idle <==> e.scope != "unknown" && (turns == [] || !turns[|turns| - 1].inProgress))
  {
  }

  /** A snapshot shows how long the present state has lasted, counts idle time since the last turn on top of the time
      between turns, and says that it covers everything only when nothing is unclassified. */
  lemma ShownExactlyWhen(e: Sources, turns: seq<Turn>)
    requires ValidRecords(e)
    ensures var f, n := Effective(e, turns), |turns|;
            var r := Fold(f, turns, n);
            var s := Finish(e, turns, r);
            && s.state == StateOf(e, turns)
            && (s.state == Idle && LastEnded(turns) ==>
                  && s.since == turns[n - 1].completedAt && s.open == Max(0, e.now - turns[n - 1].completedAt)
                  && s.idle == AllBetween(turns, n) + s.open)
            && (s.state != Idle ==> s.idle == AllBetween(turns, n))
            && (s.state != Idle && ShowsLive(e, turns) ==> s.since == e.live.value.since)
            && (s.state == Waiting && r.open == 0 && ShowsLive(e, turns) ==>
                  s.open == Max(0, e.live.value.through - e.live.value.since))
            && (s.state == Waiting && r.open > 0 ==> s.open == Sum(t => OpenWait(f, t), turns, n))
            && (s.coverageComplete <==>
                  && !e.failed && e.scope != "unknown" && r.unclassified <= 0
                  && forall i :: 0 <= i < n ==> Timed(e.now, turns[i]))
  {
    assert ValidRecords(Effective(e, turns));
    TotalsAreSums(Effective(e, turns), turns, |turns|);
    CountsSumUp(Effective(e, turns), turns, |turns|);
  }
}
