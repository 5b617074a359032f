/** What each message and each turn list says about what is pending and about the turn that runs
    (codex/activity_recording.go:195-305, 355-425), entry by entry. */
module ActivityMessages {
  import opened Prelude
  import opened ActivityTiming
  import opened ActivityCapture
  import opened ActivityRecording
  import opened ActivityAccounting

  // ---------------------------------------------------------------------------------------------
  // Requests

  /** What kind of wait a request stands for. */
  predicate Files(kind: RequestKind, category: Category) {
    match kind
    case ApprovalRequest => category == Approval
    case UserInputRequest => category == UserInput
    case ElicitationRequest => category == Unsupported
    case OtherRequest => category == UnknownCategory
  }

  /** Approvals hold a turn up, and so do questions unless they say otherwise. */
  predicate Holds(m: Message)
    requires m.Requested?
  {
    m.policy == ApprovalRequest || (m.policy == UserInputRequest && (m.isBlocking.None? || m.isBlocking.value))
  }

  /** A new request is open from now on, unless there is no room for it; then nothing can be told any more. */
  lemma RequestOpensExactlyWhen(o: Observation, m: Message, now: int)
    requires m.Requested?
    ensures var p, q := o.pending, Reacted(o, m, now).pending;
            if m.id in p.requests then Reacted(o, m, now) == o
            else if |p.requests| < 128 && |m.id| <= 256 then
              && q == p.(requests := q.requests) && q.requests.Keys == p.requests.Keys + {m.id}
              && (forall x :: x in p.requests ==> q.requests[x] == p.requests[x])
              && q.requests[m.id].turn == m.turn && q.requests[m.id].item == m.item && q.requests[m.id].openedAt == now
              && (q.requests[m.id].blocking <==> Holds(m)) && Files(m.policy, q.requests[m.id].category)
              && Reacted(o, m, now).turn == o.turn
            else q == p.(overflow := true) && Reacted(o, m, now).turn == o.turn.(ready := false)
  {
  }

  lemma {:induction false} WithoutExactly(flags: seq<Flag>, f: Flag)
    ensures f !in Without(flags, f)
    ensures forall g :: g != f ==> multiset(Without(flags, f))[g] == multiset(flags)[g]
    decreases |flags|
  {
    if flags != [] {
      WithoutExactly(flags[1..], f);
      assert flags == [flags[0]] + flags[1..];
      var head := if flags[0] == f then [] else [flags[0]];
      assert Without(flags, f) == head + Without(flags[1..], f);
      assert multiset(Without(flags, f)) == multiset(head) + multiset(Without(flags[1..], f));
    }
  }

  /** Another request of the same kind is open. */
  predicate HasAnother(p: Pending, id: string)
    requires id in p.requests
  {
    exists x :: x != id && x in p.requests && p.requests[x].category == p.requests[id].category
  }

  /** The flag that reports waiting for a request. */
  function FlagOf(category: Category): Flag { if category == UserInput then WaitingOnUserInput else WaitingOnApproval }

  /** A resolved request is open no more, and the flag of its kind goes with the last one of that kind. */
  lemma ResolvedExactly(o: Observation, id: string, now: int)
    ensures var p, q := o.pending, Reacted(o, Resolved(id), now).pending;
            && q.requests == p.requests - {id} && q.toolWaits == p.toolWaits && q.overflow == p.overflow
            && Reacted(o, Resolved(id), now).turn == o.turn
            && (id in p.requests && !HasAnother(p, id) ==>
                  var f := FlagOf(p.requests[id].category);
                  f !in q.flags && forall g :: g != f ==> multiset(q.flags)[g] == multiset(p.flags)[g])
            && (id !in p.requests || HasAnother(p, id) ==> q.flags == p.flags)
  {
    var p := o.pending;
    if id in p.requests {
      WithoutExactly(p.flags, FlagOf(p.requests[id].category));
      var rest := p.requests - {id};
      if HasAnother(p, id) {
        var x :| x != id && x in p.requests && p.requests[x].category == p.requests[id].category;
        assert x in rest && rest[x].category == p.requests[id].category;
      } else {
        assert forall x :: x in rest ==> x != id && x in p.requests;
      }
    }
  }

  // ---------------------------------------------------------------------------------------------
  // Tool waits

  /** A sleep of at most twelve hours says when it ends; it starts when it says so, unless that cannot be. */
  function Until(m: Message, now: int): int
    requires m.ItemStarted?
  {
    if m.kind != SleepItem || m.duration == 0 || m.duration > 12 * 60 * 60 * 1000 then 0
    else if 0 < m.startedAt <= now then m.startedAt + m.duration
    else now + m.duration
  }

  lemma ToolWaitsExactly(o: Observation, m: Message, now: int)
    requires m.ItemStarted? || m.ItemCompleted?
    ensures var p, u := o.pending, Reacted(o, m, now);
            u == o.(pending :=
              if m.ItemCompleted? then p.(toolWaits := p.toolWaits - {m.item})
              else if |p.toolWaits| >= 128 then p.(overflow := true)
              else
                var reason := if m.kind == SleepItem then Sleep else Subagents;
                p.(toolWaits := p.toolWaits[m.item := ToolWait(m.turn, reason, Until(m, now))]))
  {
  }

  /** Only items of the turn that runs, with an id, that sleep or wait for agents are taken notice of. */
  lemma IgnoredExactlyWhen(m: Message, turn: CurrentTurn)
    ensures Ignored(m, turn) <==>
            (m.ItemStarted? || m.ItemCompleted?) &&
            !(turn.active && m.turn == turn.id && m.item != "" && (m.kind == SleepItem || m.kind == OwnWait))
  {
  }

  // ---------------------------------------------------------------------------------------------
  // Turns

  /** A turn that starts is the one that runs, seen from its start, and waits for no tool yet. */
  lemma TurnStartsExactly(o: Observation, b: Bounds, now: int)
    ensures var u := Reacted(o, TurnStarted(b), now);
            && u.turn.id == b.id && u.turn.active && u.turn.ready && u.turn.startObserved && !u.turn.workObserved
            && u.pending == o.pending.(toolWaits := map[]) && u.openWaiting == 0
  {
  }

  /** A turn that completes takes its requests and every flag along; if it is the one that runs, that one has ended. */
  lemma TurnCompletesExactly(o: Observation, b: Bounds, now: int)
    ensures var u := Reacted(o, TurnCompleted(b), now);
            && (forall x :: x in u.pending.requests <==> x in o.pending.requests && o.pending.requests[x].turn != b.id)
            && (forall x :: x in u.pending.requests ==> u.pending.requests[x] == o.pending.requests[x])
            && u.pending.flags == [] && u.pending.overflow == o.pending.overflow
            && (o.turn.id == b.id ==>
                  u.turn == o.turn.(active := false) && u.pending.toolWaits == map[] && u.openWaiting == 0)
            && (o.turn.id != b.id ==>
                  u.turn == o.turn && u.pending.toolWaits == o.pending.toolWaits && u.openWaiting == o.openWaiting)
  {
  }

  /** The status replaces the flags; an active one shows that the turn that runs works. */
  lemma StatusExactly(o: Observation, active: bool, flags: seq<Flag>, now: int)
    ensures var u := Reacted(o, StatusChanged(active, flags), now);
            && u.pending == o.pending.(flags := flags)
            && u.turn == if active && o.turn.active then o.turn.(ready := true, workObserved := true) else o.turn
  {
  }

  // ---------------------------------------------------------------------------------------------
  // Turn lists

  /** The last turn of the list is the one observed, and runs if it is in progress. */
  predicate IsLatest(turn: CurrentTurn, history: seq<TurnMetadata>) {
    if history == [] then turn.id == "" && !turn.active else
    var latest := history[|history| - 1].bounds;
    turn.id == latest.id && (turn.active <==> latest.status == InProgress)
  }

  /** The list says of a turn, in its last entry for it, that it has ended. */
  predicate SaysEnded(history: seq<TurnMetadata>, id: string) {
    id in ById(history) && ById(history)[id].bounds.status in {Completed, Failed, Interrupted}
  }

  lemma {:induction false} ByIdIsLast(history: seq<TurnMetadata>, id: string)
    ensures id in ById(history) <==> exists i :: 0 <= i < |history| && history[i].bounds.id == id
    ensures id in ById(history) ==>
              exists i :: 0 <= i < |history| && ById(history)[id] == history[i] && history[i].bounds.id == id
                && forall j :: i < j < |history| ==> history[j].bounds.id != id
    decreases |history|
  {
    if history != [] {
      var init, last := history[..|history| - 1], history[|history| - 1];
      ByIdIsLast(init, id);
      if last.bounds.id == id {
        assert ById(history)[id] == last;
      } else if id in ById(init) {
        var i :| 0 <= i < |init| && ById(init)[id] == init[i] && init[i].bounds.id == id
          && forall j :: i < j < |init| ==> init[j].bounds.id != id;
        assert history[i] == init[i] && forall j :: i < j < |history| ==> history[j].bounds.id != id;
      }
    }
  }

  /** After a turn list, the observation is about its last turn; requests of turns that ended are closed, the flags are
      those of the status, and tool waits belong to a turn that runs on. */
  lemma ListedExactly(o: Observation, history: seq<TurnMetadata>, active: bool, flags: seq<Flag>)
    ensures var u := Listed(o, history, active, flags);
            && IsLatest(u.turn, history) && u.pending.flags == flags
            && (forall x :: x in u.pending.requests <==>
                  x in o.pending.requests && !SaysEnded(history, o.pending.requests[x].turn))
            && (forall x :: x in u.pending.requests ==> u.pending.requests[x] == o.pending.requests[x])
            && (!u.turn.active ==> u.pending.toolWaits == map[] && u.turn.ready)
            && (u.turn.id != o.turn.id ==> u.openWaiting == 0)
            && (u.turn.id == o.turn.id ==> u.openWaiting == o.openWaiting)
            && (u.turn.startObserved <==> o.turn.startObserved && u.turn.id == o.turn.id)
            && (u.turn.workObserved <==> (o.turn.workObserved && u.turn.id == o.turn.id) || (u.turn.active && active))
  {
  }

  /** The turn that runs on keeps its tool waits, but for those whose end is now known, and gets those that the list
      shows; it was seen to work if it never slept, or was seen from its start or since. */
  lemma RunningExactly(o: Observation, history: seq<TurnMetadata>, active: bool, flags: seq<Flag>)
    requires history != [] && history[|history| - 1].bounds.status == InProgress
    ensures var u, latest := Listed(o, history, active, flags), history[|history| - 1];
            && (u.turn.ready <==> !latest.hasSleep || u.turn.startObserved || u.turn.workObserved)
            && (forall w :: w in u.pending.toolWaits <==>
                  || w in latest.automaticWaits
                  || (&& w in o.pending.toolWaits && latest.bounds.id == o.turn.id
                      && !(latest.countsKnown && o.pending.toolWaits[w].reason == Subagents)))
            && (forall w :: w in u.pending.toolWaits ==>
                  u.pending.toolWaits[w] ==
                    if w in latest.automaticWaits then latest.automaticWaits[w] else o.pending.toolWaits[w])
  {
  }

  // ---------------------------------------------------------------------------------------------
  // The boundaries of turns

  /** A turn that starts while nothing runs counts from the second that its message names, or from what was
      accounted for already. */
  lemma StartIsBackdated(r: Recorder, m: Message, now: int)
    requires Clocked(r) && Up(r) && r.live.value.turn.ready && r.live.value.state.Idle?
    requires m.TurnStarted? && 0 < m.bounds.startedAt <= now && Max(m.bounds.startedAt, r.trail.mark) < now
    requires m.bounds.id != "" && !(m.bounds.id !in r.turns && |r.turns| >= 128)
    requires !ApplyMetadata(RecordOf(r.turns, m.bounds.id), m.bounds).final
    ensures var q, u := MessageStep(r, m, now), EffectStep(r, m, now);
            u.live.value.state.Working? || u.live.value.state.Waiting? ==>
              && q.trail.log == u.trail.log + [Interval(KeyOf(u.trail, m.bounds.id), u.live.value.state,
                                                        Max(m.bounds.startedAt, r.trail.mark), now)]
              && u.trail.lost == r.trail.lost && q.trail.lost == r.trail.lost
  {
    var u := EffectStep(r, m, now);
    assert Charged(r.turns, r.live.value, Max(m.bounds.startedAt, r.trail.mark)) == r.turns;
    assert u.live.value.turn.id == m.bounds.id && u.live.value.through == Max(m.bounds.startedAt, r.trail.mark);
    assert Skipped(r.live.value, now) == [] && u.trail.lost == r.trail.lost;
  }

  /** The work of a turn that completed earlier is on record up to its completion. */
  lemma EndIsBackdated(r: Recorder, m: Message, now: int)
    requires Clocked(r) && Up(r) && Counts(r.live.value)
    requires m.TurnCompleted? && m.bounds.id == r.live.value.turn.id && r.trail.mark < m.bounds.completedAt < now
    requires !Blocked(r.turns, m.bounds.id) && !RecordOf(r.turns, m.bounds.id).final
    requires RecordOf(r.turns, m.bounds.id).startedAt <= r.trail.mark
    ensures AccrueStep(r, Boundary(r.live.value, m, now)).trail.log == r.trail.log +
              [Interval(KeyOf(r.trail, m.bounds.id), r.live.value.state, r.trail.mark, m.bounds.completedAt)]
  {
  }

  /** A turn that the list says ended earlier is charged up to then, and any other up to now. */
  lemma ListCharges(r: Recorder, history: seq<TurnMetadata>, now: int)
    requires Clocked(r) && Up(r) && Counts(r.live.value) && r.trail.mark < now
    requires !Blocked(r.turns, r.live.value.turn.id) && !RecordOf(r.turns, r.live.value.turn.id).final
    requires RecordOf(r.turns, r.live.value.turn.id).startedAt <= r.trail.mark
    ensures var id := r.live.value.turn.id;
            var to := if id in ById(history) && 0 < ById(history)[id].bounds.completedAt < now
                      then ById(history)[id].bounds.completedAt else now;
            AccrueStep(r, EndOf(r.live.value, ById(history), now)).trail.log == r.trail.log +
              if r.trail.mark < to then [Interval(KeyOf(r.trail, id), r.live.value.state, r.trail.mark, to)] else []
  {
  }

  // ---------------------------------------------------------------------------------------------
  // Records

  /** A turn for whose record there is no room is not classified any more; any other keeps its state. */
  lemma NoRoomIsUnclassified(r: Recorder, now: int)
    requires Up(r)
    ensures var o, u := r.live.value, AccrueStep(r, now).live.value;
            if Counts(o) && o.turn.id !in r.turns && |r.turns| >= 128
            then u.state == Unclassified && u.turn == o.turn.(ready := false)
            else u.state == o.state && u.turn == o.turn
  {
  }

  /** What accruing changes in the records: the times of the record of the turn that is observed, under a new
      sequence if there is time to add. */
  lemma AccrueCharges(r: Recorder, now: int, id: string)
    requires Up(r)
    ensures var o, turns := r.live.value, AccrueStep(r, now).turns;
            var was := RecordOf(r.turns, id);
            if Counts(o) && id == o.turn.id && !(id !in r.turns && |r.turns| >= 128) && !was.final then
              && id in turns && turns[id] == was.(id := id, sequence := turns[id].sequence, timing := turns[id].timing)
              && (if Max(o.through, was.startedAt) < now then turns[id].sequence == was.sequence + 1
                  else turns[id].sequence == was.sequence && turns[id].timing == was.timing)
            else (id in turns <==> id in r.turns) && (id in turns ==> turns[id] == r.turns[id])
  {
  }

  /** A record whose turn is not in the list any more becomes final as it is; one whose turn is takes its
      bounds, and that of the turn observed takes them once more. */
  lemma RecordsExactly(r: Recorder, history: seq<TurnMetadata>, active: bool, flags: seq<Flag>, id: string)
    requires r.live.Some?
    ensures var turns, metadata := ListStep(r, history, active, flags).turns, ById(history);
            var o := Listed(r.live.value, history, active, flags);
            var again := id == o.turn.id && id in metadata;
            && (id in r.turns && id !in metadata ==>
                  id in turns && turns[id] == r.turns[id].(final := true, sequence := r.turns[id].sequence + 1))
            && (id in r.turns && id in metadata && !again ==>
                  id in turns && turns[id] == ApplyMetadata(r.turns[id], metadata[id].bounds))
            && (id in r.turns && again ==>
                  id in turns && turns[id] ==
                    ApplyMetadata(ApplyMetadata(r.turns[id], metadata[id].bounds), metadata[id].bounds))
            && (id !in r.turns && id in turns ==>
                  again && o.turn.active && turns[id] == ApplyMetadata(NoRecord, metadata[id].bounds))
            && (id !in r.turns && again && o.turn.active && |r.turns| < 128 ==> id in turns)
  {
    var metadata := ById(history);
    var q := RecordsStep(r.(live := Some(Listed(r.live.value, history, active, flags))), metadata);
    assert q.turns.Keys == r.turns.Keys;
    assert |q.turns| == |q.turns.Keys| == |r.turns.Keys| == |r.turns|;
  }
}
