/** When a turn works and when it waits (codex/activity.go:113-157), and that every interval on record was accrued
    while that held (codex/activity_recording.go). */
module ActivityRules {
  import opened Prelude
  import opened ActivityTiming
  import opened ActivityCapture
  import opened ActivityRecording
  import opened ActivityAccounting

  // ---------------------------------------------------------------------------------------------
  // The rules

  /** What is pending cannot be told: there was too much of it, or a request of an unknown kind is open. */
  predicate Unreadable(p: Pending) {
    p.overflow || exists r :: r in p.requests && p.requests[r].category == UnknownCategory
  }

  /** A request is open that holds the turn up. */
  predicate HeldUp(p: Pending) { exists r :: r in p.requests && p.requests[r].blocking }

  predicate HasRequest(p: Pending, category: Category) {
    exists r :: r in p.requests && p.requests[r].category == category
  }

  /** Every wait that the server reports is one for a request that is open. */
  predicate FlagsExplained(p: Pending) {
    && (WaitingOnApproval in p.flags ==> HasRequest(p, Approval))
    && (WaitingOnUserInput in p.flags ==> HasRequest(p, UserInput))
  }

  /** A blocking request is open, or the turn that runs waits for a tool. */
  predicate MustWait(o: Observation) {
    !Unreadable(o.pending) && (HeldUp(o.pending) || (o.turn.active && exists w :: w in o.pending.toolWaits))
  }

  /** A turn runs and was seen to, nothing holds it up, and no reported wait is unexplained. */
  predicate MayWork(o: Observation) {
    && !Unreadable(o.pending) && !HeldUp(o.pending) && o.turn.active && o.turn.ready
    && (forall w :: w !in o.pending.toolWaits) && FlagsExplained(o.pending)
  }

  predicate MayIdle(o: Observation) {
    !Unreadable(o.pending) && !HeldUp(o.pending) && !o.turn.active && o.turn.ready && FlagsExplained(o.pending)
  }

  /** The state is the one that the rules give. */
  predicate Exact(o: Observation) {
    (o.state == Waiting <==> MustWait(o)) && (o.state == Working <==> MayWork(o)) && (o.state == Idle <==> MayIdle(o))
  }

  /** A state that says something is one that the rules give. */
  predicate Lawful(o: Observation) {
    (o.state == Waiting ==> MustWait(o)) && (o.state == Working ==> MayWork(o)) && (o.state == Idle ==> MayIdle(o))
  }

  predicate LawfulRecorder(r: Recorder) { r.live.Some? ==> Lawful(r.live.value) }

  lemma StateFollowsRules(o: Observation)
    requires o.state == ActivityState(o.turn, o.pending)
    ensures Exact(o)
  {
  }

  lemma UpdateExact(r: Recorder, now: int)
    requires r.live.Some?
    ensures Exact(UpdateStep(r, now).live.value)
  {
    StateFollowsRules(UpdateStep(r, now).live.value);
  }

  /** The event brings the state up to date, and its last accrual found room for the record of the turn. */
  predicate BringsUpToDate(r: Recorder, e: Event) {
    match e
    case Connect(_, _) => true
    case Receive(connection, m, now) =>
      var q := ObservationStep(r, connection, now);
      && !Ignored(m, q.live.value.turn)
      && (Up(q) && Boundary(q.live.value, m, now) < now ==>
            var u := EffectStep(q, m, now); !(Counts(u.live.value) && Blocked(u.turns, u.live.value.turn.id)))
    case Reconcile(connection, _, _, _, _, _) => On(r, connection) && Up(r)
    case _ => false
  }

  /** After every event that brings it up to date, the state is exactly the one that the rules give. */
  lemma StateExactlyWhen(r: Recorder, e: Event)
    requires BringsUpToDate(r, e)
    ensures Apply(r, e).live.Some? && Exact(Apply(r, e).live.value)
  {
    match e
    case Connect(connection, now) => UpdateExact(LitStep(ObservationStep(r, connection, now), now), now);
    case Receive(connection, m, now) =>
      var q := ObservationStep(r, connection, now);
      var boundary := Boundary(q.live.value, m, now);
      UpdateExact(ReactStep(AccrueStep(q, boundary), m, now), boundary);
    case Reconcile(connection, history, active, flags, now, revision) =>
      UpdateExact(ReconcilingStep(r, history, active, flags, now, revision), now);
    case _ =>
  }

  lemma AccrueLawful(r: Recorder, now: int)
    requires LawfulRecorder(r)
    ensures LawfulRecorder(AccrueStep(r, now))
  {
  }

  /** No event ever leaves a state that the rules do not give; at most it is left unclassified. */
  lemma LawfulStep(r: Recorder, e: Event)
    requires LawfulRecorder(r)
    ensures LawfulRecorder(Apply(r, e))
  {
    if BringsUpToDate(r, e) {
      StateExactlyWhen(r, e);
    } else if e.Receive? {
      var q := ObservationStep(r, e.connection, e.now);
      if !Ignored(e.message, q.live.value.turn) {
        var boundary := Boundary(q.live.value, e.message, e.now);
        UpdateExact(ReactStep(AccrueStep(q, boundary), e.message, e.now), boundary);
        AccrueLawful(EffectStep(q, e.message, e.now), e.now);
      }
    }
  }

  // ---------------------------------------------------------------------------------------------
  // Every interval was accrued by the rules

  /** What an accrual adds, and the observation under which it does. */
  datatype Accrued = Accrued(o: Observation, x: Interval)

  function AccruedIn(r: Recorder, now: int): seq<Accrued> {
    if !Up(r) then [] else
    var added := Accrual(r.live, r.turns, r.trail, now);
    if added == [] then [] else [Accrued(r.live.value, added[0])]
  }

  /** What a message accrues: under the state before it up to its boundary, and then under the new one. */
  function MessageAccruals(r: Recorder, m: Message, now: int): seq<Accrued>
    requires r.live.Some?
  {
    if Ignored(m, r.live.value.turn) then [] else
    var boundary := Boundary(r.live.value, m, now);
    AccruedIn(r, boundary) + if boundary < now then AccruedIn(EffectStep(r, m, now), now) else []
  }

  function AccrualsIn(r: Recorder, e: Event): seq<Accrued> {
    match e
    case Receive(connection, m, now) => MessageAccruals(ObservationStep(r, connection, now), m, now)
    case Reconcile(connection, history, _, _, now, _) =>
      if On(r, connection) && Up(r) then AccruedIn(r, EndOf(r.live.value, ById(history), now)) else []
    case _ => []
  }

  /** The interval is on record for the turn that was observed, as working or as waiting by the rules. */
  predicate ByTheRules(a: Accrued) {
    && a.x.key.turn == a.o.turn.id && a.o.connected && a.o.turn.active && a.o.through <= a.x.from < a.x.to
    && (a.x.state == Waiting || a.x.state == Working)
    && (a.x.state == Waiting ==> MustWait(a.o)) && (a.x.state == Working ==> MayWork(a.o))
  }

  predicate AllByTheRules(accruals: seq<Accrued>) { forall i :: 0 <= i < |accruals| ==> ByTheRules(accruals[i]) }

  lemma AccruedByTheRules(r: Recorder, now: int)
    requires LawfulRecorder(r)
    ensures AllByTheRules(AccruedIn(r, now))
  {
  }

  lemma MessageByTheRules(r: Recorder, m: Message, now: int)
    requires LawfulRecorder(r) && r.live.Some?
    ensures AllByTheRules(MessageAccruals(r, m, now))
  {
    if !Ignored(m, r.live.value.turn) {
      var boundary := Boundary(r.live.value, m, now);
      AccruedByTheRules(r, boundary);
      UpdateExact(ReactStep(AccrueStep(r, boundary), m, now), boundary);
      AccruedByTheRules(EffectStep(r, m, now), now);
    }
  }

  /** Whatever an event accrues is on record by the rules. */
  lemma AccrualsByTheRules(r: Recorder, e: Event)
    requires LawfulRecorder(r)
    ensures AllByTheRules(AccrualsIn(r, e))
  {
    match e
    case Receive(connection, m, now) => MessageByTheRules(ObservationStep(r, connection, now), m, now);
    case Reconcile(connection, history, _, _, now, _) =>
      if On(r, connection) && Up(r) { AccruedByTheRules(r, EndOf(r.live.value, ById(history), now)); }
    case _ =>
  }

  /** What is left of an interval after its end was taken back. */
  predicate PartOf(x: Interval, y: Interval) {
    x.key == y.key && x.state == y.state && x.from == y.from && x.to <= y.to
  }

  predicate Among(x: Interval, log: seq<Interval>) { exists i :: 0 <= i < |log| && PartOf(x, log[i]) }

  predicate AmongAccruals(x: Interval, accruals: seq<Accrued>) {
    exists i :: 0 <= i < |accruals| && PartOf(x, accruals[i].x) && ByTheRules(accruals[i])
  }

  predicate Stems(log: seq<Interval>, from: seq<Interval>) { forall j :: 0 <= j < |log| ==> Among(log[j], from) }

  lemma StemsFromItself(log: seq<Interval>)
    ensures Stems(log, log)
  {
    forall j | 0 <= j < |log| ensures Among(log[j], log) { assert PartOf(log[j], log[j]); }
  }

  lemma AmongChain(x: Interval, log: seq<Interval>, from: seq<Interval>)
    requires Among(x, log) && Stems(log, from)
    ensures Among(x, from)
  {
    var i :| 0 <= i < |log| && PartOf(x, log[i]);
    var k :| 0 <= k < |from| && PartOf(log[i], from[k]);
    assert PartOf(x, from[k]);
  }

  lemma StemsChain(a: seq<Interval>, b: seq<Interval>, c: seq<Interval>)
    requires Stems(a, b) && Stems(b, c)
    ensures Stems(a, c)
  {
    forall j | 0 <= j < |a| ensures Among(a[j], c) { AmongChain(a[j], b, c); }
  }

  lemma ClipStems(log: seq<Interval>, key: Key, at: int)
    ensures Stems(Clip(log, key, at), log)
  {
    forall j | 0 <= j < |Clip(log, key, at)| ensures Among(Clip(log, key, at)[j], log) {
      ClipElements(log, key, at, j);
      var x := Clip(log, key, at)[j];
      var i :| 0 <= i < |log| && x == log[i].(to := x.to) && x.to <= log[i].to;
      assert PartOf(x, log[i]);
    }
  }

  lemma {:induction false} TrimmedStems(log: seq<Interval>, cuts: map<string, int>, copies: map<string, nat>)
    ensures Stems(Trimmed(log, cuts, copies), log)
    decreases |log|
  {
    if log != [] {
      var rest, x, left := log[..|log| - 1], log[|log| - 1], Trimmed(log, cuts, copies);
      TrimmedStems(rest, cuts, copies);
      forall j | 0 <= j < |left| ensures Among(left[j], log) {
        if j < |Trimmed(rest, cuts, copies)| {
          assert left[j] == Trimmed(rest, cuts, copies)[j];
          var i :| 0 <= i < |rest| && PartOf(left[j], rest[i]);
          assert rest[i] == log[i];
        } else {
          assert PartOf(left[j], log[|log| - 1]);
        }
      }
    }
  }

  /** Every interval is left of one that was there, or of one that was accrued. */
  predicate Grown(log: seq<Interval>, from: seq<Interval>, accruals: seq<Accrued>) {
    forall j :: 0 <= j < |log| ==> Among(log[j], from) || AmongAccruals(log[j], accruals)
  }

  lemma AccrueGrows(r: Recorder, now: int)
    requires LawfulRecorder(r)
    ensures Grown(AccrueStep(r, now).trail.log, r.trail.log, AccruedIn(r, now))
  {
    var log, accruals := AccrueStep(r, now).trail.log, AccruedIn(r, now);
    StemsFromItself(r.trail.log);
    AccruedByTheRules(r, now);
    forall j | 0 <= j < |log| ensures Among(log[j], r.trail.log) || AmongAccruals(log[j], accruals) {
      if j < |r.trail.log| {
        assert log[j] == r.trail.log[j];
      } else {
        assert PartOf(log[j], accruals[0].x) && ByTheRules(accruals[0]);
      }
    }
  }

  lemma MetadataStems(r: Recorder, id: string, b: Bounds)
    ensures Stems(MetadataStep(r, id, b).trail.log, r.trail.log)
  {
    StemsFromItself(r.trail.log);
    ClipStems(r.trail.log, KeyOf(r.trail, id), b.completedAt);
  }

  lemma ReactStems(r: Recorder, m: Message, now: int)
    requires r.live.Some?
    ensures Stems(ReactStep(r, m, now).trail.log, r.trail.log)
  {
    StemsFromItself(r.trail.log);
    if TakesBounds(r.turns, m) {
      MetadataStems(r.(live := Some(Reacted(r.live.value, m, now).(revision := r.live.value.revision + 1))),
        m.bounds.id, m.bounds);
    }
  }

  lemma GrownThenStems(a: seq<Interval>, b: seq<Interval>, c: seq<Interval>, accruals: seq<Accrued>)
    requires Stems(a, b) && Grown(b, c, accruals)
    ensures Grown(a, c, accruals)
  {
    forall j | 0 <= j < |a| ensures Among(a[j], c) || AmongAccruals(a[j], accruals) {
      AmongGrown(a[j], b, c, accruals);
    }
  }

  lemma AmongGrown(x: Interval, b: seq<Interval>, c: seq<Interval>, accruals: seq<Accrued>)
    requires Among(x, b) && Grown(b, c, accruals)
    ensures Among(x, c) || AmongAccruals(x, accruals)
  {
    var i :| 0 <= i < |b| && PartOf(x, b[i]);
    if Among(b[i], c) {
      var k :| 0 <= k < |c| && PartOf(b[i], c[k]);
      assert PartOf(x, c[k]);
    } else {
      var k :| 0 <= k < |accruals| && PartOf(b[i], accruals[k].x) && ByTheRules(accruals[k]);
      assert PartOf(x, accruals[k].x);
    }
  }

  lemma GrownTwice(a: seq<Interval>, b: seq<Interval>, c: seq<Interval>, second: seq<Accrued>, first: seq<Accrued>)
    requires Grown(a, b, second) && Grown(b, c, first)
    ensures Grown(a, c, first + second)
  {
    forall j | 0 <= j < |a| ensures Among(a[j], c) || AmongAccruals(a[j], first + second) {
      if Among(a[j], b) {
        AmongGrown(a[j], b, c, first);
        if AmongAccruals(a[j], first) {
          var k :| 0 <= k < |first| && PartOf(a[j], first[k].x) && ByTheRules(first[k]);
          assert (first + second)[k] == first[k];
        }
      } else {
        var k :| 0 <= k < |second| && PartOf(a[j], second[k].x) && ByTheRules(second[k]);
        assert (first + second)[|first| + k] == second[k];
      }
    }
  }

  lemma EffectGrows(r: Recorder, m: Message, now: int)
    requires LawfulRecorder(r) && r.live.Some?
    ensures Grown(EffectStep(r, m, now).trail.log, r.trail.log, AccruedIn(r, Boundary(r.live.value, m, now)))
  {
    var boundary := Boundary(r.live.value, m, now);
    var q := AccrueStep(r, boundary);
    AccrueGrows(r, boundary);
    ReactStems(q, m, now);
    GrownThenStems(ReactStep(q, m, now).trail.log, q.trail.log, r.trail.log, AccruedIn(r, boundary));
  }

  /** A message accrues up to its boundary and then, under the new state, up to now. */
  lemma MessageGrowsTwice(r: Recorder, m: Message, now: int)
    requires LawfulRecorder(r) && r.live.Some?
    ensures var boundary, q := Boundary(r.live.value, m, now), EffectStep(r, m, now);
            Grown(AccrueStep(q, now).trail.log, r.trail.log, AccruedIn(r, boundary) + AccruedIn(q, now))
  {
    var boundary, q := Boundary(r.live.value, m, now), EffectStep(r, m, now);
    EffectGrows(r, m, now);
    UpdateExact(ReactStep(AccrueStep(r, boundary), m, now), boundary);
    AccrueGrows(q, now);
    GrownTwice(AccrueStep(q, now).trail.log, q.trail.log, r.trail.log, AccruedIn(q, now), AccruedIn(r, boundary));
  }

  lemma MessageGrows(r: Recorder, m: Message, now: int)
    requires LawfulRecorder(r) && r.live.Some?
    ensures Grown(MessageStep(r, m, now).trail.log, r.trail.log, MessageAccruals(r, m, now))
  {
    var boundary := Boundary(r.live.value, m, now);
    if Ignored(m, r.live.value.turn) {
      StemsFromItself(r.trail.log);
    } else if boundary < now {
      MessageGrowsTwice(r, m, now);
    } else {
      EffectGrows(r, m, now);
      assert AccruedIn(r, boundary) + [] == AccruedIn(r, boundary);
    }
  }

  lemma ListStems(r: Recorder, history: seq<TurnMetadata>, active: bool, flags: seq<Flag>)
    requires r.live.Some?
    ensures Stems(ListStep(r, history, active, flags).trail.log, r.trail.log)
  {
    var metadata, o := ById(history), Listed(r.live.value, history, active, flags);
    var q := RecordsStep(r.(live := Some(o)), metadata);
    TrimmedStems(r.trail.log, CutsOf(r.turns, metadata, r.turns.Keys), r.trail.copies);
    if o.turn.id in metadata {
      MetadataStems(q, o.turn.id, metadata[o.turn.id].bounds);
      StemsChain(MetadataStep(q, o.turn.id, metadata[o.turn.id].bounds).trail.log, q.trail.log, r.trail.log);
    }
  }

  lemma ReconcileGrows(r: Recorder, e: Event)
    requires LawfulRecorder(r) && e.Reconcile? && On(r, e.connection) && Up(r)
    ensures Grown(Apply(r, e).trail.log, r.trail.log, AccrualsIn(r, e))
  {
    var boundary := EndOf(r.live.value, ById(e.history), e.now);
    var q := AccrueStep(r, boundary);
    AccrueGrows(r, boundary);
    ListStems(q, e.history, e.active, e.flags);
    StemsFromItself(q.trail.log);
    var u := ReconcilingStep(r, e.history, e.active, e.flags, e.now, e.revision);
    GrownThenStems(u.trail.log, q.trail.log, r.trail.log, AccruedIn(r, boundary));
  }

  lemma EventGrows(r: Recorder, e: Event)
    requires LawfulRecorder(r)
    ensures Grown(Apply(r, e).trail.log, r.trail.log, AccrualsIn(r, e))
  {
    StemsFromItself(r.trail.log);
    match e
    case Receive(connection, m, now) => MessageGrows(ObservationStep(r, connection, now), m, now);
    case Reconcile(connection, _, _, _, _, _) => if On(r, connection) && Up(r) { ReconcileGrows(r, e); }
    case _ =>
  }

  /** The interval is left of one that an event of the run accrued by the rules. */
  predicate EarnedAlong(x: Interval, r: Recorder, events: seq<Event>)
    decreases |events|
  {
    events != []
    && (AmongAccruals(x, AccrualsIn(r, events[0])) || EarnedAlong(x, Apply(r, events[0]), events[1..]))
  }

  lemma {:induction false} IntervalsAlong(r: Recorder, events: seq<Event>, x: Interval)
    requires LawfulRecorder(r) && Among(x, After(r, events).trail.log)
    ensures Among(x, r.trail.log) || EarnedAlong(x, r, events)
    decreases |events|
  {
    if events != [] {
      LawfulStep(r, events[0]);
      IntervalsAlong(Apply(r, events[0]), events[1..], x);
      if Among(x, Apply(r, events[0]).trail.log) {
        EventGrows(r, events[0]);
        AmongGrown(x, Apply(r, events[0]).trail.log, r.trail.log, AccrualsIn(r, events[0]));
      }
    }
  }

  /** Over every run: whatever is on record as waiting was accrued while a blocking request was open or the turn waited
      for a tool, and whatever is on record as working while nothing held the turn up. */
  lemma EveryIntervalIsEarned(events: seq<Event>, j: nat)
    requires j < |After(Fresh, events).trail.log|
    ensures EarnedAlong(After(Fresh, events).trail.log[j], Fresh, events)
  {
    StemsFromItself(After(Fresh, events).trail.log);
    IntervalsAlong(Fresh, events, After(Fresh, events).trail.log[j]);
  }

  // ---------------------------------------------------------------------------------------------
  // How long a wait has lasted

  function AccruedLength(accruals: seq<Accrued>): int {
    if accruals == [] then 0 else accruals[0].x.to - accruals[0].x.from + AccruedLength(accruals[1..])
  }

  /** The open wait grows by exactly what is accrued as waiting. */
  lemma OpenWaitGrows(r: Recorder, now: int)
    requires Up(r)
    ensures var o, u := r.live.value, AccrueStep(r, now).live.value;
            u.openWaiting - o.openWaiting == if o.state == Waiting then AccruedLength(AccruedIn(r, now)) else 0
  {
    var accruals := AccruedIn(r, now);
    if accruals != [] { assert accruals[1..] == []; }
  }

  /** It starts over exactly when the state changes, and so does the time since which the state lasts. */
  lemma StateChangeStartsOver(r: Recorder, now: int)
    requires r.live.Some?
    ensures var o, u := r.live.value, UpdateStep(r, now).live.value;
            if u.state == o.state then u.openWaiting == o.openWaiting && u.since == o.since
            else u.openWaiting == 0 && u.since == now
  {
  }
}
