/** Where the time goes over whole runs of the activity recorder (codex/activity_recording.go): every millisecond is
    accrued, taken back, dark, uncounted or lost, and time that counted is lost for exactly a few reasons. */
module ActivityAccounting {
  import opened Prelude
  import opened ActivityTiming
  import opened ActivityCapture
  import opened ActivityRecording

  // ---------------------------------------------------------------------------------------------
  // Runs

  datatype Event =
    | Connect(connection: string, now: int)
    | Disconnect(connection: string, now: int)
    | Receive(connection: string, message: Message, now: int)
    | Reconcile(connection: string, history: seq<TurnMetadata>, active: bool, flags: seq<Flag>, now: int, revision: nat)
    | Forget(id: string)

  function Apply(r: Recorder, e: Event): Recorder {
    match e
    case Connect(connection, now) => ConnectedStep(r, connection, now)
    case Disconnect(connection, now) => DisconnectedStep(r, connection, now)
    case Receive(connection, m, now) => ObserveStep(r, connection, m, now)
    case Reconcile(connection, history, active, flags, now, revision) =>
      ReconcileStep(r, connection, history, active, flags, now, revision)
    case Forget(id) => ForgetStep(r, id)
  }

  /** Only a message or a connection can start a new observation. */
  predicate InTime(r: Recorder, e: Event) { e.Connect? || e.Receive? ==> Timely(r, e.connection, e.now) }

  predicate IsRun(r: Recorder, events: seq<Event>)
    decreases |events|
  {
    events == [] || (InTime(r, events[0]) && IsRun(Apply(r, events[0]), events[1..]))
  }

  function After(r: Recorder, events: seq<Event>): Recorder
    decreases |events|
  {
    if events == [] then r else After(Apply(r, events[0]), events[1..])
  }

  /** The recorder takes the events of a run one by one, and all its records stay exact. */
  method Capture(thread: ActivityThread, events: seq<Event>)
    requires thread.Valid() && IsRun(thread.Value(), events)
    modifies thread
    ensures thread.Valid() && thread.Value() == After(old(thread.Value()), events)
  {
    var i := 0;
    while i < |events|
      invariant 0 <= i <= |events| && thread.Valid() && IsRun(thread.Value(), events[i..])
      invariant After(old(thread.Value()), events) == After(thread.Value(), events[i..])
    {
      assert events[i..][0] == events[i] && events[i..][1..] == events[i + 1..];
      Take(thread, events[i]);
      i := i + 1;
    }
  }

  method Take(thread: ActivityThread, e: Event)
    requires thread.Valid() && InTime(thread.Value(), e)
    modifies thread
    ensures thread.Valid() && thread.Value() == Apply(old(thread.Value()), e)
  {
    match e
    case Connect(connection, now) => thread.Connected(connection, now);
    case Disconnect(connection, now) => thread.Disconnected(connection, now);
    case Receive(connection, m, now) => thread.Observe(connection, m, now);
    case Reconcile(connection, history, active, flags, now, revision) =>
      thread.Reconcile(connection, history, active, flags, now, revision);
    case Forget(id) => thread.Forget(id);
  }

  // ---------------------------------------------------------------------------------------------
  // All time is accounted for

  predicate Clocked(r: Recorder) {
    (r.live.Some? ==> r.live.value.through == r.trail.mark) && (!Up(r) ==> r.trail.darkFrom <= r.trail.mark)
  }

  /** The time without a connection, the present one included. */
  function DarkTime(r: Recorder): int {
    Lengths(r.trail.dark) + if Up(r) then 0 else r.trail.mark - r.trail.darkFrom
  }

  function LostTime(r: Recorder): int { Lengths(r.trail.lost) }

  function UncountedTime(r: Recorder): int { Lengths(r.trail.uncounted) }

  /** The time that was accrued, whether or not it was taken back since. */
  function AccruedTime(r: Recorder): int { Length(r.trail.log) + r.trail.cut }

  function AllTime(r: Recorder): int { AccruedTime(r) + LostTime(r) + UncountedTime(r) + DarkTime(r) }

  predicate Balanced(r: Recorder, q: Recorder) { Clocked(q) && AllTime(q) - AllTime(r) == q.trail.mark - r.trail.mark }

  lemma {:induction false} LengthsAppend(a: seq<Span>, b: seq<Span>)
    ensures Lengths(a + b) == Lengths(a) + Lengths(b)
    decreases |a|
  {
    if a == [] {
      assert a + b == b;
    } else {
      assert (a + b)[0] == a[0] && (a + b)[1..] == a[1..] + b;
      LengthsAppend(a[1..], b);
    }
  }

  lemma OneSpan(x: Span)
    ensures Lengths([x]) == x.to - x.from
  {
    assert [x][1..] == [];
  }

  lemma OneInterval(x: Interval)
    ensures Length([x]) == Max(0, x.to - x.from)
  {
    assert [x][..0] == [];
  }

  /** How long an observation may be carried without accruing. */
  lemma CarriedTimes(t: Trail, o: Observation, now: int)
    ensures var u := Carried(t, o, now);
            && Lengths(u.lost) == Lengths(t.lost) + (if Counts(o) then Max(0, now - o.through) else 0)
            && Lengths(u.uncounted)
                 == Lengths(t.uncounted) + if o.connected && !Counts(o) then Max(0, now - o.through) else 0
  {
    LengthsAppend(t.lost, Skipped(o, now));
    LengthsAppend(t.uncounted, Uncounted(o, now));
    OneSpan(Span(o.through, now));
  }

  lemma ObservationBalances(r: Recorder, connection: string, now: int)
    requires Clocked(r) && Timely(r, connection, now)
    ensures Balanced(r, ObservationStep(r, connection, now))
  {
    if Up(r) { CarriedTimes(r.trail, r.live.value, now); }
  }

  lemma LitBalances(r: Recorder, now: int)
    requires Clocked(r) && r.live.Some?
    ensures Balanced(r, LitStep(r, now))
  {
    var x := Span(r.trail.darkFrom, Max(now, r.trail.mark));
    LengthsAppend(r.trail.dark, [x]);
    OneSpan(x);
  }

  lemma UpdateBalances(r: Recorder, now: int)
    requires Clocked(r) && r.live.Some?
    ensures Balanced(r, UpdateStep(r, now))
  {
    CarriedTimes(r.trail, r.live.value, now);
  }

  /** One accrual splits counted time into what is accrued and what is lost. */
  lemma AccrualSplits(o: Observation, turns: Turns, t: Trail, now: int)
    ensures Length(Accrual(Some(o), turns, t, now)) + Lengths(Unaccounted(Some(o), turns, now))
              == if Counts(o) then Max(0, now - o.through) else 0
    ensures |Accrual(Some(o), turns, t, now)| <= 1
  {
    var record := RecordOf(turns, o.turn.id);
    var from := Max(o.through, record.startedAt);
    if !Counts(o) || now <= o.through {
      assert Accrual(Some(o), turns, t, now) == [] && Unaccounted(Some(o), turns, now) == [];
    } else if Blocked(turns, o.turn.id) || record.final {
      assert Accrual(Some(o), turns, t, now) == [];
      OneSpan(Span(o.through, now));
    } else {
      OneSpan(Span(o.through, Min(record.startedAt, now)));
      OneInterval(Interval(KeyOf(t, o.turn.id), o.state, from, now));
    }
  }

  lemma AccrualTimes(r: Recorder, now: int)
    requires Up(r)
    ensures var t, o := AccruedTrail(r, now), r.live.value;
            && Lengths(t.uncounted) == UncountedTime(r) + (if Counts(o) then 0 else Max(0, now - o.through))
            && Lengths(t.lost) == LostTime(r) + Lengths(Unaccounted(r.live, r.turns, now))
            && Length(t.log) + Lengths(t.lost)
                 == Length(r.trail.log) + LostTime(r) + if Counts(o) then Max(0, now - o.through) else 0
  {
    var t, o := r.trail, r.live.value;
    var added := Accrual(r.live, r.turns, t, now);
    AccrualSplits(o, r.turns, t, now);
    LengthsAppend(t.uncounted, Uncounted(o, now));
    LengthsAppend(t.lost, Unaccounted(r.live, r.turns, now));
    OneSpan(Span(o.through, now));
    assert Length(t.log + added) == Length(t.log) + Length(added) by {
      if added == [] {
        assert t.log + added == t.log;
      } else {
        assert added == [added[0]];
        LengthAppend(t.log, added[0]);
        OneInterval(added[0]);
      }
    }
  }

  lemma AccrueBalances(r: Recorder, now: int)
    requires Clocked(r)
    ensures Balanced(r, AccrueStep(r, now))
  {
    if Up(r) { AccrualTimes(r, now); }
  }

  lemma MetadataBalances(r: Recorder, id: string, b: Bounds)
    requires Clocked(r)
    ensures Balanced(r, MetadataStep(r, id, b))
  {
    ClipLength(r.trail.log, KeyOf(r.trail, id), b.completedAt);
  }

  lemma ReactBalances(r: Recorder, m: Message, now: int)
    requires Clocked(r) && r.live.Some?
    ensures Balanced(r, ReactStep(r, m, now))
  {
    var q := r.(live := Some(Reacted(r.live.value, m, now).(revision := r.live.value.revision + 1)));
    assert Balanced(r, q);
    if TakesBounds(r.turns, m) { MetadataBalances(q, m.bounds.id, m.bounds); }
  }

  lemma EffectBalances(r: Recorder, m: Message, now: int)
    requires Clocked(r) && r.live.Some?
    ensures Balanced(r, EffectStep(r, m, now))
  {
    var boundary := Boundary(r.live.value, m, now);
    var q := AccrueStep(r, boundary);
    AccrueBalances(r, boundary);
    ReactBalances(q, m, now);
    UpdateBalances(ReactStep(q, m, now), boundary);
  }

  lemma Chained(r: Recorder, q: Recorder, u: Recorder)
    requires Balanced(r, q) && Balanced(q, u)
    ensures Balanced(r, u)
  {
  }

  lemma MessageBalances(r: Recorder, m: Message, now: int)
    requires Clocked(r) && r.live.Some?
    ensures Balanced(r, MessageStep(r, m, now))
  {
    if !Ignored(m, r.live.value.turn) {
      var q := EffectStep(r, m, now);
      EffectBalances(r, m, now);
      if Boundary(r.live.value, m, now) < now {
        AccrueBalances(q, now);
        Chained(r, q, AccrueStep(q, now));
      }
    }
  }

  lemma ObserveBalances(r: Recorder, connection: string, m: Message, now: int)
    requires Clocked(r) && Timely(r, connection, now)
    ensures Balanced(r, ObserveStep(r, connection, m, now))
  {
    var q := ObservationStep(r, connection, now);
    ObservationBalances(r, connection, now);
    MessageBalances(q, m, now);
    Chained(r, q, MessageStep(q, m, now));
  }

  lemma ListBalances(r: Recorder, history: seq<TurnMetadata>, active: bool, flags: seq<Flag>)
    requires Clocked(r) && r.live.Some?
    ensures Balanced(r, ListStep(r, history, active, flags))
  {
    var metadata, o := ById(history), Listed(r.live.value, history, active, flags);
    var p := r.(live := Some(o));
    var q := RecordsStep(p, metadata);
    TrimmedLength(r.trail.log, CutsOf(r.turns, metadata, r.turns.Keys), r.trail.copies);
    assert Balanced(r, q);
    if o.turn.id in metadata { MetadataBalances(q, o.turn.id, metadata[o.turn.id].bounds); }
  }

  lemma ReconcileBalances(r: Recorder, e: Event)
    requires Clocked(r) && e.Reconcile? && Up(r)
    ensures var q := ReconcilingStep(r, e.history, e.active, e.flags, e.now, e.revision);
            Balanced(r, q) && Balanced(r, UpdateStep(q, e.now))
  {
    var boundary := EndOf(r.live.value, ById(e.history), e.now);
    AccrueBalances(r, boundary);
    ListBalances(AccrueStep(r, boundary), e.history, e.active, e.flags);
    UpdateBalances(ReconcilingStep(r, e.history, e.active, e.flags, e.now, e.revision), e.now);
  }

  lemma ConnectBalances(r: Recorder, connection: string, now: int)
    requires Clocked(r) && Timely(r, connection, now)
    ensures Balanced(r, ConnectedStep(r, connection, now))
  {
    var q := ObservationStep(r, connection, now);
    var u := LitStep(q, now);
    ObservationBalances(r, connection, now);
    LitBalances(q, now);
    UpdateBalances(u, now);
    Chained(r, q, u);
    Chained(r, u, UpdateStep(u, now));
  }

  lemma StepBalances(r: Recorder, e: Event)
    requires Clocked(r) && InTime(r, e)
    ensures Balanced(r, Apply(r, e))
  {
    match e
    case Connect(connection, now) => ConnectBalances(r, connection, now);
    case Disconnect(connection, now) => if Up(r) { CarriedTimes(r.trail, r.live.value, now); }
    case Receive(connection, m, now) => ObserveBalances(r, connection, m, now);
    case Reconcile(connection, _, _, _, _, _) => if On(r, connection) && Up(r) { ReconcileBalances(r, e); }
    case Forget(id) =>
  }

  /** Over every run of events, all the time that passes is accrued, lost, uncounted or dark: nothing is counted twice
      and nothing disappears. */
  lemma {:induction false} TimeIsConserved(r: Recorder, events: seq<Event>)
    requires Clocked(r) && IsRun(r, events)
    ensures Balanced(r, After(r, events))
    decreases |events|
  {
    if events != [] {
      StepBalances(r, events[0]);
      TimeIsConserved(Apply(r, events[0]), events[1..]);
    }
  }

  // ---------------------------------------------------------------------------------------------
  // When counted time is lost

  /** Time that counts passes up to a moment. */
  predicate Misses(o: Observation, to: int) { Counts(o) && o.through < to }

  /** An accrual has no place for that time: there is no room for a record, the record is final, or some of the time
      precedes the start of the turn. */
  predicate Refused(o: Observation, turns: Turns, to: int) {
    Misses(o, to) && (|| Blocked(turns, o.turn.id) || RecordOf(turns, o.turn.id).final
                      || o.through < RecordOf(turns, o.turn.id).startedAt)
  }

  /** A turn that started before now has no record that could take its first moments. */
  predicate StartRefused(r: Recorder, m: Message, now: int)
    requires r.live.Some?
  {
    && m.TurnStarted? && Boundary(r.live.value, m, now) < now && Counts(EffectStep(r, m, now).live.value)
    && (Blocked(r.turns, m.bounds.id) || ApplyMetadata(RecordOf(r.turns, m.bounds.id), m.bounds).final)
  }

  predicate Loses(r: Recorder, e: Event) {
    Up(r) &&
    var o := r.live.value;
    match e
    case Connect(_, now) => Misses(o, now)
    case Disconnect(connection, now) => On(r, connection) && Misses(o, now)
    case Receive(connection, m, now) =>
      if !On(r, connection) then Misses(o, now)
      else !Ignored(m, o.turn) && (Refused(o, r.turns, Boundary(o, m, now)) || StartRefused(r, m, now))
    case Reconcile(connection, history, active, flags, now, revision) =>
      On(r, connection) && (|| Refused(o, r.turns, EndOf(o, ById(history), now))
                            || Misses(ReconcilingStep(r, history, active, flags, now, revision).live.value, now))
    case Forget(_) => false
  }

  predicate Grows(r: Recorder, q: Recorder, loses: bool) {
    LostTime(q) >= LostTime(r) && (LostTime(q) > LostTime(r) <==> loses)
  }

  lemma AccrueLoses(r: Recorder, now: int)
    ensures Grows(r, AccrueStep(r, now), Up(r) && Refused(r.live.value, r.turns, now))
  {
    if Up(r) {
      var o := r.live.value;
      AccrualTimes(r, now);
      OneSpan(Span(o.through, now));
      OneSpan(Span(o.through, Min(RecordOf(r.turns, o.turn.id).startedAt, now)));
    }
  }

  lemma UpdateLoses(r: Recorder, now: int)
    requires r.live.Some?
    ensures Grows(r, UpdateStep(r, now), Misses(r.live.value, now))
  {
    CarriedTimes(r.trail, r.live.value, now);
  }

  /** Taking effect loses only what the accrual before does. */
  lemma EffectLoses(r: Recorder, m: Message, now: int)
    requires Up(r)
    ensures Grows(r, EffectStep(r, m, now), Refused(r.live.value, r.turns, Boundary(r.live.value, m, now)))
  {
    var boundary := Boundary(r.live.value, m, now);
    var q := AccrueStep(r, boundary);
    var u := ReactStep(q, m, now);
    AccrueLoses(r, boundary);
    assert u.live.value.through == q.live.value.through >= boundary && u.trail.lost == q.trail.lost;
    UpdateLoses(u, boundary);
  }

  /** Under the new state only the first moments of a turn can be lost, and never for preceding its start. */
  lemma RestLoses(r: Recorder, m: Message, now: int)
    requires Up(r) && Boundary(r.live.value, m, now) < now
    ensures var q := EffectStep(r, m, now); Refused(q.live.value, q.turns, now) <==> StartRefused(r, m, now)
  {
    var o, q := r.live.value, EffectStep(r, m, now);
    var boundary := Boundary(o, m, now);
    assert q.live.value.through == Max(boundary, o.through);
    if m.TurnStarted? {
      assert Charged(r.turns, o, boundary) == r.turns;
      assert q.live.value.turn.id == m.bounds.id;
    } else {
      assert !q.live.value.turn.active;
    }
  }

  lemma MessageLoses(r: Recorder, m: Message, now: int)
    requires Up(r)
    ensures var o := r.live.value;
            Grows(r, MessageStep(r, m, now),
              !Ignored(m, o.turn) && (Refused(o, r.turns, Boundary(o, m, now)) || StartRefused(r, m, now)))
  {
    if !Ignored(m, r.live.value.turn) {
      EffectLoses(r, m, now);
      if Boundary(r.live.value, m, now) < now {
        RestLoses(r, m, now);
        AccrueLoses(EffectStep(r, m, now), now);
      }
    }
  }

  lemma ReconcileLoses(r: Recorder, e: Event)
    requires Up(r) && e.Reconcile? && On(r, e.connection)
    ensures Grows(r, Apply(r, e), Loses(r, e))
  {
    AccrueLoses(r, EndOf(r.live.value, ById(e.history), e.now));
    UpdateLoses(ReconcilingStep(r, e.history, e.active, e.flags, e.now, e.revision), e.now);
  }

  /** Exactly when an event loses time that counted: an accrual has no place for it, a connection that is up is
      announced again, replaced or found lost, or a turn list says that the turn ended but the turn goes on counting. */
  lemma LosesExactlyWhen(r: Recorder, e: Event)
    requires Clocked(r) && InTime(r, e)
    ensures Grows(r, Apply(r, e), Loses(r, e))
  {
    match e
    case Connect(connection, now) =>
      if Up(r) { CarriedTimes(r.trail, r.live.value, now); }
      UpdateLoses(LitStep(ObservationStep(r, connection, now), now), now);
    case Disconnect(connection, now) => if Up(r) { CarriedTimes(r.trail, r.live.value, now); }
    case Receive(connection, m, now) =>
      if Up(r) && On(r, connection) { MessageLoses(r, m, now); } else { NewLoses(r, connection, m, now); }
    case Reconcile(connection, _, _, _, _, _) => if Up(r) && On(r, connection) { ReconcileLoses(r, e); }
    case Forget(_) =>
  }

  /** Without a connection no time counts. */
  lemma DownLosesNothing(r: Recorder, m: Message, now: int)
    requires r.live.Some? && !Up(r)
    ensures LostTime(MessageStep(r, m, now)) == LostTime(r)
  {
    var boundary := Boundary(r.live.value, m, now);
    var q := ReactStep(r, m, now);
    assert AccrueStep(r, boundary) == r && q.trail.lost == r.trail.lost;
    UpdateLoses(q, boundary);
  }

  lemma NewLoses(r: Recorder, connection: string, m: Message, now: int)
    requires !(Up(r) && On(r, connection))
    ensures Grows(r, ObserveStep(r, connection, m, now), Up(r) && Misses(r.live.value, now))
  {
    var q := ObservationStep(r, connection, now);
    if Up(r) { CarriedTimes(r.trail, r.live.value, now); }
    DownLosesNothing(q, m, now);
  }

  /** An event of the run loses counted time. */
  predicate LosesAlong(r: Recorder, events: seq<Event>)
    decreases |events|
  {
    events != [] && (Loses(r, events[0]) || LosesAlong(Apply(r, events[0]), events[1..]))
  }

  /** Over every run: the time that was accrued, whether or not it was taken back, is all the time that counted, if and
      only if no event loses any. */
  lemma {:induction false} AllCountedTimeIsAccruedExactlyWhen(r: Recorder, events: seq<Event>)
    requires Clocked(r) && IsRun(r, events)
    ensures var q := After(r, events);
            var counted := (q.trail.mark - r.trail.mark) - (DarkTime(q) - DarkTime(r))
                           - (UncountedTime(q) - UncountedTime(r));
            && AccruedTime(q) - AccruedTime(r) <= counted
            && (AccruedTime(q) - AccruedTime(r) == counted <==> !LosesAlong(r, events))
    decreases |events|
  {
    if events != [] {
      StepBalances(r, events[0]);
      LosesExactlyWhen(r, events[0]);
      AllCountedTimeIsAccruedExactlyWhen(Apply(r, events[0]), events[1..]);
    }
  }

  // ---------------------------------------------------------------------------------------------
  // A run that loses time

  const Started := Bounds("turn", InProgress, 0, 0)
  const Working20 := Observation("c", true, CurrentTurn("turn", true, true, true, false), NoPending, Working, 20, 20,
    0, 1)

  /** A connection that is up is announced again while a turn works: the ten milliseconds since the last event are lost,
      although the record of the turn is open and there is room for it. */
  lemma ReconnectLosesTime()
    ensures var events := [Connect("c", 10), Receive("c", TurnStarted(Started), 20)];
            var r := After(Fresh, events);
            && IsRun(Fresh, events) && r.live == Some(Working20)
            && "turn" in r.turns && !r.turns["turn"].final && r.turns["turn"].startedAt <= 20
            && IsRun(r, [Connect("c", 30)]) && Apply(r, Connect("c", 30)).trail.log == r.trail.log == []
            && LostTime(r) == 0 && LostTime(Apply(r, Connect("c", 30))) == 10
  {
    var r1 := Apply(Fresh, Connect("c", 10));
    var m := TurnStarted(Started);
    assert r1.live == Some(Observation("c", true, NoTurn, NoPending, Unclassified, 10, 10, 0, 0));
    var r2 := Apply(r1, Receive("c", m, 20));
    assert r2.live == Some(Working20);
    var events := [Connect("c", 10), Receive("c", m, 20)];
    assert events[1..] == [Receive("c", m, 20)] && events[1..][1..] == [];
    assert After(r1, events[1..]) == r2;
    CarriedTimes(r2.trail, Working20, 30);
  }
}
