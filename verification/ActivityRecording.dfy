/** Event capture of the activity recorder (codex/activity_recording.go): every event accrues the time since the
    last one to the record of the current turn, and every record stays exact. */
module ActivityRecording {
  import opened Prelude
  import opened ActivityTiming
  import opened ActivityCapture

  // ---------------------------------------------------------------------------------------------
  // Exact records

  ghost predicate ExactAt(turns: Turns, t: Trail, id: string) {
    id in turns ==> Refines(turns[id].timing, t.log, KeyOf(t, id)) && turns[id].timing.through <= t.mark
  }

  ghost predicate AttributedAt(turns: Turns, t: Trail, i: int) {
    0 <= i < |t.log| ==>
      var key := t.log[i].key;
      key.copy <= CopyOf(t.copies, key.turn) && (key == KeyOf(t, key.turn) ==> key.turn in turns)
  }

  ghost predicate LitAt(t: Trail, i: int, d: int) {
    0 <= i < |t.log| && 0 <= d < |t.dark| ==> t.log[i].to <= t.dark[d].from || t.dark[d].to <= t.log[i].from
  }

  ghost predicate PastAt(t: Trail, d: int) { 0 <= d < |t.dark| ==> t.dark[d].to <= t.mark }

  /** Every record is exact: its totals are the sums of its intervals. */
  ghost predicate Exact(turns: Turns, t: Trail) { forall id :: ExactAt(turns, t, id) }

  /** Every interval belongs to a record in memory, or to one that left it. */
  ghost predicate Attributed(turns: Turns, t: Trail) { forall i :: AttributedAt(turns, t, i) }

  /** No interval covers time without a connection. */
  ghost predicate Lit(t: Trail) { forall i, d :: LitAt(t, i, d) }

  ghost predicate DarkPast(t: Trail) { forall d :: PastAt(t, d) }

  ghost predicate Kept(turns: Turns, connected: bool, t: Trail) {
    && Ordered(t.log, t.mark) && Exact(turns, t) && Attributed(turns, t) && Lit(t) && DarkPast(t)
    && (!connected ==> Ordered(t.log, t.darkFrom))
  }

  lemma AbsentIsNew(turns: Turns, t: Trail, id: string)
    requires Attributed(turns, t) && id !in turns
    ensures Refines(NoTiming, t.log, KeyOf(t, id))
  {
    forall i | 0 <= i < |t.log| ensures t.log[i].key != KeyOf(t, id) { assert AttributedAt(turns, t, i); }
    NewRefines(t.log, KeyOf(t, id));
  }

  lemma RecordExact(turns: Turns, connected: bool, t: Trail, id: string)
    requires Kept(turns, connected, t)
    ensures Refines(RecordOf(turns, id).timing, t.log, KeyOf(t, id)) && RecordOf(turns, id).timing.through <= t.mark
  {
    OrderedPositive(t.log, t.mark);
    if id !in turns { AbsentIsNew(turns, t, id); } else { assert ExactAt(turns, t, id); }
  }

  lemma LaterKept(turns: Turns, connected: bool, t: Trail, mark: int)
    requires Kept(turns, connected, t) && t.mark <= mark
    ensures Kept(turns, connected, t.(mark := mark))
  {
    OrderedLater(t.log, t.mark, mark);
    var u := t.(mark := mark);
    forall id ensures ExactAt(turns, u, id) { assert ExactAt(turns, t, id); }
    forall i ensures AttributedAt(turns, u, i) { assert AttributedAt(turns, t, i); }
    forall i, d ensures LitAt(u, i, d) { assert LitAt(t, i, d); }
    forall d ensures PastAt(u, d) { assert PastAt(t, d); }
  }

  predicate Accrues(t: Trail, x: Interval) {
    x.key == KeyOf(t, x.key.turn) && t.mark <= x.from < x.to && (x.state.Working? || x.state.Waiting?)
  }

  lemma AddExact(turns: Turns, t: Trail, r: TurnRecord, x: Interval, id: string)
    requires Kept(turns, true, t) && Accrues(t, x)
    requires r.timing == Add(RecordOf(turns, x.key.turn).timing, x.state, x.from, x.to)
    ensures ExactAt(turns[x.key.turn := r], t.(log := t.log + [x], mark := x.to), id)
  {
    OrderedPositive(t.log, t.mark);
    RecordExact(turns, true, t, id);
    if id == x.key.turn {
      AddRefines(RecordOf(turns, id).timing, t.log, x);
    } else if id in turns {
      OtherRefines(turns[id].timing, t.log, x, KeyOf(t, id));
    }
  }

  /** Accruing an interval that starts where the last observation ended. */
  lemma AddKept(turns: Turns, t: Trail, r: TurnRecord, x: Interval)
    requires Kept(turns, true, t) && Accrues(t, x)
    requires r.timing == Add(RecordOf(turns, x.key.turn).timing, x.state, x.from, x.to)
    ensures Kept(turns[x.key.turn := r], true, t.(log := t.log + [x], mark := x.to))
  {
    var u, v := t.(log := t.log + [x], mark := x.to), turns[x.key.turn := r];
    OrderedAppend(t.log, t.mark, x);
    forall id ensures ExactAt(v, u, id) { AddExact(turns, t, r, x, id); }
    forall i ensures AttributedAt(v, u, i) { assert AttributedAt(turns, t, i); }
    forall d ensures PastAt(u, d) { assert PastAt(t, d); }
    forall i, d ensures LitAt(u, i, d) { assert LitAt(t, i, d) && PastAt(t, d); }
  }

  /** Accounting for the time up to a moment. */
  lemma AccrueKept(r: Recorder, now: int)
    requires Kept(r.turns, true, r.trail) && Up(r) && r.live.value.through == r.trail.mark
    ensures Kept(Charged(r.turns, r.live.value, now), true, AccruedTrail(r, now))
  {
    var o, t, turns := r.live.value, r.trail, r.turns;
    var id, u := o.turn.id, t.(log := t.log + Accrual(r.live, turns, t, now));
    var to, record := Max(now, t.mark), RecordOf(turns, id);
    if Counts(o) && !Blocked(turns, id) && !record.final {
      var from := Max(o.through, record.startedAt);
      var charged := ChargedRecord(record, id, o.state, from, to);
      if from < to {
        AddKept(turns, t, charged, Interval(KeyOf(t, id), o.state, from, to));
      } else {
        SameTimesKept(turns, true, t, id, charged);
        LaterKept(turns[id := charged], true, t, to);
        assert u.log == t.log;
      }
    } else {
      LaterKept(turns, true, t, to);
      assert u.log == t.log;
    }
    SideKept(Charged(turns, o, now), true, u.(mark := to), AccruedTrail(r, now));
  }

  /** Changing a record without changing its times. */
  lemma SameTimesKept(turns: Turns, connected: bool, t: Trail, id: string, r: TurnRecord)
    requires Kept(turns, connected, t) && r.timing == RecordOf(turns, id).timing
    ensures Kept(turns[id := r], connected, t)
  {
    RecordExact(turns, connected, t, id);
    var v := turns[id := r];
    forall other ensures ExactAt(v, t, other) { assert ExactAt(turns, t, other); }
    forall i ensures AttributedAt(v, t, i) { assert AttributedAt(turns, t, i); }
  }

  lemma ClipExact(turns: Turns, connected: bool, t: Trail, id: string, at: int, r: TurnRecord, other: string)
    requires Kept(turns, connected, t) && at > 0 && Clips(RecordOf(turns, id).timing, at)
    requires r.timing == Cut(RecordOf(turns, id).timing, at)
    ensures ExactAt(turns[id := r], t.(log := Clip(t.log, KeyOf(t, id), at)), other)
  {
    RecordExact(turns, connected, t, other);
    if other == id {
      CutRefines(RecordOf(turns, id).timing, t.log, KeyOf(t, id), at, t.mark);
    } else if other in turns {
      OtherCutRefines(turns[other].timing, t.log, KeyOf(t, id), at, KeyOf(t, other));
    }
  }

  lemma ClipKept(turns: Turns, connected: bool, t: Trail, id: string, at: int, r: TurnRecord)
    requires Kept(turns, connected, t) && at > 0 && Clips(RecordOf(turns, id).timing, at)
    requires r.timing == Cut(RecordOf(turns, id).timing, at)
    ensures Kept(turns[id := r], connected, t.(log := Clip(t.log, KeyOf(t, id), at)))
  {
    var key := KeyOf(t, id);
    var u, v := t.(log := Clip(t.log, key, at)), turns[id := r];
    ClipOrdered(t.log, key, at, t.mark);
    if !connected { ClipOrdered(t.log, key, at, t.darkFrom); }
    forall other ensures ExactAt(v, u, other) { ClipExact(turns, connected, t, id, at, r, other); }
    forall j ensures AttributedAt(v, u, j) { ClipAttributed(turns, t, id, at, j); }
    forall j, d ensures LitAt(u, j, d) { ClipLit(t, key, at, j, d); }
    forall d ensures PastAt(u, d) { assert PastAt(t, d); }
  }

  lemma ClipAttributed(turns: Turns, t: Trail, id: string, at: int, j: int)
    requires Attributed(turns, t)
    ensures AttributedAt(turns, t.(log := Clip(t.log, KeyOf(t, id), at)), j)
  {
    if 0 <= j < |Clip(t.log, KeyOf(t, id), at)| {
      ClipElements(t.log, KeyOf(t, id), at, j);
      var x := Clip(t.log, KeyOf(t, id), at)[j];
      var i :| 0 <= i < |t.log| && x == t.log[i].(to := x.to);
      assert AttributedAt(turns, t, i);
    }
  }

  lemma ClipLit(t: Trail, key: Key, at: int, j: int, d: int)
    requires Lit(t)
    ensures LitAt(t.(log := Clip(t.log, key, at)), j, d)
  {
    if 0 <= j < |Clip(t.log, key, at)| {
      ClipElements(t.log, key, at, j);
      var x := Clip(t.log, key, at)[j];
      var i :| 0 <= i < |t.log| && x == t.log[i].(to := x.to) && x.to <= t.log[i].to;
      assert LitAt(t, i, d);
    }
  }

  lemma MetadataKept(r: Recorder, id: string, b: Bounds)
    requires Kept(r.turns, Up(r), r.trail)
    ensures var q := MetadataStep(r, id, b); Kept(q.turns, Up(q), q.trail)
  {
    var record, t := RecordOf(r.turns, id), r.trail;
    var q := MetadataStep(r, id, b);
    var log := AfterMetadata(record, b, t.log, KeyOf(t, id));
    if Shortens(record, b) {
      ClipKept(r.turns, Up(r), t, id, b.completedAt, ApplyMetadata(record, b));
    } else {
      SameTimesKept(r.turns, Up(r), t, id, ApplyMetadata(record, b));
    }
    SideKept(q.turns, Up(q), t.(log := log), q.trail);
  }

  /** A record leaves memory; whatever its turn accrues later belongs to another copy. */
  lemma ForgetKept(turns: Turns, connected: bool, t: Trail, id: string)
    requires Kept(turns, connected, t)
    ensures Kept(turns - {id}, connected, t.(copies := t.copies[id := CopyOf(t.copies, id) + 1]))
  {
    var u := t.(copies := t.copies[id := CopyOf(t.copies, id) + 1]);
    forall other ensures ExactAt(turns - {id}, u, other) { assert ExactAt(turns, t, other); }
    forall i ensures AttributedAt(turns - {id}, u, i) { assert AttributedAt(turns, t, i); }
    forall i, d ensures LitAt(u, i, d) { assert LitAt(t, i, d); }
    forall d ensures PastAt(u, d) { assert PastAt(t, d); }
  }

  /** What was dropped, did not count or was taken back does not matter. */
  lemma SideKept(turns: Turns, connected: bool, t: Trail, u: Trail)
    requires Kept(turns, connected, t) && u == t.(lost := u.lost, uncounted := u.uncounted, cut := u.cut)
    ensures Kept(turns, connected, u)
  {
    forall id ensures ExactAt(turns, u, id) { assert ExactAt(turns, t, id); }
    forall i ensures AttributedAt(turns, u, i) { assert AttributedAt(turns, t, i); }
    forall i, d ensures LitAt(u, i, d) { assert LitAt(t, i, d); }
    forall d ensures PastAt(u, d) { assert PastAt(t, d); }
  }

  lemma CarriedKept(turns: Turns, connected: bool, t: Trail, o: Observation, now: int)
    requires Kept(turns, connected, t)
    ensures Kept(turns, connected, Carried(t, o, now))
  {
    LaterKept(turns, connected, t, Max(now, t.mark));
    SideKept(turns, connected, t.(mark := Max(now, t.mark)), Carried(t, o, now));
  }

  lemma DarkenedKept(turns: Turns, t: Trail)
    requires Kept(turns, true, t)
    ensures Kept(turns, false, Darkened(t))
  {
    var u := Darkened(t);
    forall id ensures ExactAt(turns, u, id) { assert ExactAt(turns, t, id); }
    forall i ensures AttributedAt(turns, u, i) { assert AttributedAt(turns, t, i); }
    forall i, d ensures LitAt(u, i, d) { assert LitAt(t, i, d); }
    forall d ensures PastAt(u, d) { assert PastAt(t, d); }
  }

  lemma LightKept(turns: Turns, t: Trail, mark: int)
    requires Kept(turns, false, t) && t.mark <= mark
    ensures Kept(turns, true, t.(dark := t.dark + [Span(t.darkFrom, mark)], mark := mark))
  {
    LaterKept(turns, false, t, mark);
    var w, u := t.(mark := mark), t.(dark := t.dark + [Span(t.darkFrom, mark)], mark := mark);
    forall id ensures ExactAt(turns, u, id) { assert ExactAt(turns, w, id); }
    forall i ensures AttributedAt(turns, u, i) { assert AttributedAt(turns, w, i); }
    forall d ensures PastAt(u, d) { assert PastAt(w, d); }
    forall i, d ensures LitAt(u, i, d) {
      assert LitAt(w, i, d);
      if 0 <= i < |t.log| { OrderedAt(t.log, t.darkFrom, i); }
    }
  }

  // ---------------------------------------------------------------------------------------------
  // The recorder of a thread

  /** The clock may run backwards during a connection, but not from one connection to the next. */
  predicate Timely(r: Recorder, connection: string, now: int) { On(r, connection) || r.trail.mark <= now }

  class ActivityThread {
    var live: Option<Observation>
    var turns: Turns
    var waitingForStorage: bool
    ghost var trail: Trail

    ghost function Value(): Recorder
      reads this
    {
      Recorder(live, turns, trail)
    }

    ghost predicate Valid()
      reads this
    {
      && Kept(turns, Up(Value()), trail)
      && (live.Some? ==> live.value.through == trail.mark)
      && (!Up(Value()) ==> trail.darkFrom <= trail.mark)
    }

    constructor ()
      ensures Valid() && Value() == Fresh
    {
      live, turns, waitingForStorage := None, map[], false;
      trail := Fresh.trail;
    }

    /** The observation of a connection; a new connection starts one that is not connected yet. */
    method ObservationOf(connection: string, now: int)
      requires Valid() && Timely(Value(), connection, now)
      modifies this`live, this`trail
      ensures Valid() && Value() == ObservationStep(old(Value()), connection, now)
    {
      if live.None? || live.value.connection != connection {
        if live.Some? && live.value.connected {
          CarriedKept(turns, true, trail, live.value, now);
          DarkenedKept(turns, Carried(trail, live.value, now));
          trail := Darkened(Carried(trail, live.value, now));
        } else {
          LaterKept(turns, false, trail, now);
          trail := trail.(mark := now);
        }
        live := Some(Observation(connection, false, NoTurn, NoPending, Unclassified, now, now, 0, 0));
      }
    }

    /** Charge an interval to a record, if it is one. */
    method Charge(id: string, state: Activity, from: int, to: int)
      modifies this`turns
      ensures turns == old(turns)[id := ChargedRecord(RecordOf(old(turns), id), id, state, from, to)]
    {
      var r := RecordOf(turns, id).(id := id);
      if from < to { r := r.(sequence := r.sequence + 1, timing := Add(r.timing, state, from, to)); }
      turns := turns[id := r];
    }

    /** Account for the time up to now: at most one interval, and what of the time is dropped. */
    method Accrue(now: int)
      requires Valid()
      modifies this
      ensures Valid() && Value() == AccrueStep(old(Value()), now)
    {
      if live.None? || !live.value.connected { return; }
      var o := live.value;
      var to := Max(now, o.through);
      ghost var after := AccruedTrail(Value(), now);
      AccrueKept(Value(), now);
      if Counts(o) {
        if Blocked(turns, o.turn.id) {
          waitingForStorage := true;
          o := o.(turn := o.turn.(ready := false), state := Unclassified);
        } else if !RecordOf(turns, o.turn.id).final {
          var from := Max(o.through, RecordOf(turns, o.turn.id).startedAt);
          if to > from && o.state.Waiting? { o := o.(openWaiting := o.openWaiting + (to - from)); }
          Charge(o.turn.id, o.state, from, to);
        }
      }
      trail := after;
      live := Some(o.(through := to));
    }

    /** A record takes in the metadata of its turn; a completion in its last second clips its intervals. */
    method TakeMetadata(id: string, b: Bounds)
      requires Valid()
      modifies this`turns, this`trail
      ensures Valid() && Value() == MetadataStep(old(Value()), id, b)
    {
      MetadataKept(Value(), id, b);
      trail := MetadataStep(Value(), id, b).trail;
      turns := turns[id := ApplyMetadata(RecordOf(turns, id), b)];
    }

    method UpdateState(now: int)
      requires Valid() && live.Some?
      modifies this`live, this`trail
      ensures Valid() && Value() == UpdateStep(old(Value()), now)
    {
      var o := live.value;
      var state := ActivityState(o.turn, o.pending);
      if state != o.state { o := o.(openWaiting := 0, state := state, since := now); }
      CarriedKept(turns, Up(Value()), trail, live.value, now);
      trail := Carried(trail, live.value, now);
      live := Some(o.(through := Max(o.through, now)));
    }

    /** The connection is up: the time before it, since the last one was lost, is never counted. */
    method Connected(connection: string, now: int)
      requires Valid() && Timely(Value(), connection, now)
      modifies this`live, this`trail
      ensures Valid() && Value() == ConnectedStep(old(Value()), connection, now)
    {
      ObservationOf(connection, now);
      if !live.value.connected {
        var through := Max(live.value.through, now);
        LightKept(turns, trail, through);
        trail := trail.(dark := trail.dark + [Span(trail.darkFrom, through)], mark := through);
        live := Some(live.value.(connected := true, through := through));
      }
      UpdateState(now);
    }

    /** The connection was found lost: nothing accrues for the time since the last event. */
    method Disconnected(connection: string, ghost now: int)
      requires Valid()
      modifies this`live, this`trail
      ensures Valid() && Value() == DisconnectedStep(old(Value()), connection, now)
    {
      if live.Some? && live.value.connection == connection {
        if live.value.connected {
          CarriedKept(turns, true, trail, live.value, now);
          DarkenedKept(turns, Carried(trail, live.value, now));
          trail := Darkened(Carried(trail, live.value, now));
        }
        live := None;
      }
    }

    /** React to a message. */
    method React(m: Message, now: int)
      requires Valid() && live.Some?
      modifies this
      ensures Valid() && Value() == ReactStep(old(Value()), m, now)
    {
      live := Some(Reacted(live.value, m, now).(revision := live.value.revision + 1));
      if TakesBounds(turns, m) { TakeMetadata(m.bounds.id, m.bounds); }
    }

    /** A message takes effect at its boundary: what came before is accounted for under the old state. */
    method TakeEffect(m: Message, now: int, boundary: int)
      requires Valid() && live.Some? && boundary == Boundary(live.value, m, now)
      modifies this
      ensures Valid() && Value() == EffectStep(old(Value()), m, now)
    {
      Accrue(boundary);
      React(m, now);
      UpdateState(boundary);
    }

    /** Observe a message; the time after its boundary counts under the new state. */
    method Observe(connection: string, m: Message, now: int)
      requires Valid() && Timely(Value(), connection, now)
      modifies this
      ensures Valid() && Value() == ObserveStep(old(Value()), connection, m, now)
    {
      ObservationOf(connection, now);
      if Ignored(m, live.value.turn) { return; }
      var boundary := Boundary(live.value, m, now);
      TakeEffect(m, now, boundary);
      if boundary < now { Accrue(now); }
    }

    /** Every record meets the authoritative turn list: a listed turn gives it its metadata, and a turn
        that is gone leaves it final. */
    method ReconcileRecords(metadata: map<string, TurnMetadata>)
      requires Valid()
      modifies this`turns, this`trail
      ensures Valid() && Value() == RecordsStep(old(Value()), metadata)
    {
      ghost var start := Value();
      var todo := turns.Keys;
      TrimmedAtFirst(start, metadata);
      while todo != {}
        invariant Valid() && live == start.live && todo <= start.turns.Keys
        invariant AllReconciled(start.turns, turns, todo, metadata)
        invariant trail == TrimmedTrail(start, metadata, start.turns.Keys - todo)
        decreases |todo|
      {
        var id :| id in todo;
        TrimmedOneMore(start, metadata, todo, id);
        ReconciledOneMore(start.turns, turns, todo, metadata, id);
        todo := todo - {id};
        ReconcileRecord(metadata, id);
      }
      TrimmedAtLast(start, turns, metadata);
    }

    method ReconcileRecord(metadata: map<string, TurnMetadata>, id: string)
      requires Valid() && id in turns
      modifies this`turns, this`trail
      ensures Valid()
      ensures turns == old(turns)[id := Reconciled(old(turns)[id], metadata, id)]
      ensures trail == if id in metadata then MetadataTrail(old(trail), old(turns)[id], id, metadata[id].bounds)
                else old(trail)
    {
      if id in metadata { TakeMetadata(id, metadata[id].bounds); } else { Finalize(id); }
    }

    /** A removed turn keeps its totals but takes no more time. */
    method Finalize(id: string)
      requires Valid() && id in turns
      modifies this`turns
      ensures Valid()
      ensures turns == old(turns)[id := old(turns)[id].(final := true, sequence := old(turns)[id].sequence + 1)]
    {
      var r := turns[id].(final := true, sequence := turns[id].sequence + 1);
      SameTimesKept(turns, Up(Value()), trail, id, r);
      turns := turns[id := r];
    }

    /** The writer stored a final record and drops it from memory. */
    method Forget(id: string)
      requires Valid()
      modifies this`turns, this`trail
      ensures Valid() && Value() == ForgetStep(old(Value()), id)
    {
      ForgetKept(turns, Up(Value()), trail, id);
      trail := ForgetStep(Value(), id).trail;
      turns := turns - {id};
    }

    method TakeList(history: seq<TurnMetadata>, metadata: map<string, TurnMetadata>, active: bool, flags: seq<Flag>)
      requires Valid() && live.Some? && metadata == ById(history)
      modifies this`live, this`turns, this`trail
      ensures Valid() && Value() == ListStep(old(Value()), history, active, flags)
    {
      var o := Resumed(live.value, history, active, flags);
      live := Some(Cleared(o, metadata));
      ReconcileRecords(metadata);
      var id := o.turn.id;
      if id in metadata && !Blocked(turns, id) && (id in turns || o.turn.active) {
        TakeMetadata(id, metadata[id].bounds);
      }
    }

    /** Reconcile with the history that was read while the observation had the given revision. */
    method Reconcile(connection: string, history: seq<TurnMetadata>, active: bool, flags: seq<Flag>, now: int,
      revision: nat)
      requires Valid()
      modifies this
      ensures Valid() && Value() == ReconcileStep(old(Value()), connection, history, active, flags, now, revision)
    {
      if live.None? || live.value.connection != connection || !live.value.connected { return; }
      var metadata := ById(history);
      Accrue(EndOf(live.value, metadata, now));
      if live.value.revision == revision { TakeList(history, metadata, active, flags); }
      UpdateState(now);
    }
  }

  lemma CompletionEndsLog(r: Recorder, m: Message, now: int)
    requires Kept(r.turns, true, r.trail) && Up(r) && r.live.value.through == r.trail.mark
    requires Completes(m, r.live.value.turn.id, now)
    ensures Ordered(EffectStep(r, m, now).trail.log, Max(m.bounds.completedAt, r.trail.mark))
  {
    var boundary := Boundary(r.live.value, m, now);
    var q := AccrueStep(r, boundary);
    AccrueKept(r, boundary);
    ClipOrdered(q.trail.log, KeyOf(q.trail, m.bounds.id), m.bounds.completedAt, boundary);
  }

  lemma NothingAfterCompletion(r: Recorder, m: Message, now: int)
    requires Up(r) && Completes(m, r.live.value.turn.id, now)
    ensures AccrueStep(EffectStep(r, m, now), now).trail.log == EffectStep(r, m, now).trail.log
  {
    assert !EffectStep(r, m, now).live.value.turn.active;
  }

  /** A turn that completed before now is charged nothing beyond that, or beyond what was accounted for already. */
  lemma CompletedTurnTakesNoMore(r: Recorder, m: Message, now: int)
    requires Kept(r.turns, true, r.trail) && Up(r) && r.live.value.through == r.trail.mark
    requires Completes(m, r.live.value.turn.id, now)
    ensures var q := ObserveStep(r, r.live.value.connection, m, now);
            Ordered(q.trail.log, Max(m.bounds.completedAt, r.trail.mark))
  {
    CompletionEndsLog(r, m, now);
    NothingAfterCompletion(r, m, now);
  }

  predicate AllReconciled(before: Turns, after: Turns, todo: set<string>, metadata: map<string, TurnMetadata>) {
    && before.Keys == after.Keys
    && forall id :: id in after ==> after[id] == if id in todo then before[id] else Reconciled(before[id], metadata, id)
  }

  /** The trail once some of the records met the turn list. */
  function TrimmedTrail(r: Recorder, metadata: map<string, TurnMetadata>, done: set<string>): Trail {
    var cuts := CutsOf(r.turns, metadata, done);
    r.trail.(log := Trimmed(r.trail.log, cuts, r.trail.copies),
             cut := r.trail.cut + Taken(r.trail.log, cuts, r.trail.copies))
  }

  lemma TrimmedAtFirst(r: Recorder, metadata: map<string, TurnMetadata>)
    ensures TrimmedTrail(r, metadata, r.turns.Keys - r.turns.Keys) == r.trail
    ensures AllReconciled(r.turns, r.turns, r.turns.Keys, metadata)
  {
    assert CutsOf(r.turns, metadata, r.turns.Keys - r.turns.Keys) == map[];
    TrimmedNone(r.trail.log, r.trail.copies);
  }

  lemma TrimmedAtLast(r: Recorder, turns: Turns, metadata: map<string, TurnMetadata>)
    requires AllReconciled(r.turns, turns, {}, metadata)
    ensures turns == RecordsStep(r, metadata).turns
    ensures TrimmedTrail(r, metadata, r.turns.Keys - {}) == RecordsStep(r, metadata).trail
  {
    assert r.turns.Keys - {} == r.turns.Keys;
  }

  lemma ReconciledOneMore(
    before: Turns, after: Turns, todo: set<string>, metadata: map<string, TurnMetadata>, id: string)
    requires AllReconciled(before, after, todo, metadata) && id in todo && id in before
    ensures after[id] == before[id]
    ensures AllReconciled(before, after[id := Reconciled(before[id], metadata, id)], todo - {id}, metadata)
  {
  }

  lemma TrimmedOneMore(r: Recorder, metadata: map<string, TurnMetadata>, todo: set<string>, id: string)
    requires id in todo && todo <= r.turns.Keys
    ensures var t := TrimmedTrail(r, metadata, r.turns.Keys - todo);
            TrimmedTrail(r, metadata, r.turns.Keys - (todo - {id})) ==
              if id in metadata then MetadataTrail(t, r.turns[id], id, metadata[id].bounds) else t
  {
    var done, more := r.turns.Keys - todo, r.turns.Keys - (todo - {id});
    var cuts := CutsOf(r.turns, metadata, done);
    if id in metadata && Shortens(r.turns[id], metadata[id].bounds) {
      assert CutsOf(r.turns, metadata, more) == cuts[id := metadata[id].bounds.completedAt];
      TrimmedNext(r.trail.log, cuts, r.trail.copies, id, metadata[id].bounds.completedAt);
    } else {
      assert CutsOf(r.turns, metadata, more) == cuts;
    }
  }

  // ---------------------------------------------------------------------------------------------
  // What the invariant of a thread amounts to

  /** The records are a lossless compression of what was observed: no two intervals overlap, whatever
      their turns and states; none covers time without a connection; and the totals of every record in
      memory are exactly the lengths of its intervals, also of the part in the last second. */
  lemma AccruedTimeIsExact(turns: Turns, connected: bool, t: Trail)
    requires Kept(turns, connected, t)
    ensures forall i, j :: 0 <= i < j < |t.log| ==> t.log[i].to <= t.log[j].from
    ensures forall i, d :: 0 <= i < |t.log| && 0 <= d < |t.dark| ==>
            t.log[i].to <= t.dark[d].from || t.dark[d].to <= t.log[i].from
    ensures !connected ==> forall i :: 0 <= i < |t.log| ==> t.log[i].to <= t.darkFrom
    ensures forall id :: id in turns ==>
            Totals(turns[id].timing, t.log, KeyOf(t, id)) && Within(turns[id].timing, t.log, KeyOf(t, id))
  {
    forall i, j | 0 <= i < j < |t.log| ensures t.log[i].to <= t.log[j].from { OrderedDisjoint(t.log, t.mark, i, j); }
    forall i, d | 0 <= i < |t.log| && 0 <= d < |t.dark| ensures t.log[i].to <= t.dark[d].from
      || t.dark[d].to <= t.log[i].from {
      assert LitAt(t, i, d);
    }
    if !connected {
      forall i | 0 <= i < |t.log| ensures t.log[i].to <= t.darkFrom { OrderedAt(t.log, t.darkFrom, i); }
    }
    forall id | id in turns ensures Totals(turns[id].timing, t.log, KeyOf(t, id))
      && Within(turns[id].timing, t.log, KeyOf(t, id)) {
      RecordExact(turns, connected, t, id);
    }
  }
}
