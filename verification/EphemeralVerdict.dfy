/** What a positive verdict of the ephemeral sink stands for, and what happens when its buffer overflows. */
module EphemeralVerdict {
  import opened Prelude
  import opened EphemeralEvidence
  import opened EphemeralSink
  import opened EphemeralTransparency

  // ---------------------------------------------------------------------------------------------
  // More early notifications than the buffer holds: neither a result nor a retry

  /** The turn failed and never settled: nothing more is taken. */
  predicate Stuck(v: Verdict) { v.err.Some? && !v.settled }

  lemma NoteKeepsSettled(o: Owner, v: Verdict, m: Method, p: Params)
    ensures NoteIdentity(o, v, m, p).settled == v.settled
  {
    if o.issued { NotedAlike(v, v, Foreign(o, v.cleanupTurn, m, p), TurnNamed(m, p)); }
  }

  lemma JudgedKeepsSettled(v: Verdict, fault: Option<Failure>)
    ensures Judged(v, fault).0.settled == v.settled
  {
  }

  lemma RejectKeepsSettled(o: Owner, v: Verdict, m: Method, p: Params)
    ensures RejectEvidence(o, v, m, p).0.settled == v.settled
  {
    if !m.ErrorNote? {
      NoteKeepsSettled(o, v, m, p);
      JudgedKeepsSettled(NoteIdentity(o, v, m, p), Fault(NoteIdentity(o, v, m, p), m, p));
    }
  }

  lemma StuckConsume(o: Owner, v: Verdict, m: Method, p: Params)
    requires Stuck(v)
    ensures Stuck(Consume(o, v, m, p))
  {
    RejectKeepsSettled(o, v, m, p);
    RejectFollows(o, v, m, p);
  }

  lemma {:induction false} StuckReplay(o: Owner, v: Verdict, events: seq<Frame>)
    requires Stuck(v)
    ensures Stuck(Replay(o, v, events))
    decreases |events|
  {
    if events != [] {
      if events[0].Notification? {
        StuckConsume(o, v, events[0].kind, events[0].params);
        StuckReplay(o, Consume(o, v, events[0].kind, events[0].params), events[1..]);
      } else {
        StuckReplay(o, v, events[1..]);
      }
    }
  }

  lemma StuckHandle(s: State, generation: nat, f: Frame)
    requires Stuck(s.v)
    ensures Stuck(Handle(s, generation, f).v)
  {
    if Relevant(f) {
      var o := if s.own.generation == 0 then s.own.(generation := generation) else s.own;
      RejectKeepsSettled(o, s.v, f.kind, f.params);
      RejectFollows(o, s.v, f.kind, f.params);
    }
  }

  lemma {:induction false} StuckDeliver(s: State, trace: seq<Arrival>)
    requires Stuck(s.v)
    ensures Stuck(Deliver(s, trace).v)
    decreases |trace|
  {
    if trace != [] {
      StuckHandle(s, trace[0].generation, trace[0].frame);
      StuckDeliver(Handle(s, trace[0].generation, trace[0].frame), trace[1..]);
    }
  }

  /** A sink that is not bound yet and has not failed buffers every relevant notification. */
  predicate Buffering(s: State, n: nat) { s.own.turn == "" && !s.v.settled && |s.events| == n <= EventLimit }

  lemma EarlyHandle(s: State, generation: nat, f: Frame)
    requires Buffering(s, |s.events|)
    ensures Stuck(Handle(s, generation, f).v)
            || Buffering(Handle(s, generation, f), |s.events| + if Relevant(f) then 1 else 0)
  {
    if Relevant(f) {
      var o := if s.own.generation == 0 then s.own.(generation := generation) else s.own;
      RejectKeepsSettled(o, s.v, f.kind, f.params);
      RejectFollows(o, s.v, f.kind, f.params);
    }
  }

  lemma {:induction false} EarlyOverflow(s: State, trace: seq<Arrival>)
    requires Buffering(s, |s.events|) && |s.events| + RelevantIn(trace) > EventLimit
    ensures Stuck(Deliver(s, trace).v)
    decreases |trace|
  {
    var t := Handle(s, trace[0].generation, trace[0].frame);
    EarlyHandle(s, trace[0].generation, trace[0].frame);
    if Stuck(t.v) { StuckDeliver(t, trace[1..]); } else { EarlyOverflow(t, trace[1..]); }
  }

  lemma OverflowFails(generation: nat, thread: string, turn: string, early: seq<Arrival>, late: seq<Arrival>)
    requires RelevantIn(early) > EventLimit
    ensures var split := Deliver(Bind(Deliver(Begun(generation, thread), early), generation, thread, turn), late);
            Success(split) == None && !CanRetry(split, generation, thread, turn)
  {
    EarlyOverflow(Begun(generation, thread), early);
    var s := Deliver(Begun(generation, thread), early);
    StuckReplay(s.own.(thread := thread, turn := turn), s.v, s.events);
    StuckDeliver(Bind(s, generation, thread, turn), late);
  }

  // ---------------------------------------------------------------------------------------------
  // What a trace must look like for the turn to be safe to retry

  /** The message names this thread and turn and has the shape its method calls for. */
  predicate Owned(thread: string, turn: string, m: Method, p: Params) {
    && p.Params? && p.thread == Some(thread) && TurnNamed(m, p) == turn
    && (if m.ErrorNote? then ShapedError(p) else Identifies(thread, m, p))
  }

  /** Neither a foreign connection, nor a request by the server, nor evidence about anything else. */
  predicate Clean(generation: nat, thread: string, turn: string, a: Arrival) {
    a.generation == generation && !a.frame.ServerRequest?
      && (Relevant(a.frame) ==> Owned(thread, turn, a.frame.kind, a.frame.params))
  }

  predicate IsCompletion(f: Frame) {
    f.Notification? && f.kind.TurnCompleted? && f.params.Params? && f.params.turn.Some?
  }

  predicate IsTerminalError(f: Frame) {
    f.Notification? && f.kind.ErrorNote? && f.params.Params? && f.params.willRetry == Some(false)
  }

  /** The server answered with a status that another attempt may not meet. */
  predicate PassingStatus(code: int) { code == 408 || code == 500 || code == 502 || code == 503 || code == 504 }

  /** Every field of the error has the type and range that it must have. */
  predicate Understood(e: TurnError) {
    && e.shaped && e.info != BadInfo
    && (e.info.Transport? ==>
          && e.info.shaped && e.info.sole && e.info.status != BadStatus
          && (e.info.status.StatusCode? ==> 0 <= e.info.status.code < 65536))
  }

  /** The server was overloaded, had an internal error or no capacity, or could not be reached for a passing reason. */
  predicate Passing(e: TurnError) {
    Understood(e) &&
    (|| e.info == Code(ServerOverloaded) || e.info == Code(InternalServerError)
     || (e.info == Code(OtherCode) && e.capacityMessage)
     || (e.info.Transport? && e.info.status.StatusCode? && PassingStatus(e.info.status.code))
     || (e.info.Transport? && e.info.status == NoStatus && e.info.kind != TooManyFailedAttempts))
  }

  lemma GradeExactlyWhen(e: TurnError)
    ensures Classify(e).InvalidError? <==> !Understood(e)
    ensures Classify(e).TransientError? <==> Passing(e)
  {
  }

  /** A terminal error is transient. */
  predicate TransientNote(f: Frame) {
    IsTerminalError(f) ==> f.params.error.Some? && Passing(f.params.error.value)
  }

  /** A completion says that the turn failed or was interrupted, and its own error, if any, is transient. */
  predicate TransientFailure(turn: Turn) {
    (turn.status.Failed? || turn.status.Interrupted?)
      && (turn.error.Some? ==> Passing(turn.error.value))
  }

  predicate AllClean(generation: nat, thread: string, turn: string, trace: seq<Arrival>) {
    forall i :: 0 <= i < |trace| ==> Clean(generation, thread, turn, trace[i])
  }

  predicate AllTransient(trace: seq<Arrival>) {
    forall i :: 0 <= i < |trace| ==> TransientNote(trace[i].frame)
  }

  predicate AllFailures(trace: seq<Arrival>) {
    forall i :: 0 <= i < |trace| && IsCompletion(trace[i].frame) ==> TransientFailure(trace[i].frame.params.turn.value)
  }

  predicate SomeCompletion(trace: seq<Arrival>) { exists i :: 0 <= i < |trace| && IsCompletion(trace[i].frame) }

  predicate SafeTrace(generation: nat, thread: string, turn: string, trace: seq<Arrival>) {
    AllClean(generation, thread, turn, trace) && AllTransient(trace) && AllFailures(trace) && SomeCompletion(trace)
  }

  // ---------------------------------------------------------------------------------------------
  // What a message that is not rejected looks like

  lemma UnrejectedOwned(o: Owner, v: Verdict, m: Method, p: Params)
    requires o.issued && o.turn != "" && !m.OtherMethod? && !RejectEvidence(o, v, m, p).1
    ensures Owned(o.thread, o.turn, m, p)
  {
    if !m.ErrorNote? && Foreign(o, v.cleanupTurn, m, p) { ForeignRejected(o, v, m, p); }
  }

  lemma UnrejectedKeeps(o: Owner, v: Verdict, m: Method, p: Params)
    requires o.issued && !RejectEvidence(o, v, m, p).1
    ensures Alike(v, RejectEvidence(o, v, m, p).0) && (m.ErrorNote? ==> !v.settled)
  {
    if !m.ErrorNote? && Foreign(o, v.cleanupTurn, m, p) { ForeignRejected(o, v, m, p); }
  }

  lemma UnrejectedFaultless(o: Owner, v: Verdict, m: Method, p: Params)
    requires o.issued && !m.ErrorNote? && !RejectEvidence(o, v, m, p).1
    ensures Fault(v, m, p).None?
  {
    UnrejectedKeeps(o, v, m, p);
    FaultAlike(v, RejectEvidence(o, v, m, p).0, m, p);
    if Foreign(o, v.cleanupTurn, m, p) { ForeignRejected(o, v, m, p); }
  }

  lemma TakeItemShape(v: Verdict, item: Item)
    requires v.err.None?
    ensures Rejected(TakeItem(v, item)) || TakeItem(v, item) == v.(answer := TakeItem(v, item).answer)
  {
  }

  lemma {:induction false} TakeItemsShape(v: Verdict, w: Verdict, items: seq<Option<Item>>)
    requires v.err.None? && ItemsFault(w, items).None?
    ensures Rejected(TakeItems(v, items)) || TakeItems(v, items) == v.(answer := TakeItems(v, items).answer)
    decreases |items|
  {
    if items != [] {
      var t := TakeItem(v, items[0].value);
      TakeItemShape(v, items[0].value);
      if t.err.None? { TakeItemsShape(t, w, items[1..]); }
    }
  }

  // ---------------------------------------------------------------------------------------------
  // The invariant of a bound sink

  /** A retry may still turn out to be safe. */
  predicate Hopeful(v: Verdict) { !Rejected(v) && (v.err.None? || v.transient) }

  /** How the flags of a verdict hang together. */
  predicate Coherent(v: Verdict) {
    && (v.transient ==> v.terminal) && (v.err.None? && v.settled ==> v.completed && !v.terminal)
    && (Hopeful(v) && v.err.Some? ==> v.settled && v.terminal)
  }

  predicate TransientMark(e: Evidence) {
    && e.Evidence? && (e.status.Failed? || e.status.Interrupted?)
    && (e.error.Some? ==>
          Classify(TurnError(true, e.error.value.capacityMessage, e.error.value.info, "")).TransientError?)
  }

  lemma MarkDecides(turn: Turn)
    requires ShapedTurn(turn)
    ensures TransientMark(CompletionEvidence(turn)) == TransientFailure(turn)
  {
  }

  /** No completion yet while unsettled; after a failure every completion is transient. */
  predicate Told(v: Verdict, trace: seq<Arrival>) {
    && (!v.settled ==> !SomeCompletion(trace))
    && (v.settled && v.terminal ==> AllFailures(trace) && SomeCompletion(trace) && TransientMark(v.evidence))
  }

  predicate Sound(v: Verdict, o: Owner, trace: seq<Arrival>) {
    && Coherent(v)
    && (!Rejected(v) ==> AllClean(o.generation, o.thread, o.turn, trace))
    && (Hopeful(v) ==> AllTransient(trace) && Told(v, trace))
  }

  lemma SoundRejected(v: Verdict, o: Owner, trace: seq<Arrival>)
    requires Rejected(v) && (v.transient ==> v.terminal)
    ensures Sound(v, o, trace)
  {
  }

  lemma RejectCoherent(o: Owner, v: Verdict, m: Method, p: Params)
    requires Coherent(v) && RejectEvidence(o, v, m, p).1
    ensures !RejectEvidence(o, v, m, p).0.transient
  {
  }

  /** A message that changes nothing but the noted turn or the answer. */
  lemma SoundSame(v: Verdict, w: Verdict, o: Owner, trace: seq<Arrival>, a: Arrival)
    requires Sound(v, o, trace) && w == v.(cleanupTurn := w.cleanupTurn, answer := w.answer)
    requires Clean(o.generation, o.thread, o.turn, a) && TransientNote(a.frame) && !IsCompletion(a.frame)
    ensures Sound(w, o, trace + [a])
  {
    Extended(o, trace, a);
  }

  lemma Extended(o: Owner, trace: seq<Arrival>, a: Arrival)
    ensures AllClean(o.generation, o.thread, o.turn, trace) && Clean(o.generation, o.thread, o.turn, a) ==>
            AllClean(o.generation, o.thread, o.turn, trace + [a])
    ensures AllTransient(trace) && TransientNote(a.frame) ==> AllTransient(trace + [a])
    ensures !IsCompletion(a.frame) ==> SomeCompletion(trace + [a]) == SomeCompletion(trace)
    ensures !IsCompletion(a.frame) && AllFailures(trace) ==> AllFailures(trace + [a])
    ensures IsCompletion(a.frame) ==> SomeCompletion(trace + [a])
    ensures IsCompletion(a.frame) && TransientFailure(a.frame.params.turn.value) ==>
              (AllFailures(trace) || !SomeCompletion(trace) ==> AllFailures(trace + [a]))
  {
    var t := trace + [a];
    assert t[|trace|] == a;
    assert forall i :: 0 <= i < |trace| ==> t[i] == trace[i];
  }

  lemma SoundError(v: Verdict, willRetry: bool, grade: ErrorClass, o: Owner, trace: seq<Arrival>, a: Arrival)
    requires Sound(v, o, trace) && v.err.None? && !v.settled && Clean(o.generation, o.thread, o.turn, a)
    requires !IsCompletion(a.frame)
    requires !willRetry && grade.TransientError? ==> TransientNote(a.frame)
    requires willRetry ==> TransientNote(a.frame)
    ensures Sound(TakeError(v, willRetry, grade), o, trace + [a])
  {
    Extended(o, trace, a);
  }

  lemma SoundSettle(v: Verdict, o: Owner, trace: seq<Arrival>, a: Arrival)
    requires Sound(v, o, trace) && v.err.None? && !v.settled && !v.completed && Clean(o.generation, o.thread, o.turn, a)
    requires IsCompletion(a.frame) && ShapedTurn(a.frame.params.turn.value)
    ensures Sound(Settle(v, a.frame.params.turn.value), o, trace + [a])
  {
    var turn := a.frame.params.turn.value;
    Extended(o, trace, a);
    MarkDecides(turn);
    if !turn.status.Completed? && FailedTransiently(v, turn) { assert TransientFailure(turn); }
  }

  lemma SoundCompletion(v: Verdict, o: Owner, trace: seq<Arrival>, a: Arrival)
    requires Sound(v, o, trace) && v.err.None? && Clean(o.generation, o.thread, o.turn, a)
    requires IsCompletion(a.frame) && CompletionFault(v, a.frame.params.turn.value).None?
    ensures Sound(TakeCompletion(v, a.frame.params.turn.value), o, trace + [a])
  {
    var turn := a.frame.params.turn.value;
    TakeItemsShape(v, v, turn.items.value);
    var t := TakeItems(v, turn.items.value);
    if t.err.None? {
      SoundSettle(t, o, trace, a);
    } else {
      TakeItemsTransient(v, turn.items.value);
      SoundRejected(t, o, trace + [a]);
    }
  }

  lemma {:induction false} TakeItemsTransient(v: Verdict, items: seq<Option<Item>>)
    requires v.transient ==> v.terminal
    ensures TakeItems(v, items).transient ==> TakeItems(v, items).terminal
    decreases |items|
  {
    if items != [] && items[0].Some? { TakeItemsTransient(TakeItem(v, items[0].value), items[1..]); }
  }

  /** Once the turn failed, only a repetition of its completion is let through. */
  lemma SoundRepeat(v: Verdict, w: Verdict, o: Owner, trace: seq<Arrival>, a: Arrival)
    requires Sound(v, o, trace) && v.err.Some? && Alike(v, w) && Clean(o.generation, o.thread, o.turn, a)
    requires TransientNote(a.frame) || !Hopeful(v)
    requires IsCompletion(a.frame) ==> CompletionFault(v, a.frame.params.turn.value).None?
    ensures Sound(w, o, trace + [a])
  {
    Extended(o, trace, a);
    if Hopeful(v) && IsCompletion(a.frame) { MarkDecides(a.frame.params.turn.value); }
  }

  lemma SoundTake(v: Verdict, o: Owner, trace: seq<Arrival>, a: Arrival)
    requires Sound(v, o, trace) && v.err.None? && Relevant(a.frame) && Clean(o.generation, o.thread, o.turn, a)
    requires if a.frame.kind.ErrorNote? then !v.settled else Fault(v, a.frame.kind, a.frame.params).None?
    ensures Sound(Take(v, ContentOf(o, a.frame.kind, a.frame.params)), o, trace + [a])
  {
    var m, p := a.frame.kind, a.frame.params;
    if m.TurnStarted? || m.ItemStarted? {
      SoundSame(v, v, o, trace, a);
    } else if m.ErrorNote? {
      SoundError(v, p.willRetry.value, Classify(p.error.value), o, trace, a);
    } else if m.ItemCompleted? {
      SoundSame(v, TakeItem(v, p.item.value), o, trace, a);
    } else {
      SoundCompletion(v, o, trace, a);
    }
  }

  lemma SoundConsume(v: Verdict, o: Owner, trace: seq<Arrival>, a: Arrival)
    requires Sound(v, o, trace) && o.issued && o.turn != "" && Relevant(a.frame) && a.generation == o.generation
    ensures Sound(Consume(o, v, a.frame.kind, a.frame.params), o, trace + [a])
  {
    var m, p := a.frame.kind, a.frame.params;
    var t := RejectEvidence(o, v, m, p).0;
    RejectFollows(o, v, m, p);
    if RejectEvidence(o, v, m, p).1 {
      RejectCoherent(o, v, m, p);
      SoundRejected(t, o, trace + [a]);
    } else {
      UnrejectedOwned(o, v, m, p);
      UnrejectedKeeps(o, v, m, p);
      if !m.ErrorNote? {
        UnrejectedFaultless(o, v, m, p);
        FaultAlike(v, t, m, p);
      }
      if t.err.Some? {
        SoundRepeat(v, t, o, trace, a);
      } else {
        SoundTake(t, o, trace, a);
      }
    }
  }

  lemma SoundHandle(s: State, generation: nat, thread: string, turn: string, trace: seq<Arrival>, a: Arrival)
    requires BoundTo(s.own, generation, thread, turn) && Sound(s.v, s.own, trace)
    ensures Handle(s, a.generation, a.frame).own == s.own
    ensures Sound(Handle(s, a.generation, a.frame).v, s.own, trace + [a])
  {
    if a.generation != generation || a.frame.ServerRequest? {
      SoundRejected(Handle(s, a.generation, a.frame).v, s.own, trace + [a]);
    } else if Relevant(a.frame) {
      BoundHandle(s, generation, thread, turn, a.frame);
      SoundConsume(s.v, s.own, trace, a);
    } else {
      SoundSame(s.v, s.v, s.own, trace, a);
    }
  }

  lemma {:induction false} SoundDeliver(s: State, generation: nat, thread: string, turn: string, past: seq<Arrival>,
    trace: seq<Arrival>)
    requires BoundTo(s.own, generation, thread, turn) && Sound(s.v, s.own, past)
    ensures Sound(Deliver(s, trace).v, s.own, past + trace)
    decreases |trace|
  {
    if trace == [] {
      assert past + trace == past;
    } else {
      SoundHandle(s, generation, thread, turn, past, trace[0]);
      SoundDeliver(Handle(s, trace[0].generation, trace[0].frame), generation, thread, turn, past + [trace[0]],
        trace[1..]);
      assert past + [trace[0]] + trace[1..] == past + trace;
    }
  }

  /** A positive verdict is earned: wherever the turn was bound, every arrival was clean, the turn
      completed as failed or interrupted, and every terminal error and every completion was transient. */
  lemma RetryIsEarned(generation: nat, thread: string, turn: string, early: seq<Arrival>, late: seq<Arrival>)
    requires generation != 0 && thread != "" && ValidId(turn)
    ensures var split := Deliver(Bind(Deliver(Begun(generation, thread), early), generation, thread, turn), late);
            CanRetry(split, generation, thread, turn) ==> SafeTrace(generation, thread, turn, early + late)
  {
    if RelevantIn(early) > EventLimit {
      OverflowFails(generation, thread, turn, early, late);
    } else {
      BufferingIsTransparent(generation, thread, turn, early, late);
      SoundDeliver(Bind(Begun(generation, thread), generation, thread, turn), generation, thread, turn, [],
        early + late);
      assert [] + (early + late) == early + late;
    }
  }

  // ---------------------------------------------------------------------------------------------
  // Revocation is permanent

  /** What may happen to a sink: something arrives, or it is bound. */
  datatype Event = Arrives(arrival: Arrival) | Binds(generation: nat, thread: string, turn: string)

  function Continue(s: State, events: seq<Event>): State
    decreases |events|
  {
    if events == [] then s else
    match events[0]
    case Arrives(a) => Continue(Handle(s, a.generation, a.frame), events[1..])
    case Binds(generation, thread, turn) => Continue(Bind(s, generation, thread, turn), events[1..])
  }

  lemma BindFollows(s: State, generation: nat, thread: string, turn: string)
    ensures Follows(s.v, Bind(s, generation, thread, turn).v)
  {
    if !Misbinds(s, generation, thread, turn) { ReplayFollows(s.own.(thread := thread, turn := turn), s.v, s.events); }
  }

  lemma {:induction false} ContinueFollows(s: State, events: seq<Event>)
    ensures Follows(s.v, Continue(s, events).v)
    decreases |events|
  {
    if events != [] {
      match events[0]
      case Arrives(a) =>
        HandleFollows(s, a.generation, a.frame);
        ContinueFollows(Handle(s, a.generation, a.frame), events[1..]);
      case Binds(generation, thread, turn) =>
        BindFollows(s, generation, thread, turn);
        ContinueFollows(Bind(s, generation, thread, turn), events[1..]);
    }
  }

  /** Contradictory evidence revokes for good: nothing that arrives later, and no later bind, brings back a result or
      a retry. */
  lemma RevocationIsPermanent(s: State, events: seq<Event>, generation: nat, thread: string, turn: string)
    requires Rejected(s.v)
    ensures Success(Continue(s, events)) == None && !CanRetry(Continue(s, events), generation, thread, turn)
  {
    ContinueFollows(s, events);
    RejectedVerdict(Continue(s, events), generation, thread, turn);
  }
}
