/** Exactly when an ephemeral turn has a result, and which (codex/ephemeral.go:817-1334). */
module EphemeralSuccess {
  import opened Prelude
  import opened EphemeralEvidence
  import opened EphemeralSink
  import opened EphemeralTransparency
  import opened EphemeralVerdict
  import opened EphemeralResult
  import opened EphemeralRetry

  /** What matters of a trace on the way to a result to what comes next. */
  function Progress(trace: seq<Arrival>): Verdict {
    NoVerdict.(answer := AnswerOf(trace), settled := SomeCompletion(trace), completed := SomeCompletion(trace))
  }

  /** The arrival is clean and stands in the way of no result: an error is followed by a retry and precedes the
      completion, there is one completion and it says that the turn completed, and all final answers are the same. */
  predicate Serves(generation: nat, thread: string, turn: string, past: seq<Arrival>, a: Arrival) {
    && Clean(generation, thread, turn, a)
    && (Relevant(a.frame) ==>
          if a.frame.kind.ErrorNote? then
            ValidId(thread) && !SomeCompletion(past) && !IsTerminalError(a.frame)
          else
            && Fault(Progress(past), a.frame.kind, a.frame.params).None?
            && (IsCompletion(a.frame) ==> IsSuccess(a.frame) && Agreeing(AnswerOf(past), ItemsOf(a.frame))))
  }

  predicate AllServe(generation: nat, thread: string, turn: string, trace: seq<Arrival>)
    decreases |trace|
  {
    trace == []
    || (AllServe(generation, thread, turn, trace[..|trace| - 1])
          && Serves(generation, thread, turn, trace[..|trace| - 1], trace[|trace| - 1]))
  }

  /** The verdict stands for a trace that leads to a result. */
  predicate Served(v: Verdict, trace: seq<Arrival>, turn: string) {
    v == Progress(trace).(cleanupTurn := v.cleanupTurn) && NotedOwn(v, turn)
  }

  /** There will be no result: something failed, or a terminal error came before the completion. */
  predicate Doomed(v: Verdict) { v.err.Some? || (v.terminal && !v.completed) }

  // ---------------------------------------------------------------------------------------------
  // No result comes back

  lemma {:induction false} TakeItemsKeeps(v: Verdict, items: seq<Option<Item>>)
    ensures TakeItems(v, items).completed == v.completed && TakeItems(v, items).terminal == v.terminal
    decreases |items|
  {
    if items != [] && items[0].Some? && TakeItem(v, items[0].value).err.None? {
      TakeItemsKeeps(TakeItem(v, items[0].value), items[1..]);
    }
  }

  lemma DoomedTake(v: Verdict, c: Content)
    requires v.err.None? && Doomed(v)
    ensures Doomed(Take(v, c))
  {
    if c.ACompletion? && c.turn.items.Some? { TakeItemsKeeps(v, c.turn.items.value); }
  }

  lemma DoomedConsume(o: Owner, v: Verdict, m: Method, p: Params)
    requires Doomed(v) && o.issued
    ensures Doomed(Consume(o, v, m, p))
  {
    var t := RejectEvidence(o, v, m, p).0;
    RejectFollows(o, v, m, p);
    if !RejectEvidence(o, v, m, p).1 {
      UnrejectedKeeps(o, v, m, p);
      if t.err.None? { DoomedTake(t, ContentOf(o, m, p)); }
    }
  }

  lemma DoomedHandle(s: State, generation: nat, thread: string, turn: string, a: Arrival)
    requires BoundTo(s.own, generation, thread, turn) && Doomed(s.v)
    ensures Doomed(Handle(s, a.generation, a.frame).v) && Handle(s, a.generation, a.frame).own == s.own
  {
    if a.generation == generation && Relevant(a.frame) {
      BoundHandle(s, generation, thread, turn, a.frame);
      DoomedConsume(s.own, s.v, a.frame.kind, a.frame.params);
    }
  }

  // ---------------------------------------------------------------------------------------------
  // What serves is taken in, and anything else dooms

  lemma ServedSnoc(generation: nat, thread: string, turn: string, trace: seq<Arrival>, a: Arrival)
    ensures Progress(trace + [a]) == Progress(trace).(
              answer := if AnswerOf(trace).Some? then AnswerOf(trace) else FirstAnswer(ItemsOf(a.frame)),
              settled := SomeCompletion(trace) || IsCompletion(a.frame),
              completed := SomeCompletion(trace) || IsCompletion(a.frame))
    ensures AllServe(generation, thread, turn, trace + [a]) <==>
            AllServe(generation, thread, turn, trace) && Serves(generation, thread, turn, trace, a)
  {
    Snoc(generation, thread, turn, trace, a);
    OneMore(trace, a);
    var t := trace + [a];
    assert t[..|t| - 1] == trace && t[|t| - 1] == a;
  }

  /** A message without items that is no completion changes nothing. */
  lemma ServedSame(v: Verdict, o: Owner, trace: seq<Arrival>, a: Arrival)
    requires Served(v, trace, o.turn) && !IsCompletion(a.frame) && ItemsOf(a.frame) == []
    ensures Served(v, trace + [a], o.turn)
  {
    ServedSnoc(o.generation, o.thread, o.turn, trace, a);
  }

  lemma ServedItem(v: Verdict, o: Owner, trace: seq<Arrival>, a: Arrival)
    requires Served(v, trace, o.turn)
    requires a.frame.Notification? && a.frame.kind.ItemCompleted? && a.frame.params.Params? && a.frame.params.item.Some?
    requires ItemFault(v, a.frame.params.item.value, true).None?
    ensures Served(TakeItem(v, a.frame.params.item.value), trace + [a], o.turn)
  {
    ServedSnoc(o.generation, o.thread, o.turn, trace, a);
    var item := a.frame.params.item;
    assert FirstAnswer([item]) == AnswerIn(item) by { assert [item][1..] == []; }
  }

  lemma ServedCompletion(v: Verdict, o: Owner, trace: seq<Arrival>, a: Arrival)
    requires Served(v, trace, o.turn) && IsCompletion(a.frame)
    requires CompletionFault(v, a.frame.params.turn.value).None?
    ensures var w := TakeCompletion(v, a.frame.params.turn.value);
            if IsSuccess(a.frame) && Agreeing(AnswerOf(trace), ItemsOf(a.frame)) then Served(w, trace + [a], o.turn)
            else Doomed(w)
  {
    ServedSnoc(o.generation, o.thread, o.turn, trace, a);
    TakeItemsAgreeing(v, v, a.frame.params.turn.value.items.value);
  }

  /** An error that will be retried changes nothing, and a terminal one leaves no result. */
  lemma ServedError(v: Verdict, o: Owner, trace: seq<Arrival>, a: Arrival)
    requires Served(v, trace, o.turn) && Relevant(a.frame) && a.frame.kind.ErrorNote? && !SomeCompletion(trace)
    requires Clean(o.generation, o.thread, o.turn, a)
    ensures var w := Take(v, ContentOf(o, a.frame.kind, a.frame.params));
            if IsTerminalError(a.frame) then Doomed(w) else Served(w, trace + [a], o.turn)
  {
    ServedSame(v, o, trace, a);
  }

  lemma ServedTake(v: Verdict, o: Owner, trace: seq<Arrival>, a: Arrival)
    requires Served(v, trace, o.turn) && Relevant(a.frame) && Clean(o.generation, o.thread, o.turn, a)
    requires !a.frame.kind.ErrorNote? && Fault(v, a.frame.kind, a.frame.params).None?
    ensures var w := Take(v, ContentOf(o, a.frame.kind, a.frame.params));
            if IsCompletion(a.frame) ==> IsSuccess(a.frame) && Agreeing(AnswerOf(trace), ItemsOf(a.frame))
            then Served(w, trace + [a], o.turn) else Doomed(w)
  {
    var m, p := a.frame.kind, a.frame.params;
    if m.ItemCompleted? {
      ServedItem(v, o, trace, a);
    } else if m.TurnCompleted? {
      ServedCompletion(v, o, trace, a);
    } else {
      ServedSame(v, o, trace, a);
    }
  }

  lemma ServedConsume(v: Verdict, o: Owner, trace: seq<Arrival>, a: Arrival)
    requires Served(v, trace, o.turn) && o.issued && o.turn != "" && ValidId(o.turn) && Relevant(a.frame)
    requires a.generation == o.generation
    ensures var w := Consume(o, v, a.frame.kind, a.frame.params);
            if Serves(o.generation, o.thread, o.turn, trace, a) then Served(w, trace + [a], o.turn) else Doomed(w)
  {
    var m, p := a.frame.kind, a.frame.params;
    var t := RejectEvidence(o, v, m, p).0;
    RejectedExactlyWhen(o, v, m, p);
    RejectFollows(o, v, m, p);
    SameFault(v, Progress(trace), m, p);
    if !RejectEvidence(o, v, m, p).1 {
      UnrejectedOwned(o, v, m, p);
      UnrejectedKeeps(o, v, m, p);
      RejectNotesOwn(o, v, m, p);
      FaultAlike(v, t, m, p);
      if m.ErrorNote? { ServedError(t, o, trace, a); } else { ServedTake(t, o, trace, a); }
    }
  }

  lemma ServedHandle(s: State, generation: nat, thread: string, turn: string, trace: seq<Arrival>, a: Arrival)
    requires BoundTo(s.own, generation, thread, turn) && Served(s.v, trace, turn)
    ensures Handle(s, a.generation, a.frame).own == s.own
    ensures var w := Handle(s, a.generation, a.frame).v;
            if Serves(generation, thread, turn, trace, a) then Served(w, trace + [a], turn) else Doomed(w)
  {
    if a.generation == generation && Relevant(a.frame) {
      BoundHandle(s, generation, thread, turn, a.frame);
      ServedConsume(s.v, s.own, trace, a);
    } else if a.generation == generation && !a.frame.ServerRequest? {
      ServedSame(s.v, s.own, trace, a);
    }
  }

  lemma {:induction false} ServedDeliver(s: State, generation: nat, thread: string, turn: string, past: seq<Arrival>,
    trace: seq<Arrival>)
    requires BoundTo(s.own, generation, thread, turn)
    requires if AllServe(generation, thread, turn, past) then Served(s.v, past, turn) else Doomed(s.v)
    ensures var v := Deliver(s, trace).v;
            if AllServe(generation, thread, turn, past + trace) then Served(v, past + trace, turn) else Doomed(v)
    decreases |trace|
  {
    if trace == [] {
      assert past + trace == past;
    } else {
      var a, more := trace[0], past + [trace[0]];
      assert more + trace[1..] == past + trace;
      ServedSnoc(generation, thread, turn, past, a);
      if AllServe(generation, thread, turn, past) {
        ServedHandle(s, generation, thread, turn, past, a);
      } else {
        DoomedHandle(s, generation, thread, turn, a);
      }
      ServedDeliver(Handle(s, a.generation, a.frame), generation, thread, turn, more, trace[1..]);
    }
  }

  /** Wherever the turn was bound: there is a result if and only if the buffer held the early notifications, every
      arrival serves it, the turn completed and a final answer was given; and it is the first final answer. */
  lemma ResultExactlyWhen(generation: nat, thread: string, turn: string, early: seq<Arrival>, late: seq<Arrival>)
    requires generation != 0 && thread != "" && ValidId(turn)
    ensures var split := Deliver(Bind(Deliver(Begun(generation, thread), early), generation, thread, turn), late);
            var trace := early + late;
            && (Success(split).Some? <==>
                && RelevantIn(early) <= EventLimit && AllServe(generation, thread, turn, trace)
                && SomeCompletion(trace) && AnswerOf(trace).Some?)
            && (Success(split).Some? ==> AnswerOf(trace).Some? && Success(split).value == AnswerOf(trace).value.text)
  {
    if RelevantIn(early) > EventLimit {
      OverflowFails(generation, thread, turn, early, late);
    } else {
      BufferingIsTransparent(generation, thread, turn, early, late);
      var start := Bind(Begun(generation, thread), generation, thread, turn);
      ServedDeliver(start, generation, thread, turn, [], early + late);
      assert [] + (early + late) == early + late;
    }
  }
}
