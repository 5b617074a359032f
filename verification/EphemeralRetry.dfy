/** Exactly when a failed ephemeral turn is safe to retry: the converse of what a positive verdict stands for. */
module EphemeralRetry {
  import opened Prelude
  import opened EphemeralEvidence
  import opened EphemeralSink
  import opened EphemeralTransparency
  import opened EphemeralVerdict
  import opened EphemeralResult

  /** A message that says why the turn failed: a terminal error, or a completion with an error. */
  predicate IsCause(f: Frame) { IsTerminalError(f) || (IsCompletion(f) && f.params.turn.value.error.Some?) }

  predicate SomeCause(trace: seq<Arrival>) { exists i :: 0 <= i < |trace| && IsCause(trace[i].frame) }

  /** Every terminal error and every completion so far was transient. */
  predicate Harmless(trace: seq<Arrival>) { AllTransient(trace) && AllFailures(trace) }

  /** What a bound sink that rejected nothing makes of harmless evidence. */
  predicate Told(v: Verdict, trace: seq<Arrival>) {
    && !v.completed
    && (if SomeCompletion(trace) then
          && v.err.Some? && v.settled && v.terminal && v.transient == SomeCause(trace)
          && v.evidence.Evidence? && (v.evidence.error.Some? ==> SomeCause(trace))
        else
          v.err.None? && !v.settled && v.terminal == SomeCause(trace) && (v.terminal ==> v.transient))
  }

  predicate Fair(v: Verdict, trace: seq<Arrival>) { !Rejected(v) && Harmless(trace) ==> Told(v, trace) }

  lemma OneMore(trace: seq<Arrival>, a: Arrival)
    ensures SomeCause(trace + [a]) <==> SomeCause(trace) || IsCause(a.frame)
    ensures SomeCompletion(trace + [a]) <==> SomeCompletion(trace) || IsCompletion(a.frame)
    ensures Harmless(trace + [a]) ==> Harmless(trace) && TransientNote(a.frame)
    ensures Harmless(trace + [a]) && IsCompletion(a.frame) ==> TransientFailure(a.frame.params.turn.value)
  {
    var t := trace + [a];
    assert t[|trace|] == a;
    assert forall i :: 0 <= i < |trace| ==> t[i] == trace[i];
  }

  /** A message that changes nothing but the noted turn or the answer, and is neither cause nor completion. */
  lemma FairSame(v: Verdict, w: Verdict, trace: seq<Arrival>, a: Arrival)
    requires Fair(v, trace) && w == v.(cleanupTurn := w.cleanupTurn, answer := w.answer) && !IsCause(a.frame)
    requires !IsCompletion(a.frame)
    ensures Fair(w, trace + [a])
  {
    OneMore(trace, a);
  }

  lemma FairRejected(w: Verdict, trace: seq<Arrival>)
    requires Rejected(w)
    ensures Fair(w, trace)
  {
  }

  lemma FairError(v: Verdict, willRetry: bool, grade: ErrorClass, trace: seq<Arrival>, a: Arrival)
    requires Fair(v, trace) && v.err.None? && !v.settled && !IsCompletion(a.frame)
    requires IsCause(a.frame) == !willRetry && (!willRetry && TransientNote(a.frame) ==> grade.TransientError?)
    ensures Fair(TakeError(v, willRetry, grade), trace + [a])
  {
    OneMore(trace, a);
  }

  lemma FairSettle(v: Verdict, trace: seq<Arrival>, a: Arrival)
    requires Fair(v, trace) && v.err.None? && IsCompletion(a.frame) && ShapedTurn(a.frame.params.turn.value)
    ensures Fair(Settle(v, a.frame.params.turn.value), trace + [a])
  {
    OneMore(trace, a);
    var turn := a.frame.params.turn.value;
    if turn.error.Some? { assert IsCause(a.frame); }
    assert ErrorMarkOf(turn.error).Some? == turn.error.Some?;
  }

  lemma FairCompletion(v: Verdict, trace: seq<Arrival>, a: Arrival)
    requires Fair(v, trace) && v.err.None? && IsCompletion(a.frame)
    requires CompletionFault(v, a.frame.params.turn.value).None?
    ensures Fair(TakeCompletion(v, a.frame.params.turn.value), trace + [a])
  {
    var turn := a.frame.params.turn.value;
    TakeItemsShape(v, v, turn.items.value);
    var t := TakeItems(v, turn.items.value);
    if t.err.None? {
      FairSettle(t, trace, a);
    } else {
      FairRejected(t, trace + [a]);
    }
  }

  /** Once the turn failed, a repeated completion says nothing new. */
  lemma FairRepeat(v: Verdict, w: Verdict, trace: seq<Arrival>, a: Arrival)
    requires Fair(v, trace) && v.err.Some? && Alike(v, w)
    requires IsTerminalError(a.frame) ==> !v.settled
    requires IsCompletion(a.frame) ==> CompletionFault(v, a.frame.params.turn.value).None?
    ensures Fair(w, trace + [a])
  {
    OneMore(trace, a);
    if !Rejected(w) && Harmless(trace + [a]) && IsCompletion(a.frame) {
      var turn := a.frame.params.turn.value;
      assert CompletionEvidence(turn) == v.evidence;
      assert ErrorMarkOf(turn.error).Some? == turn.error.Some?;
    }
  }

  lemma FairTake(v: Verdict, o: Owner, trace: seq<Arrival>, a: Arrival)
    requires Fair(v, trace) && v.err.None? && Relevant(a.frame) && Clean(o.generation, o.thread, o.turn, a)
    requires if a.frame.kind.ErrorNote? then !v.settled else Fault(v, a.frame.kind, a.frame.params).None?
    ensures Fair(Take(v, ContentOf(o, a.frame.kind, a.frame.params)), trace + [a])
  {
    var m, p := a.frame.kind, a.frame.params;
    if m.TurnStarted? || m.ItemStarted? {
      FairSame(v, v, trace, a);
    } else if m.ErrorNote? {
      FairError(v, p.willRetry.value, Classify(p.error.value), trace, a);
    } else if m.ItemCompleted? {
      FairSame(v, TakeItem(v, p.item.value), trace, a);
    } else {
      FairCompletion(v, trace, a);
    }
  }

  lemma FairConsume(v: Verdict, o: Owner, trace: seq<Arrival>, a: Arrival)
    requires Fair(v, trace) && o.issued && o.turn != "" && Relevant(a.frame) && a.generation == o.generation
    ensures Fair(Consume(o, v, a.frame.kind, a.frame.params), trace + [a])
  {
    var m, p := a.frame.kind, a.frame.params;
    var t := RejectEvidence(o, v, m, p).0;
    RejectFollows(o, v, m, p);
    if RejectEvidence(o, v, m, p).1 {
      FairRejected(t, trace + [a]);
    } else {
      UnrejectedOwned(o, v, m, p);
      UnrejectedKeeps(o, v, m, p);
      if !m.ErrorNote? {
        UnrejectedFaultless(o, v, m, p);
        FaultAlike(v, t, m, p);
      }
      if t.err.Some? {
        FairRepeat(v, t, trace, a);
      } else {
        FairTake(t, o, trace, a);
      }
    }
  }

  lemma FairHandle(s: State, generation: nat, thread: string, turn: string, trace: seq<Arrival>, a: Arrival)
    requires BoundTo(s.own, generation, thread, turn) && Fair(s.v, trace)
    ensures Handle(s, a.generation, a.frame).own == s.own && Fair(Handle(s, a.generation, a.frame).v, trace + [a])
  {
    if a.generation != generation || a.frame.ServerRequest? {
      FairRejected(Handle(s, a.generation, a.frame).v, trace + [a]);
    } else if Relevant(a.frame) {
      BoundHandle(s, generation, thread, turn, a.frame);
      FairConsume(s.v, s.own, trace, a);
    } else {
      FairSame(s.v, s.v, trace, a);
    }
  }

  lemma {:induction false} FairDeliver(s: State, generation: nat, thread: string, turn: string, past: seq<Arrival>,
    trace: seq<Arrival>)
    requires BoundTo(s.own, generation, thread, turn) && Fair(s.v, past)
    ensures Deliver(s, trace).own == s.own && Fair(Deliver(s, trace).v, past + trace)
    decreases |trace|
  {
    if trace == [] {
      assert past + trace == past;
    } else {
      FairHandle(s, generation, thread, turn, past, trace[0]);
      FairDeliver(Handle(s, trace[0].generation, trace[0].frame), generation, thread, turn, past + [trace[0]],
        trace[1..]);
      assert past + [trace[0]] + trace[1..] == past + trace;
    }
  }

  // ---------------------------------------------------------------------------------------------
  // Which arrivals fit what came before

  function AnswerIn(item: Option<Item>): Option<Answer> {
    if item.Some? && item.value.agentMessage && item.value.phase.FinalAnswer? && item.value.text.Some?
    then Some(Answer(item.value.id, item.value.text.value)) else None
  }

  function FirstAnswer(items: seq<Option<Item>>): Option<Answer> {
    if items == [] then None else if AnswerIn(items[0]).Some? then AnswerIn(items[0]) else FirstAnswer(items[1..])
  }

  /** The first final answer of a trace. */
  function AnswerOf(trace: seq<Arrival>): Option<Answer>
    decreases |trace|
  {
    if trace == [] then None else
    var before := AnswerOf(trace[..|trace| - 1]);
    if before.Some? then before else FirstAnswer(ItemsOf(trace[|trace| - 1].frame))
  }

  /** What identifies the first completion of a trace. */
  function EvidenceOf(trace: seq<Arrival>): Evidence
    decreases |trace|
  {
    if trace == [] then NoEvidence else
    var init, last := trace[..|trace| - 1], trace[|trace| - 1].frame;
    if SomeCompletion(init) then EvidenceOf(init) else
    if IsCompletion(last) then CompletionEvidence(last.params.turn.value) else NoEvidence
  }

  /** What matters of a trace without rejected evidence to what comes next. */
  function Summary(trace: seq<Arrival>): Verdict {
    NoVerdict.(answer := AnswerOf(trace), settled := SomeCompletion(trace), terminal := SomeCompletion(trace),
      evidence := EvidenceOf(trace))
  }

  /** The final answers among items are one and the same, and that of before. */
  predicate Agreeing(answer: Option<Answer>, items: seq<Option<Item>>)
    decreases |items|
  {
    items == []
    || (var a := AnswerIn(items[0]);
        (answer.Some? && a.Some? ==> a == answer) && Agreeing(if answer.Some? then answer else a, items[1..]))
  }

  /** The arrival is clean and does not contradict what came before: no error and no start after a completion, no other
      completion than the first, no item that is malformed or gives another answer. */
  predicate Fits(generation: nat, thread: string, turn: string, past: seq<Arrival>, a: Arrival) {
    && Clean(generation, thread, turn, a)
    && (Relevant(a.frame) ==>
          if a.frame.kind.ErrorNote? then
            ValidId(thread) && !SomeCompletion(past)
          else
            && Fault(Summary(past), a.frame.kind, a.frame.params).None?
            && (IsCompletion(a.frame) && !SomeCompletion(past) ==> Agreeing(AnswerOf(past), ItemsOf(a.frame))))
  }

  predicate AllFit(generation: nat, thread: string, turn: string, trace: seq<Arrival>)
    decreases |trace|
  {
    trace == []
    || (AllFit(generation, thread, turn, trace[..|trace| - 1])
          && Fits(generation, thread, turn, trace[..|trace| - 1], trace[|trace| - 1]))
  }

  // ---------------------------------------------------------------------------------------------
  // A bound sink rejects exactly what does not fit

  /** The verdict stands for the trace. */
  predicate Summed(v: Verdict, trace: seq<Arrival>, turn: string) {
    && !v.revoked && !v.ambiguous && NotedOwn(v, turn) && !v.completed && v.answer == AnswerOf(trace)
    && v.settled == SomeCompletion(trace) && v.err.Some? == SomeCompletion(trace)
    && (v.settled ==> v.terminal && v.evidence == EvidenceOf(trace))
  }

  predicate SameFacts(v: Verdict, w: Verdict) {
    && v.ambiguous == w.ambiguous && v.completed == w.completed && v.settled == w.settled && v.answer == w.answer
    && (v.settled ==> v.terminal == w.terminal && v.evidence == w.evidence)
  }

  lemma {:induction false} SameItemsFault(v: Verdict, w: Verdict, items: seq<Option<Item>>)
    requires SameFacts(v, w)
    ensures ItemsFault(v, items) == ItemsFault(w, items)
    decreases |items|
  {
    if items != [] { SameItemsFault(v, w, items[1..]); }
  }

  lemma SameFault(v: Verdict, w: Verdict, m: Method, p: Params)
    requires SameFacts(v, w)
    ensures Fault(v, m, p) == Fault(w, m, p)
  {
    if p.Params? && p.turn.Some? && p.turn.value.items.Some? { SameItemsFault(v, w, p.turn.value.items.value); }
  }

  lemma ForeignExactlyWhen(o: Owner, v: Verdict, m: Method, p: Params)
    requires o.turn != "" && NotedOwn(v, o.turn) && !m.ErrorNote?
    ensures Foreign(o, v.cleanupTurn, m, p) <==> !Owned(o.thread, o.turn, m, p)
  {
  }

  lemma ErrorRejectedExactlyWhen(o: Owner, v: Verdict, p: Params)
    requires o.issued && o.turn != "" && ValidId(o.turn) && NotedOwn(v, o.turn)
    ensures RejectError(o, v, p).1 <==> v.settled || !Owned(o.thread, o.turn, ErrorNote, p) || !ValidId(o.thread)
  {
  }

  lemma NoteKeepsFacts(o: Owner, v: Verdict, m: Method, p: Params)
    requires o.issued && !Foreign(o, v.cleanupTurn, m, p)
    ensures SameFacts(v, NoteIdentity(o, v, m, p))
  {
  }

  lemma RejectedExactlyWhen(o: Owner, v: Verdict, m: Method, p: Params)
    requires o.issued && o.turn != "" && ValidId(o.turn) && NotedOwn(v, o.turn) && !m.OtherMethod?
    ensures RejectEvidence(o, v, m, p).1 <==>
            || !Owned(o.thread, o.turn, m, p)
            || (if m.ErrorNote? then v.settled || !ValidId(o.thread) else Fault(v, m, p).Some?)
  {
    if m.ErrorNote? {
      ErrorRejectedExactlyWhen(o, v, p);
    } else {
      ForeignExactlyWhen(o, v, m, p);
      if Foreign(o, v.cleanupTurn, m, p) {
        ForeignRejected(o, v, m, p);
      } else {
        NoteKeepsFacts(o, v, m, p);
        SameFault(v, NoteIdentity(o, v, m, p), m, p);
      }
    }
  }

  lemma TakeItemAgreeing(v: Verdict, w: Verdict, item: Item)
    requires v.err.None? && !v.settled && ItemFault(w, item, true).None? && !w.settled
    ensures var t, a := TakeItem(v, item), AnswerIn(Some(item));
            && (t.err.None? <==> (v.answer.Some? && a.Some? ==> a == v.answer))
            && (t.err.None? ==> t == v.(answer := if v.answer.Some? then v.answer else a))
  {
  }

  lemma {:induction false} TakeItemsAgreeing(v: Verdict, w: Verdict, items: seq<Option<Item>>)
    requires v.err.None? && !v.settled && !w.settled && ItemsFault(w, items).None?
    ensures TakeItems(v, items).err.None? <==> Agreeing(v.answer, items)
    ensures TakeItems(v, items).err.None? ==>
            TakeItems(v, items) == v.(answer := if v.answer.Some? then v.answer else FirstAnswer(items))
    decreases |items|
  {
    if items != [] {
      TakeItemAgreeing(v, w, items[0].value);
      var t := TakeItem(v, items[0].value);
      if t.err.None? { TakeItemsAgreeing(t, w, items[1..]); }
    }
  }

  lemma {:induction false} NoLateAnswer(v: Verdict, items: seq<Option<Item>>)
    requires v.settled && v.terminal && v.answer.None? && ItemsFault(v, items).None?
    ensures FirstAnswer(items) == None
    decreases |items|
  {
    if items != [] { NoLateAnswer(v, items[1..]); }
  }

  lemma Snoc(generation: nat, thread: string, turn: string, trace: seq<Arrival>, a: Arrival)
    ensures AnswerOf(trace + [a]) == if AnswerOf(trace).Some? then AnswerOf(trace) else FirstAnswer(ItemsOf(a.frame))
    ensures SomeCompletion(trace) ==> EvidenceOf(trace + [a]) == EvidenceOf(trace)
    ensures !SomeCompletion(trace) && IsCompletion(a.frame) ==>
            EvidenceOf(trace + [a]) == CompletionEvidence(a.frame.params.turn.value)
    ensures AllFit(generation, thread, turn, trace + [a]) <==>
            AllFit(generation, thread, turn, trace) && Fits(generation, thread, turn, trace, a)
  {
    var t := trace + [a];
    assert t[..|t| - 1] == trace && t[|t| - 1] == a;
  }

  /** The verdict is that of a trace of harmless evidence that fits together. */
  predicate Stands(v: Verdict, trace: seq<Arrival>, turn: string) { Summed(v, trace, turn) && Told(v, trace) }

  lemma StandsLike(v: Verdict, trace: seq<Arrival>, turn: string)
    requires Stands(v, trace, turn)
    ensures SameFacts(v, Summary(trace))
  {
  }

  /** The message changes no fact. */
  lemma StandsSame(v: Verdict, w: Verdict, o: Owner, trace: seq<Arrival>, a: Arrival)
    requires Stands(v, trace, o.turn) && Alike(v, w) && NotedOwn(w, o.turn) && Fair(w, trace + [a])
    requires Harmless(trace + [a])
    requires SomeCompletion(trace) || !IsCompletion(a.frame)
    requires AnswerOf(trace).None? ==> FirstAnswer(ItemsOf(a.frame)).None?
    ensures Stands(w, trace + [a], o.turn)
  {
    OneMore(trace, a);
    Snoc(o.generation, o.thread, o.turn, trace, a);
  }

  lemma StandsError(v: Verdict, o: Owner, trace: seq<Arrival>, a: Arrival)
    requires Stands(v, trace, o.turn) && !SomeCompletion(trace) && Harmless(trace + [a])
    requires a.frame.Notification? && a.frame.kind.ErrorNote? && ShapedError(a.frame.params)
    ensures Stands(TakeError(v, a.frame.params.willRetry.value, Classify(a.frame.params.error.value)), trace + [a],
            o.turn)
  {
    OneMore(trace, a);
    Snoc(o.generation, o.thread, o.turn, trace, a);
    FairError(v, a.frame.params.willRetry.value, Classify(a.frame.params.error.value), trace, a);
  }

  lemma StandsItem(v: Verdict, o: Owner, trace: seq<Arrival>, a: Arrival)
    requires Stands(v, trace, o.turn) && !SomeCompletion(trace) && Harmless(trace + [a])
    requires a.frame.Notification? && a.frame.kind.ItemCompleted? && a.frame.params.Params? && a.frame.params.item.Some?
    requires ItemFault(v, a.frame.params.item.value, true).None?
    ensures Stands(TakeItem(v, a.frame.params.item.value), trace + [a], o.turn)
  {
    OneMore(trace, a);
    Snoc(o.generation, o.thread, o.turn, trace, a);
    var item := a.frame.params.item;
    assert FirstAnswer([item]) == AnswerIn(item) by { assert [item][1..] == []; }
    TakeItemAgreeing(v, v, item.value);
    FairSame(v, TakeItem(v, item.value), trace, a);
  }

  lemma StandsCompletion(v: Verdict, o: Owner, trace: seq<Arrival>, a: Arrival)
    requires Stands(v, trace, o.turn) && !SomeCompletion(trace) && Harmless(trace + [a])
    requires IsCompletion(a.frame) && CompletionFault(v, a.frame.params.turn.value).None?
    ensures if Agreeing(AnswerOf(trace), ItemsOf(a.frame))
            then Stands(TakeCompletion(v, a.frame.params.turn.value), trace + [a], o.turn)
            else Rejected(TakeCompletion(v, a.frame.params.turn.value))
  {
    OneMore(trace, a);
    Snoc(o.generation, o.thread, o.turn, trace, a);
    var turn := a.frame.params.turn.value;
    TakeItemsAgreeing(v, v, turn.items.value);
    TakeItemsShape(v, v, turn.items.value);
    FairCompletion(v, trace, a);
  }

  lemma StandsTake(v: Verdict, o: Owner, trace: seq<Arrival>, a: Arrival)
    requires Stands(v, trace, o.turn) && !SomeCompletion(trace) && Harmless(trace + [a]) && Relevant(a.frame)
    requires Clean(o.generation, o.thread, o.turn, a)
    requires a.frame.kind.ErrorNote? || Fault(v, a.frame.kind, a.frame.params).None?
    ensures var w := Take(v, ContentOf(o, a.frame.kind, a.frame.params));
            if IsCompletion(a.frame) && !Agreeing(AnswerOf(trace), ItemsOf(a.frame)) then Rejected(w)
              else Stands(w, trace + [a], o.turn)
  {
    var m, p := a.frame.kind, a.frame.params;
    if m.ErrorNote? {
      StandsError(v, o, trace, a);
    } else if m.ItemCompleted? {
      StandsItem(v, o, trace, a);
    } else if m.TurnCompleted? {
      StandsCompletion(v, o, trace, a);
    } else {
      FairSame(v, v, trace, a);
      StandsSame(v, v, o, trace, a);
    }
  }

  /** Once the turn failed, what fits changes nothing. */
  lemma StandsRepeat(v: Verdict, w: Verdict, o: Owner, trace: seq<Arrival>, a: Arrival)
    requires Stands(v, trace, o.turn) && SomeCompletion(trace) && Harmless(trace + [a]) && Relevant(a.frame)
    requires !a.frame.kind.ErrorNote?
    requires Alike(v, w) && NotedOwn(w, o.turn) && Fault(v, a.frame.kind, a.frame.params).None?
    ensures Stands(w, trace + [a], o.turn)
  {
    var m, p := a.frame.kind, a.frame.params;
    FairRepeat(v, w, trace, a);
    if v.answer.None? && IsCompletion(a.frame) {
      NoLateAnswer(v, p.turn.value.items.value);
    } else if v.answer.None? && m.ItemCompleted? {
      assert FirstAnswer([p.item]) == AnswerIn(p.item) by { assert [p.item][1..] == []; }
    }
    StandsSame(v, w, o, trace, a);
  }

  lemma StandsConsume(v: Verdict, o: Owner, trace: seq<Arrival>, a: Arrival)
    requires Stands(v, trace, o.turn) && o.issued && o.turn != "" && ValidId(o.turn) && Relevant(a.frame)
    requires a.generation == o.generation && Harmless(trace + [a])
    ensures var w := Consume(o, v, a.frame.kind, a.frame.params);
            if Fits(o.generation, o.thread, o.turn, trace, a) then Stands(w, trace + [a], o.turn) else Rejected(w)
  {
    var m, p := a.frame.kind, a.frame.params;
    var t := RejectEvidence(o, v, m, p).0;
    RejectedExactlyWhen(o, v, m, p);
    RejectFollows(o, v, m, p);
    StandsLike(v, trace, o.turn);
    SameFault(v, Summary(trace), m, p);
    if !RejectEvidence(o, v, m, p).1 {
      UnrejectedKeeps(o, v, m, p);
      RejectNotesOwn(o, v, m, p);
      if SomeCompletion(trace) {
        StandsRepeat(v, t, o, trace, a);
      } else {
        FaultAlike(v, t, m, p);
        StandsTake(t, o, trace, a);
      }
    }
  }

  lemma StandsHandle(s: State, generation: nat, thread: string, turn: string, trace: seq<Arrival>, a: Arrival)
    requires BoundTo(s.own, generation, thread, turn) && Stands(s.v, trace, turn) && Harmless(trace + [a])
    ensures Handle(s, a.generation, a.frame).own == s.own
    ensures var w := Handle(s, a.generation, a.frame).v;
            if Fits(generation, thread, turn, trace, a) then Stands(w, trace + [a], turn) else Rejected(w)
  {
    if a.generation == generation && Relevant(a.frame) {
      BoundHandle(s, generation, thread, turn, a.frame);
      StandsConsume(s.v, s.own, trace, a);
    } else if a.generation == generation && !a.frame.ServerRequest? {
      FairSame(s.v, s.v, trace, a);
      StandsSame(s.v, s.v, s.own, trace, a);
    }
  }

  lemma {:induction false} StandsDeliver(s: State, generation: nat, thread: string, turn: string, past: seq<Arrival>,
    trace: seq<Arrival>)
    requires BoundTo(s.own, generation, thread, turn) && Harmless(past + trace)
    requires if AllFit(generation, thread, turn, past) then Stands(s.v, past, turn) else Rejected(s.v)
    ensures var v := Deliver(s, trace).v;
            if AllFit(generation, thread, turn, past + trace) then Stands(v, past + trace, turn) else Rejected(v)
    decreases |trace|
  {
    if trace == [] {
      assert past + trace == past;
    } else {
      var a, more := trace[0], past + [trace[0]];
      assert more + trace[1..] == past + trace;
      HarmlessPrefix(more, trace[1..]);
      Snoc(generation, thread, turn, past, a);
      FairHandleOwn(s, generation, thread, turn, a);
      if AllFit(generation, thread, turn, past) { StandsHandle(s, generation, thread, turn, past, a); }
      HandleFollows(s, a.generation, a.frame);
      StandsDeliver(Handle(s, a.generation, a.frame), generation, thread, turn, more, trace[1..]);
    }
  }

  lemma FairHandleOwn(s: State, generation: nat, thread: string, turn: string, a: Arrival)
    requires BoundTo(s.own, generation, thread, turn)
    ensures Handle(s, a.generation, a.frame).own == s.own
  {
    if a.generation == generation && Relevant(a.frame) { BoundHandle(s, generation, thread, turn, a.frame); }
  }

  lemma HarmlessPrefix(first: seq<Arrival>, second: seq<Arrival>)
    requires Harmless(first + second)
    ensures Harmless(first)
  {
    assert forall i :: 0 <= i < |first| ==> first[i] == (first + second)[i];
  }

  /** For a sink that was bound first: a retry is safe if and only if every arrival fits what came before it, the turn
      completed, every terminal error and every completion was a transient failure, and something said why it failed. */
  lemma BoundRetryExactlyWhen(generation: nat, thread: string, turn: string, trace: seq<Arrival>)
    requires generation != 0 && thread != "" && ValidId(turn)
    ensures var s := Deliver(Bind(Begun(generation, thread), generation, thread, turn), trace);
            CanRetry(s, generation, thread, turn) <==>
            AllFit(generation, thread, turn, trace) && Harmless(trace) && SomeCompletion(trace) && SomeCause(trace)
  {
    var start := Bind(Begun(generation, thread), generation, thread, turn);
    FairDeliver(start, generation, thread, turn, [], trace);
    SoundDeliver(start, generation, thread, turn, [], trace);
    assert [] + trace == trace;
    if Harmless(trace) { StandsDeliver(start, generation, thread, turn, [], trace); }
  }

  /** Wherever the turn was bound: a retry is safe if and only if the buffer held the early notifications and
      the same holds of the whole trace. */
  lemma RetryExactlyWhen(generation: nat, thread: string, turn: string, early: seq<Arrival>, late: seq<Arrival>)
    requires generation != 0 && thread != "" && ValidId(turn)
    ensures var split := Deliver(Bind(Deliver(Begun(generation, thread), early), generation, thread, turn), late);
            var trace := early + late;
            CanRetry(split, generation, thread, turn) <==>
            && RelevantIn(early) <= EventLimit && AllFit(generation, thread, turn, trace)
            && Harmless(trace) && SomeCompletion(trace) && SomeCause(trace)
  {
    if RelevantIn(early) > EventLimit {
      OverflowFails(generation, thread, turn, early, late);
    } else {
      BufferingIsTransparent(generation, thread, turn, early, late);
      BoundRetryExactlyWhen(generation, thread, turn, early + late);
    }
  }
}
