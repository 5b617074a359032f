/** Where the result of an ephemeral turn comes from. */
module EphemeralResult {
  import opened Prelude
  import opened EphemeralEvidence
  import opened EphemeralSink
  import opened EphemeralTransparency
  import opened EphemeralVerdict

  /** The completed items that a message carries. */
  function ItemsOf(f: Frame): seq<Option<Item>> {
    if !f.Notification? || f.params.NotAnObject? then []
    else if f.kind.ItemCompleted? then [f.params.item]
    else if IsCompletion(f) && f.params.turn.value.items.Some? then f.params.turn.value.items.value
    else []
  }

  /** The item is a final answer with this id and text. */
  predicate IsAnswer(item: Option<Item>, a: Answer) {
    item.Some? && item.value.agentMessage && item.value.phase.FinalAnswer? && item.value.id == a.id
      && item.value.text == Some(a.text)
  }

  predicate Among(items: seq<Option<Item>>, a: Answer) { exists j :: 0 <= j < |items| && IsAnswer(items[j], a) }

  predicate Answered(trace: seq<Arrival>, a: Answer) {
    exists i :: 0 <= i < |trace| && Among(ItemsOf(trace[i].frame), a)
  }

  predicate IsSuccess(f: Frame) { IsCompletion(f) && f.params.turn.value.status.Completed? }

  predicate Succeeded(trace: seq<Arrival>) { exists i :: 0 <= i < |trace| && IsSuccess(trace[i].frame) }

  /** The answer was given, and the completion came, in the trace. */
  predicate Earned(v: Verdict, trace: seq<Arrival>) {
    (v.answer.Some? ==> Answered(trace, v.answer.value)) && (v.completed ==> Succeeded(trace))
  }

  /** Nothing but what a message itself carries. */
  predicate FromMessage(v: Verdict, w: Verdict, f: Frame) {
    && (w.answer == v.answer || (w.answer.Some? && Among(ItemsOf(f), w.answer.value)))
    && (w.completed == v.completed || IsSuccess(f))
  }

  lemma EarnedStep(v: Verdict, w: Verdict, trace: seq<Arrival>, a: Arrival)
    requires Earned(v, trace) && FromMessage(v, w, a.frame)
    ensures Earned(w, trace + [a])
  {
    var t := trace + [a];
    assert t[|trace|] == a;
    assert forall i :: 0 <= i < |trace| ==> t[i] == trace[i];
  }

  lemma NoteKeepsAnswer(o: Owner, v: Verdict, m: Method, p: Params)
    ensures NoteIdentity(o, v, m, p).answer == v.answer && NoteIdentity(o, v, m, p).completed == v.completed
  {
    if o.issued { NotedAlike(v, v, Foreign(o, v.cleanupTurn, m, p), TurnNamed(m, p)); }
  }

  lemma JudgedKeepsAnswer(v: Verdict, fault: Option<Failure>)
    ensures Judged(v, fault).0.answer == v.answer && Judged(v, fault).0.completed == v.completed
  {
  }

  lemma RejectKeepsAnswer(o: Owner, v: Verdict, m: Method, p: Params)
    ensures RejectEvidence(o, v, m, p).0.answer == v.answer && RejectEvidence(o, v, m, p).0.completed == v.completed
  {
    if !m.ErrorNote? {
      NoteKeepsAnswer(o, v, m, p);
      JudgedKeepsAnswer(NoteIdentity(o, v, m, p), Fault(NoteIdentity(o, v, m, p), m, p));
    }
  }

  lemma TakeItemAnswer(v: Verdict, item: Item)
    ensures TakeItem(v, item).completed == v.completed
    ensures TakeItem(v, item).answer == v.answer
            || (TakeItem(v, item).answer.Some? && IsAnswer(Some(item), TakeItem(v, item).answer.value))
  {
  }

  lemma {:induction false} TakeItemsAnswer(v: Verdict, items: seq<Option<Item>>)
    ensures TakeItems(v, items).completed == v.completed
    ensures TakeItems(v, items).answer == v.answer
            || (TakeItems(v, items).answer.Some? && Among(items, TakeItems(v, items).answer.value))
    decreases |items|
  {
    if items != [] && items[0].Some? {
      var t := TakeItem(v, items[0].value);
      TakeItemAnswer(v, items[0].value);
      if t.err.None? {
        TakeItemsAnswer(t, items[1..]);
        var w := TakeItems(t, items[1..]);
        if w.answer.Some? && Among(items[1..], w.answer.value) {
          var j :| 0 <= j < |items[1..]| && IsAnswer(items[1..][j], w.answer.value);
          assert IsAnswer(items[j + 1], w.answer.value);
        }
      }
    }
  }

  lemma TakeFromMessage(o: Owner, v: Verdict, f: Frame)
    requires Relevant(f)
    ensures FromMessage(v, Take(v, ContentOf(o, f.kind, f.params)), f)
  {
    var c := ContentOf(o, f.kind, f.params);
    if c.AnItem? {
      TakeItemAnswer(v, c.item);
      assert ItemsOf(f)[0] == Some(c.item);
    } else if c.ACompletion? {
      TakeItemsAnswer(v, c.turn.items.value);
    }
  }

  lemma HandleFromMessage(s: State, generation: nat, thread: string, turn: string, a: Arrival)
    requires BoundTo(s.own, generation, thread, turn)
    ensures Handle(s, a.generation, a.frame).own == s.own
    ensures FromMessage(s.v, Handle(s, a.generation, a.frame).v, a.frame)
  {
    var f := a.frame;
    if a.generation == generation && Relevant(f) {
      BoundHandle(s, generation, thread, turn, f);
      RejectKeepsAnswer(s.own, s.v, f.kind, f.params);
      TakeFromMessage(s.own, RejectEvidence(s.own, s.v, f.kind, f.params).0, f);
    }
  }

  lemma {:induction false} EarnedAlong(s: State, generation: nat, thread: string, turn: string, past: seq<Arrival>,
    trace: seq<Arrival>)
    requires BoundTo(s.own, generation, thread, turn) && Earned(s.v, past)
    ensures Earned(Deliver(s, trace).v, past + trace)
    decreases |trace|
  {
    if trace == [] {
      assert past + trace == past;
    } else {
      var t := Handle(s, trace[0].generation, trace[0].frame);
      HandleFromMessage(s, generation, thread, turn, trace[0]);
      EarnedStep(s.v, t.v, past, trace[0]);
      EarnedAlong(t, generation, thread, turn, past + [trace[0]], trace[1..]);
      assert past + [trace[0]] + trace[1..] == past + trace;
    }
  }

  /** A result is the text of a final answer that the trace carries, in a turn that completed, wherever it was bound;
      and every arrival was on the right connection and about this turn. */
  lemma ResultIsEarned(generation: nat, thread: string, turn: string, early: seq<Arrival>, late: seq<Arrival>)
    requires generation != 0 && thread != "" && ValidId(turn)
    ensures var split := Deliver(Bind(Deliver(Begun(generation, thread), early), generation, thread, turn), late);
            Success(split).Some? ==>
              && (exists id :: Answered(early + late, Answer(id, Success(split).value)))
              && Succeeded(early + late) && AllClean(generation, thread, turn, early + late)
  {
    if RelevantIn(early) > EventLimit {
      OverflowFails(generation, thread, turn, early, late);
    } else {
      BufferingIsTransparent(generation, thread, turn, early, late);
      var start := Bind(Begun(generation, thread), generation, thread, turn);
      EarnedAlong(start, generation, thread, turn, [], early + late);
      SoundDeliver(start, generation, thread, turn, [], early + late);
      assert [] + (early + late) == early + late;
      var v := Deliver(start, early + late).v;
      if v.answer.Some? { assert v.answer.value == Answer(v.answer.value.id, v.answer.value.text); }
    }
  }
}
