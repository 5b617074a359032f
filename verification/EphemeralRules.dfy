/** The verdicts of an ephemeral turn by rules on the trace alone (codex/ephemeral.go:817-1334,
    codex/capacity.go): which errors are transient, which messages may follow which, and so exactly when a turn is
    safe to retry and when it has a result. */
module EphemeralRules {
  import opened Prelude
  import opened EphemeralEvidence
  import opened EphemeralSink
  import opened EphemeralTransparency
  import opened EphemeralVerdict
  import opened EphemeralResult
  import opened EphemeralRetry
  import opened EphemeralSuccess

  // ---------------------------------------------------------------------------------------------
  // Items

  /** The item was not delivered on the side, and says what it is. */
  predicate PlainItem(item: Option<Item>) {
    item.Some? && !item.value.isolated && 1 <= |item.value.id| <= 256 && 1 <= |item.value.kind| <= 256
  }

  /** The item is no message of the agent, or a commentary, or the final answer: of a proper length, the one
      given before if there was one, and not the first one once that is too late. */
  predicate ProperAnswer(item: Item, before: Option<Answer>, late: bool) {
    item.agentMessage && item.phase != Commentary ==>
      && item.phase == FinalAnswer && item.text.Some? && 1 <= |item.text.value| <= 16384
      && (before.Some? ==> before.value == Answer(item.id, item.text.value)) && (late ==> before.Some?)
  }

  /** No two of the items give different answers. */
  predicate OneAnswer(items: seq<Option<Item>>) {
    forall i, j :: 0 <= i < j < |items| && AnswerIn(items[i]).Some? && AnswerIn(items[j]).Some? ==>
      AnswerIn(items[i]) == AnswerIn(items[j])
  }

  predicate ProperItems(items: seq<Option<Item>>, before: Option<Answer>, late: bool) {
    && (forall i :: 0 <= i < |items| ==> PlainItem(items[i]) && ProperAnswer(items[i].value, before, late))
    && OneAnswer(items)
  }

  lemma ItemFaultExactlyWhen(v: Verdict, item: Item, completed: bool)
    ensures ItemFault(v, item, completed).None? <==>
            PlainItem(Some(item)) && (completed ==> ProperAnswer(item, v.answer, v.settled && v.terminal))
  {
  }

  lemma {:induction false} ItemsFaultExactlyWhen(v: Verdict, items: seq<Option<Item>>)
    ensures ItemsFault(v, items).None? <==>
            forall i :: 0 <= i < |items| ==>
              PlainItem(items[i]) && ProperAnswer(items[i].value, v.answer, v.settled && v.terminal)
    decreases |items|
  {
    if items != [] {
      if items[0].Some? { ItemFaultExactlyWhen(v, items[0].value, true); }
      ItemsFaultExactlyWhen(v, items[1..]);
      assert forall i :: 0 <= i < |items| - 1 ==> items[1..][i] == items[i + 1];
      assert forall i :: 0 < i < |items| ==> items[i] == items[1..][i - 1];
    }
  }

  predicate AllGive(items: seq<Option<Item>>, a: Answer) {
    forall i :: 0 <= i < |items| && AnswerIn(items[i]).Some? ==> AnswerIn(items[i]) == Some(a)
  }

  lemma {:induction false} AgreeingWith(a: Answer, items: seq<Option<Item>>)
    ensures Agreeing(Some(a), items) <==> AllGive(items, a)
    decreases |items|
  {
    if items != [] {
      AgreeingWith(a, items[1..]);
      assert forall i :: 0 <= i < |items| - 1 ==> items[1..][i] == items[i + 1];
      assert forall i :: 0 < i < |items| ==> items[i] == items[1..][i - 1];
    }
  }

  lemma {:induction false} AgreeingAmong(items: seq<Option<Item>>)
    ensures Agreeing(None, items) <==> OneAnswer(items)
    decreases |items|
  {
    if items != [] {
      var rest := items[1..];
      assert forall i :: 0 <= i < |items| - 1 ==> rest[i] == items[i + 1];
      assert forall i :: 0 < i < |items| ==> items[i] == rest[i - 1];
      if AnswerIn(items[0]).Some? {
        AgreeingWith(AnswerIn(items[0]).value, rest);
        if AllGive(rest, AnswerIn(items[0]).value) { assert OneAnswer(items); }
      } else {
        AgreeingAmong(rest);
      }
    }
  }

  lemma ProperExactlyWhen(v: Verdict, items: seq<Option<Item>>)
    ensures ItemsFault(v, items).None? && Agreeing(v.answer, items) <==>
            ProperItems(items, v.answer, v.settled && v.terminal)
    ensures v.answer.Some? || (v.settled && v.terminal) ==>
            (ItemsFault(v, items).None? <==> ProperItems(items, v.answer, v.settled && v.terminal))
  {
    ItemsFaultExactlyWhen(v, items);
    if v.answer.Some? {
      AgreeingWith(v.answer.value, items);
    } else {
      AgreeingAmong(items);
    }
  }

  // ---------------------------------------------------------------------------------------------
  // Reports of a failure

  /** The items are the same as far as a report is told by them. */
  predicate SameItem(a: Option<Item>, b: Option<Item>) {
    && a.Some? == b.Some?
    && (a.Some? ==>
          && a.value.id == b.value.id && a.value.kind == b.value.kind && a.value.agentMessage == b.value.agentMessage
          && (a.value.agentMessage ==> a.value.phase == b.value.phase)
          && (a.value.agentMessage && a.value.phase != Commentary ==> a.value.text == b.value.text))
  }

  predicate SameError(a: Option<TurnError>, b: Option<TurnError>) {
    && a.Some? == b.Some?
    && (a.Some? ==> && a.value.capacityMessage == b.value.capacityMessage && a.value.info == b.value.info
                    && a.value.details == b.value.details)
  }

  /** Two completions report the same: status, error, and items one by one. */
  predicate SameReport(t: Turn, u: Turn)
    requires t.items.Some? && u.items.Some?
  {
    && t.status == u.status && SameError(t.error, u.error) && |t.items.value| == |u.items.value|
    && forall i :: 0 <= i < |t.items.value| ==> SameItem(t.items.value[i], u.items.value[i])
  }

  lemma SameMark(a: Option<Item>, b: Option<Item>)
    ensures MarkOf(a) == MarkOf(b) <==> SameItem(a, b)
  {
  }

  lemma EvidenceTellsReports(t: Turn, u: Turn)
    requires t.items.Some? && u.items.Some?
    ensures CompletionEvidence(t) == CompletionEvidence(u) <==> SameReport(t, u)
  {
    var a, b := CompletionEvidence(t), CompletionEvidence(u);
    if |t.items.value| == |u.items.value| {
      forall i | 0 <= i < |t.items.value|
        ensures a.items[i] == b.items[i] <==> SameItem(t.items.value[i], u.items.value[i])
      {
        SameMark(t.items.value[i], u.items.value[i]);
      }
    }
  }

  // ---------------------------------------------------------------------------------------------
  // What may follow on the way to a retry

  /** An error of this turn that comes in time; the last one of an attempt has a passing cause. */
  predicate RetryError(thread: string, turn: string, past: seq<Arrival>, p: Params)
    requires p.Params?
  {
    && p.turnId == Some(turn) && 1 <= |thread| <= 256 && !SomeCompletion(past)
    && p.willRetry.Some? && p.error.Some?
    && (if p.willRetry.value then Understood(p.error.value) else Passing(p.error.value))
  }

  /** The start of this turn, which comes in time. */
  predicate TimelyStart(turn: string, past: seq<Arrival>, p: Params)
    requires p.Params?
  {
    && p.turn.Some? && p.turn.value.id == turn && p.turn.value.items.Some? && p.turn.value.status == InProgress
    && !SomeCompletion(past)
  }

  /** A failure of this turn for a passing reason, and the same failure if it failed before. */
  predicate RetryCompletion(turn: string, past: seq<Arrival>, p: Params)
    requires p.Params?
  {
    p.turn.Some? &&
    var t := p.turn.value;
    && t.id == turn && (t.status == Failed || t.status == Interrupted) && (t.error.Some? ==> Passing(t.error.value))
    && t.items.Some? && ProperItems(t.items.value, AnswerOf(past), SomeCompletion(past))
    && (SomeCompletion(past) ==> CompletionEvidence(t) == EvidenceOf(past))
  }

  predicate KeepsRetry(generation: nat, thread: string, turn: string, past: seq<Arrival>, a: Arrival) {
    && a.generation == generation && a.frame != ServerRequest
    && (a.frame.Notification? && !a.frame.kind.OtherMethod? ==>
          && a.frame.params.Params? && a.frame.params.thread == Some(thread)
          && var p := a.frame.params;
             match a.frame.kind
             case ErrorNote => RetryError(thread, turn, past, p)
             case TurnStarted => TimelyStart(turn, past, p)
             case ItemStarted => p.turnId == Some(turn) && PlainItem(p.item)
             case ItemCompleted =>
               && p.turnId == Some(turn) && PlainItem(p.item)
               && ProperAnswer(p.item.value, AnswerOf(past), SomeCompletion(past))
             case TurnCompleted => RetryCompletion(turn, past, p)
             case OtherMethod => true)
  }

  predicate AllKeepRetry(generation: nat, thread: string, turn: string, trace: seq<Arrival>)
    decreases |trace|
  {
    trace == []
    || (AllKeepRetry(generation, thread, turn, trace[..|trace| - 1])
          && KeepsRetry(generation, thread, turn, trace[..|trace| - 1], trace[|trace| - 1]))
  }

  predicate HarmlessArrival(a: Arrival) {
    TransientNote(a.frame) && (IsCompletion(a.frame) ==> TransientFailure(a.frame.params.turn.value))
  }

  lemma KeepsRetryExactlyWhen(generation: nat, thread: string, turn: string, past: seq<Arrival>, a: Arrival)
    requires ValidId(turn)
    ensures KeepsRetry(generation, thread, turn, past, a) <==>
            Fits(generation, thread, turn, past, a) && HarmlessArrival(a)
  {
    if Relevant(a.frame) && a.frame.params.Params? {
      var p, v := a.frame.params, Summary(past);
      if p.error.Some? { GradeExactlyWhen(p.error.value); }
      if p.item.Some? { ItemFaultExactlyWhen(v, p.item.value, a.frame.kind.ItemCompleted?); }
      if p.turn.Some? {
        if p.turn.value.error.Some? { GradeExactlyWhen(p.turn.value.error.value); }
        if p.turn.value.items.Some? { ProperExactlyWhen(v, p.turn.value.items.value); }
      }
    }
  }

  lemma RetrySnoc(trace: seq<Arrival>, a: Arrival)
    ensures Harmless(trace + [a]) <==> Harmless(trace) && HarmlessArrival(a)
  {
    var t := trace + [a];
    assert t[|trace|] == a;
    assert forall i :: 0 <= i < |trace| ==> t[i] == trace[i];
  }

  lemma {:induction false} AllKeepRetryExactlyWhen(generation: nat, thread: string, turn: string, trace: seq<Arrival>)
    requires ValidId(turn)
    ensures AllKeepRetry(generation, thread, turn, trace) <==>
            AllFit(generation, thread, turn, trace) && Harmless(trace)
    decreases |trace|
  {
    if trace != [] {
      var init, a := trace[..|trace| - 1], trace[|trace| - 1];
      assert trace == init + [a];
      AllKeepRetryExactlyWhen(generation, thread, turn, init);
      KeepsRetryExactlyWhen(generation, thread, turn, init, a);
      RetrySnoc(init, a);
    }
  }

  /** Something said why the turn failed: an error that ended an attempt, or a completion with an error. */
  predicate Explained(trace: seq<Arrival>) {
    exists i :: 0 <= i < |trace| && trace[i].frame.Notification? && trace[i].frame.params.Params? &&
      var p := trace[i].frame.params;
      || (trace[i].frame.kind == ErrorNote && p.willRetry == Some(false))
      || (trace[i].frame.kind == TurnCompleted && p.turn.Some? && p.turn.value.error.Some?)
  }

  /** Wherever the turn was bound, by rules on the trace alone: a retry is safe if and only if at most 32 notifications
      came before, every arrival keeps the retry, the turn completed, and something said why it failed. */
  lemma RetryRule(generation: nat, thread: string, turn: string, early: seq<Arrival>, late: seq<Arrival>)
    requires generation != 0 && thread != "" && ValidId(turn)
    ensures var split := Deliver(Bind(Deliver(Begun(generation, thread), early), generation, thread, turn), late);
            var trace := early + late;
            CanRetry(split, generation, thread, turn) <==>
            && RelevantIn(early) <= 32 && AllKeepRetry(generation, thread, turn, trace)
            && SomeCompletion(trace) && Explained(trace)
  {
    var trace := early + late;
    RetryExactlyWhen(generation, thread, turn, early, late);
    AllKeepRetryExactlyWhen(generation, thread, turn, trace);
    assert SomeCause(trace) <==> Explained(trace) by {
      assert forall i :: 0 <= i < |trace| && IsCause(trace[i].frame) ==> trace[i].frame.params.Params?;
    }
  }

  /** The frame of a failed completion with nothing else to it. */
  function FailedWith(thread: string, turn: string, error: Option<TurnError>): Frame {
    Notification(TurnCompleted, Params(Some(thread), None, None, None, None, Some(Turn(turn, Failed, Some([]), error))))
  }

  /** The frame of an error that ends an attempt. */
  function EndedBy(thread: string, turn: string, error: TurnError): Frame {
    Notification(ErrorNote, Params(Some(thread), Some(turn), Some(false), Some(error), None, None))
  }

  /** A turn that just fails is safe to retry exactly when its error is passing. */
  lemma FailureIsRetriedExactlyWhen(generation: nat, thread: string, turn: string, error: TurnError)
    requires generation != 0 && thread != "" && ValidId(turn)
    ensures var s := Bind(Begun(generation, thread), generation, thread, turn);
            var trace := [Arrival(generation, FailedWith(thread, turn, Some(error)))];
            CanRetry(Deliver(s, trace), generation, thread, turn) <==> Passing(error)
  {
    var a := Arrival(generation, FailedWith(thread, turn, Some(error)));
    RetryRule(generation, thread, turn, [], [a]);
    assert [] + [a] == [a] && [a][..0] == [] && Deliver(Begun(generation, thread), []) == Begun(generation, thread);
    assert [a][0] == a;
  }

  /** And so is one that fails after an error ended its attempt. */
  lemma ErrorIsRetriedExactlyWhen(generation: nat, thread: string, turn: string, error: TurnError)
    requires generation != 0 && ValidId(thread) && ValidId(turn)
    ensures var s := Bind(Begun(generation, thread), generation, thread, turn);
            var trace := [Arrival(generation, EndedBy(thread, turn, error)),
                          Arrival(generation, FailedWith(thread, turn, None))];
            CanRetry(Deliver(s, trace), generation, thread, turn) <==> Passing(error)
  {
    var a, b := Arrival(generation, EndedBy(thread, turn, error)), Arrival(generation, FailedWith(thread, turn, None));
    RetryRule(generation, thread, turn, [], [a, b]);
    assert [] + [a, b] == [a, b] && [a, b][..1] == [a] && [a][..0] == [];
    assert Deliver(Begun(generation, thread), []) == Begun(generation, thread);
    var t := [a, b];
    assert t[0] == a && t[1] == b && !SomeCompletion([a]) && IsCompletion(b.frame);
    assert AllKeepRetry(generation, thread, turn, [a]) <==> KeepsRetry(generation, thread, turn, [], a);
    assert AnswerOf([a]) == None by { assert ItemsOf(a.frame) == []; }
  }

  // ---------------------------------------------------------------------------------------------
  // What may follow on the way to a result

  /** The one completion of this turn, which says that it succeeded. */
  predicate SuccessCompletion(turn: string, past: seq<Arrival>, p: Params)
    requires p.Params?
  {
    p.turn.Some? &&
    var t := p.turn.value;
    && t.id == turn && t.status.Completed? && !SomeCompletion(past)
    && (t.error.Some? ==> Understood(t.error.value))
    && t.items.Some? && ProperItems(t.items.value, AnswerOf(past), false)
  }

  predicate KeepsResult(generation: nat, thread: string, turn: string, past: seq<Arrival>, a: Arrival) {
    && a.generation == generation && a.frame != ServerRequest
    && (a.frame.Notification? && !a.frame.kind.OtherMethod? ==>
          && a.frame.params.Params? && a.frame.params.thread == Some(thread)
          && var p := a.frame.params;
             match a.frame.kind
             case ErrorNote =>
               && p.turnId == Some(turn) && 1 <= |thread| <= 256 && !SomeCompletion(past)
               && p.willRetry.Some? && p.willRetry.value && p.error.Some? && Understood(p.error.value)
             case TurnStarted => TimelyStart(turn, past, p)
             case ItemStarted => p.turnId == Some(turn) && PlainItem(p.item)
             case ItemCompleted =>
               p.turnId == Some(turn) && PlainItem(p.item) && ProperAnswer(p.item.value, AnswerOf(past), false)
             case TurnCompleted => SuccessCompletion(turn, past, p)
             case OtherMethod => true)
  }

  predicate AllKeepResult(generation: nat, thread: string, turn: string, trace: seq<Arrival>)
    decreases |trace|
  {
    trace == []
    || (AllKeepResult(generation, thread, turn, trace[..|trace| - 1])
          && KeepsResult(generation, thread, turn, trace[..|trace| - 1], trace[|trace| - 1]))
  }

  lemma KeepsResultExactlyWhen(generation: nat, thread: string, turn: string, past: seq<Arrival>, a: Arrival)
    requires ValidId(turn)
    ensures KeepsResult(generation, thread, turn, past, a) <==> Serves(generation, thread, turn, past, a)
  {
    if Relevant(a.frame) && a.frame.params.Params? {
      var p, v := a.frame.params, Progress(past);
      if p.willRetry.Some? && !p.willRetry.value { assert p.willRetry == Some(false); }
      if p.error.Some? { GradeExactlyWhen(p.error.value); }
      if p.item.Some? { ItemFaultExactlyWhen(v, p.item.value, a.frame.kind.ItemCompleted?); }
      if p.turn.Some? {
        if p.turn.value.error.Some? { GradeExactlyWhen(p.turn.value.error.value); }
        if p.turn.value.items.Some? { ProperExactlyWhen(v, p.turn.value.items.value); }
      }
    }
  }

  lemma {:induction false} AllKeepResultExactlyWhen(generation: nat, thread: string, turn: string, trace: seq<Arrival>)
    requires ValidId(turn)
    ensures AllKeepResult(generation, thread, turn, trace) <==> AllServe(generation, thread, turn, trace)
    decreases |trace|
  {
    if trace != [] {
      AllKeepResultExactlyWhen(generation, thread, turn, trace[..|trace| - 1]);
      KeepsResultExactlyWhen(generation, thread, turn, trace[..|trace| - 1], trace[|trace| - 1]);
    }
  }

  /** Wherever the turn was bound, by rules on the trace alone: there is a result if and only if at most 32
      notifications came before, every arrival keeps it, the turn completed and a final answer was given, and it
      is that answer. */
  lemma ResultRule(generation: nat, thread: string, turn: string, early: seq<Arrival>, late: seq<Arrival>)
    requires generation != 0 && thread != "" && ValidId(turn)
    ensures var split := Deliver(Bind(Deliver(Begun(generation, thread), early), generation, thread, turn), late);
            var trace := early + late;
            Success(split) ==
              if && RelevantIn(early) <= 32 && AllKeepResult(generation, thread, turn, trace)
                 && SomeCompletion(trace) && AnswerOf(trace).Some?
              then Some(AnswerOf(trace).value.text) else None
  {
    ResultExactlyWhen(generation, thread, turn, early, late);
    AllKeepResultExactlyWhen(generation, thread, turn, early + late);
  }

  // ---------------------------------------------------------------------------------------------
  // Binding

  /** Binding to another connection, thread or turn than the one bound, or than the turn that was noted,
      leaves neither a result nor a retry; binding to the right one keeps what was noted. */
  lemma BindExactlyWhen(s: State, generation: nat, thread: string, turn: string)
    requires turn != ""
    ensures var own := s.own;
            var right := && own.generation == generation && (own.thread == "" || own.thread == thread)
                         && (own.turn == "" || own.turn == turn)
                         && (s.v.cleanupTurn == "" || s.v.cleanupTurn == turn);
            var t := Bind(s, generation, thread, turn);
            if right then t.own == Owner(generation, thread, turn, own.issued) && t.events == []
            else Rejected(t.v) && t.own == s.own
  {
  }

  // ---------------------------------------------------------------------------------------------
  // Before the turn is requested

  /** A new sink belongs to the connection that it first hears from; what comes on another one is rejected for good. */
  lemma FirstConnectionCounts(s: State, generation: nat, f: Frame)
    ensures s.own.generation == 0 ==> Handle(s, generation, f).own == s.own.(generation := generation)
    ensures s.own.generation != 0 && s.own.generation != generation ==> Rejected(Handle(s, generation, f).v)
    ensures s.own.generation != 0 ==> Handle(s, generation, f).own == s.own
  {
  }

  /** No error can be about a turn that was not requested; and no other message names the turn before that. */
  lemma UnrequestedExactly(s: State, f: Frame)
    requires !s.own.issued && Relevant(f)
    ensures var t := Handle(s, s.own.generation, f).v;
            && (f.kind.ErrorNote? ==> Rejected(t))
            && (!f.kind.ErrorNote? ==> t.cleanupTurn == s.v.cleanupTurn && t.ambiguous == s.v.ambiguous)
  {
    var o := s.own;
    if !f.kind.ErrorNote? {
      assert NoteIdentity(o, s.v, f.kind, f.params) == s.v;
      if s.own.thread != "" && s.own.turn != "" { UnrequestedConsume(o, s.v, f); }
    }
  }

  lemma {:induction false} ItemsKeepIdentity(v: Verdict, items: seq<Option<Item>>)
    ensures TakeItems(v, items).cleanupTurn == v.cleanupTurn && TakeItems(v, items).ambiguous == v.ambiguous
    decreases |items|
  {
    if items != [] && items[0].Some? && TakeItem(v, items[0].value).err.None? {
      ItemsKeepIdentity(TakeItem(v, items[0].value), items[1..]);
    }
  }

  lemma UnrequestedConsume(o: Owner, v: Verdict, f: Frame)
    requires !o.issued && Relevant(f) && !f.kind.ErrorNote?
    ensures Consume(o, v, f.kind, f.params).cleanupTurn == v.cleanupTurn
    ensures Consume(o, v, f.kind, f.params).ambiguous == v.ambiguous
  {
    var c := ContentOf(o, f.kind, f.params);
    if c.ACompletion? && c.turn.items.Some? { ItemsKeepIdentity(v, c.turn.items.value); }
  }
}
