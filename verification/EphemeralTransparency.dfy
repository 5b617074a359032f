/** Buffering before bind is transparent: a sink that sees some of its notifications before it is bound
    comes to the same verdict as one that was bound first. */
module EphemeralTransparency {
  import opened Prelude
  import opened EphemeralEvidence
  import opened EphemeralSink

  /** Evidence was rejected: the turn has failed and is never safe to retry. */
  predicate Rejected(v: Verdict) { v.err.Some? && (v.revoked || v.ambiguous) }

  predicate Relevant(f: Frame) { f.Notification? && !f.kind.OtherMethod? }

  // ---------------------------------------------------------------------------------------------
  // Rejection is permanent

  /** What no evidence takes back. */
  predicate Follows(v: Verdict, t: Verdict) {
    (v.err.Some? ==> t.err.Some?) && (v.revoked ==> t.revoked) && (v.ambiguous ==> t.ambiguous)
  }

  lemma JudgedFollows(v: Verdict, fault: Option<Failure>)
    ensures Follows(v, Judged(v, fault).0) && (Judged(v, fault).1 ==> Rejected(Judged(v, fault).0))
  {
  }

  lemma NoteFollows(o: Owner, v: Verdict, m: Method, p: Params)
    ensures Follows(v, NoteIdentity(o, v, m, p))
  {
  }

  lemma RejectErrorFollows(o: Owner, v: Verdict, p: Params)
    ensures Follows(v, RejectError(o, v, p).0) && (RejectError(o, v, p).1 ==> Rejected(RejectError(o, v, p).0))
  {
  }

  lemma RejectFollows(o: Owner, v: Verdict, m: Method, p: Params)
    ensures Follows(v, RejectEvidence(o, v, m, p).0)
    ensures RejectEvidence(o, v, m, p).1 ==> Rejected(RejectEvidence(o, v, m, p).0)
  {
    if m.ErrorNote? {
      RejectErrorFollows(o, v, p);
    } else {
      NoteFollows(o, v, m, p);
      JudgedFollows(NoteIdentity(o, v, m, p), Fault(NoteIdentity(o, v, m, p), m, p));
    }
  }

  lemma TakeItemFollows(v: Verdict, item: Item)
    ensures Follows(v, TakeItem(v, item))
  {
  }

  lemma {:induction false} TakeItemsFollows(v: Verdict, items: seq<Option<Item>>)
    ensures Follows(v, TakeItems(v, items))
    decreases |items|
  {
    if items != [] && items[0].Some? {
      TakeItemFollows(v, items[0].value);
      if TakeItem(v, items[0].value).err.None? { TakeItemsFollows(TakeItem(v, items[0].value), items[1..]); }
    }
  }

  lemma SettleFollows(v: Verdict, turn: Turn)
    ensures Follows(v, Settle(v, turn))
  {
  }

  lemma TakeCompletionFollows(v: Verdict, turn: Turn)
    requires turn.items.Some?
    ensures Follows(v, TakeCompletion(v, turn))
  {
    TakeItemsFollows(v, turn.items.value);
    SettleFollows(TakeItems(v, turn.items.value), turn);
  }

  lemma TakeErrorFollows(v: Verdict, willRetry: bool, grade: ErrorClass)
    ensures Follows(v, TakeError(v, willRetry, grade))
  {
  }

  lemma TakeFollows(v: Verdict, content: Content)
    ensures Follows(v, Take(v, content))
  {
    match content
    case AnError(willRetry, grade) => TakeErrorFollows(v, willRetry, grade);
    case AnItem(item) => TakeItemFollows(v, item);
    case ACompletion(turn) => if turn.items.Some? { TakeCompletionFollows(v, turn); }
    case _ =>
  }

  lemma ConsumeFollows(o: Owner, v: Verdict, m: Method, p: Params)
    ensures Follows(v, Consume(o, v, m, p))
  {
    RejectFollows(o, v, m, p);
    TakeFollows(RejectEvidence(o, v, m, p).0, ContentOf(o, m, p));
  }

  lemma HandleFollows(s: State, generation: nat, f: Frame)
    ensures Follows(s.v, Handle(s, generation, f).v)
  {
    if Relevant(f) {
      var o := if s.own.generation == 0 then s.own.(generation := generation) else s.own;
      RejectFollows(o, s.v, f.kind, f.params);
      ConsumeFollows(o, RejectEvidence(o, s.v, f.kind, f.params).0, f.kind, f.params);
    }
  }

  lemma {:induction false} DeliverFollows(s: State, trace: seq<Arrival>)
    ensures Follows(s.v, Deliver(s, trace).v)
    decreases |trace|
  {
    if trace != [] {
      HandleFollows(s, trace[0].generation, trace[0].frame);
      DeliverFollows(Handle(s, trace[0].generation, trace[0].frame), trace[1..]);
    }
  }

  lemma {:induction false} ReplayFollows(o: Owner, v: Verdict, events: seq<Frame>)
    ensures Follows(v, Replay(o, v, events))
    decreases |events|
  {
    if events != [] {
      if events[0].Notification? {
        ConsumeFollows(o, v, events[0].kind, events[0].params);
        ReplayFollows(o, Consume(o, v, events[0].kind, events[0].params), events[1..]);
      } else {
        ReplayFollows(o, v, events[1..]);
      }
    }
  }

  // ---------------------------------------------------------------------------------------------
  // On a bound sink, delivery is consumption

  lemma NoteTwice(o: Owner, v: Verdict, m: Method, p: Params)
    requires NoteIdentity(o, v, m, p).ambiguous == false
    ensures NoteIdentity(o, NoteIdentity(o, v, m, p), m, p) == NoteIdentity(o, v, m, p)
  {
  }

  lemma RejectTwice(o: Owner, v: Verdict, m: Method, p: Params)
    requires !RejectEvidence(o, v, m, p).1
    ensures RejectEvidence(o, RejectEvidence(o, v, m, p).0, m, p) == RejectEvidence(o, v, m, p)
  {
    if !m.ErrorNote? { NoteTwice(o, v, m, p); }
  }

  predicate BoundTo(o: Owner, generation: nat, thread: string, turn: string) {
    o == Owner(generation, thread, turn, true) && generation != 0 && thread != "" && ValidId(turn)
  }

  lemma BoundHandle(s: State, generation: nat, thread: string, turn: string, f: Frame)
    requires BoundTo(s.own, generation, thread, turn) && Relevant(f)
    ensures Handle(s, generation, f) == s.(v := Consume(s.own, s.v, f.kind, f.params))
  {
    if !RejectEvidence(s.own, s.v, f.kind, f.params).1 { RejectTwice(s.own, s.v, f.kind, f.params); }
  }

  // ---------------------------------------------------------------------------------------------
  // A bound sink does not depend on the turn that it noted for cleanup

  /** The same verdict, apart from the turn noted for cleanup. */
  predicate Alike(a: Verdict, b: Verdict) { b == a.(cleanupTurn := b.cleanupTurn) }

  predicate NotedOwn(v: Verdict, turn: string) { v.cleanupTurn == "" || v.cleanupTurn == turn }

  lemma {:induction false} ItemsFaultAlike(a: Verdict, b: Verdict, items: seq<Option<Item>>)
    requires Alike(a, b)
    ensures ItemsFault(a, items) == ItemsFault(b, items)
    decreases |items|
  {
    if items != [] { ItemsFaultAlike(a, b, items[1..]); }
  }

  lemma FaultAlike(a: Verdict, b: Verdict, m: Method, p: Params)
    requires Alike(a, b)
    ensures Fault(a, m, p) == Fault(b, m, p)
  {
    if p.Params? && p.turn.Some? && p.turn.value.items.Some? { ItemsFaultAlike(a, b, p.turn.value.items.value); }
  }

  lemma ForeignAlike(o: Owner, a: string, b: string, m: Method, p: Params)
    requires (a == "" || a == o.turn) && (b == "" || b == o.turn) && o.turn != ""
    ensures Foreign(o, a, m, p) == Foreign(o, b, m, p)
  {
  }

  lemma NotedAlike(a: Verdict, b: Verdict, foreign: bool, turn: string)
    requires Alike(a, b)
    ensures Alike(Noted(a, foreign, turn), Noted(b, foreign, turn))
  {
  }

  lemma NoteAlike(o: Owner, a: Verdict, b: Verdict, m: Method, p: Params)
    requires Alike(a, b) && NotedOwn(a, o.turn) && NotedOwn(b, o.turn) && o.issued && o.turn != ""
    ensures Alike(NoteIdentity(o, a, m, p), NoteIdentity(o, b, m, p))
  {
    ForeignAlike(o, a.cleanupTurn, b.cleanupTurn, m, p);
    NotedAlike(a, b, Foreign(o, a.cleanupTurn, m, p), TurnNamed(m, p));
  }

  lemma NoteNotesOwn(o: Owner, v: Verdict, m: Method, p: Params)
    requires NotedOwn(v, o.turn) && o.turn != ""
    ensures NotedOwn(NoteIdentity(o, v, m, p), o.turn)
  {
  }

  lemma JudgedAlike(a: Verdict, b: Verdict, fault: Option<Failure>)
    requires Alike(a, b)
    ensures Alike(Judged(a, fault).0, Judged(b, fault).0) && Judged(a, fault).1 == Judged(b, fault).1
    ensures Judged(a, fault).0.cleanupTurn == a.cleanupTurn
  {
  }

  lemma RejectErrorAlike(o: Owner, a: Verdict, b: Verdict, p: Params)
    requires Alike(a, b) && NotedOwn(a, o.turn) && NotedOwn(b, o.turn) && o.turn != ""
    ensures Alike(RejectError(o, a, p).0, RejectError(o, b, p).0) && RejectError(o, a, p).1 == RejectError(o, b, p).1
  {
    assert OwnError(o, a.cleanupTurn, p) == OwnError(o, b.cleanupTurn, p);
  }

  lemma RejectAlike(o: Owner, a: Verdict, b: Verdict, m: Method, p: Params)
    requires Alike(a, b) && NotedOwn(a, o.turn) && NotedOwn(b, o.turn) && o.issued && o.turn != ""
    ensures Alike(RejectEvidence(o, a, m, p).0, RejectEvidence(o, b, m, p).0)
    ensures RejectEvidence(o, a, m, p).1 == RejectEvidence(o, b, m, p).1
  {
    if m.ErrorNote? {
      RejectErrorAlike(o, a, b, p);
    } else {
      NoteAlike(o, a, b, m, p);
      FaultAlike(NoteIdentity(o, a, m, p), NoteIdentity(o, b, m, p), m, p);
      JudgedAlike(NoteIdentity(o, a, m, p), NoteIdentity(o, b, m, p), Fault(NoteIdentity(o, a, m, p), m, p));
    }
  }

  lemma RejectNotesOwn(o: Owner, v: Verdict, m: Method, p: Params)
    requires NotedOwn(v, o.turn) && o.turn != ""
    ensures NotedOwn(RejectEvidence(o, v, m, p).0, o.turn)
  {
    if !m.ErrorNote? {
      NoteNotesOwn(o, v, m, p);
      JudgedAlike(NoteIdentity(o, v, m, p), NoteIdentity(o, v, m, p), Fault(NoteIdentity(o, v, m, p), m, p));
    }
  }

  lemma TakeItemAlike(a: Verdict, b: Verdict, item: Item)
    requires Alike(a, b)
    ensures Alike(TakeItem(a, item), TakeItem(b, item)) && TakeItem(a, item).cleanupTurn == a.cleanupTurn
  {
  }

  lemma {:induction false} TakeItemsAlike(a: Verdict, b: Verdict, items: seq<Option<Item>>)
    requires Alike(a, b)
    ensures Alike(TakeItems(a, items), TakeItems(b, items)) && TakeItems(a, items).cleanupTurn == a.cleanupTurn
    decreases |items|
  {
    if items != [] && items[0].Some? {
      TakeItemAlike(a, b, items[0].value);
      TakeItemsAlike(TakeItem(a, items[0].value), TakeItem(b, items[0].value), items[1..]);
    }
  }

  lemma SettleAlike(a: Verdict, b: Verdict, turn: Turn)
    requires Alike(a, b)
    ensures Alike(Settle(a, turn), Settle(b, turn)) && Settle(a, turn).cleanupTurn == a.cleanupTurn
  {
  }

  lemma TakeCompletionAlike(a: Verdict, b: Verdict, turn: Turn)
    requires Alike(a, b) && turn.items.Some?
    ensures Alike(TakeCompletion(a, turn), TakeCompletion(b, turn))
    ensures TakeCompletion(a, turn).cleanupTurn == a.cleanupTurn
  {
    TakeItemsAlike(a, b, turn.items.value);
    SettleAlike(TakeItems(a, turn.items.value), TakeItems(b, turn.items.value), turn);
  }

  lemma TakeErrorAlike(a: Verdict, b: Verdict, willRetry: bool, grade: ErrorClass)
    requires Alike(a, b)
    ensures Alike(TakeError(a, willRetry, grade), TakeError(b, willRetry, grade))
    ensures TakeError(a, willRetry, grade).cleanupTurn == a.cleanupTurn
  {
  }

  lemma TakeAlike(a: Verdict, b: Verdict, content: Content)
    requires Alike(a, b)
    ensures Alike(Take(a, content), Take(b, content)) && Take(a, content).cleanupTurn == a.cleanupTurn
  {
    match content
    case AnError(willRetry, grade) => TakeErrorAlike(a, b, willRetry, grade);
    case AnItem(item) => TakeItemAlike(a, b, item);
    case ACompletion(turn) => if turn.items.Some? { TakeCompletionAlike(a, b, turn); }
    case _ =>
  }

  lemma ConsumeAlike(o: Owner, a: Verdict, b: Verdict, m: Method, p: Params)
    requires Alike(a, b) && NotedOwn(a, o.turn) && NotedOwn(b, o.turn) && o.issued && o.turn != ""
    ensures Alike(Consume(o, a, m, p), Consume(o, b, m, p))
  {
    RejectAlike(o, a, b, m, p);
    TakeAlike(RejectEvidence(o, a, m, p).0, RejectEvidence(o, b, m, p).0, ContentOf(o, m, p));
  }

  lemma ConsumeNotesOwn(o: Owner, v: Verdict, m: Method, p: Params)
    requires NotedOwn(v, o.turn) && o.turn != ""
    ensures NotedOwn(Consume(o, v, m, p), o.turn)
  {
    RejectNotesOwn(o, v, m, p);
    TakeAlike(RejectEvidence(o, v, m, p).0, RejectEvidence(o, v, m, p).0, ContentOf(o, m, p));
  }

  lemma {:induction false} ReplayAlike(o: Owner, a: Verdict, b: Verdict, events: seq<Frame>)
    requires Alike(a, b) && NotedOwn(a, o.turn) && NotedOwn(b, o.turn) && o.issued && o.turn != ""
    ensures Alike(Replay(o, a, events), Replay(o, b, events))
    ensures NotedOwn(Replay(o, a, events), o.turn) && NotedOwn(Replay(o, b, events), o.turn)
    decreases |events|
  {
    if events != [] {
      var f := events[0];
      if f.Notification? {
        ConsumeAlike(o, a, b, f.kind, f.params);
        ConsumeNotesOwn(o, a, f.kind, f.params);
        ConsumeNotesOwn(o, b, f.kind, f.params);
        ReplayAlike(o, Consume(o, a, f.kind, f.params), Consume(o, b, f.kind, f.params), events[1..]);
      } else {
        ReplayAlike(o, a, b, events[1..]);
      }
    }
  }

  // ---------------------------------------------------------------------------------------------
  // A bound sink rejects whatever a sink that is not yet bound rejects

  /** Nothing was consumed yet. */
  predicate Early(v: Verdict) { v == NoVerdict.(cleanupTurn := v.cleanupTurn) }

  lemma ItemFaultStands(v: Verdict, w: Verdict, item: Item, completed: bool)
    requires v.answer.None? && !v.settled && ItemFault(v, item, completed).Some?
    ensures ItemFault(w, item, completed).Some?
  {
  }

  lemma {:induction false} ItemsFaultStands(v: Verdict, w: Verdict, items: seq<Option<Item>>)
    requires v.answer.None? && !v.settled && ItemsFault(v, items).Some?
    ensures ItemsFault(w, items).Some?
    decreases |items|
  {
    if items[0].Some? {
      if ItemFault(v, items[0].value, true).Some? {
        ItemFaultStands(v, w, items[0].value, true);
      } else {
        ItemsFaultStands(v, w, items[1..]);
      }
    }
  }

  lemma CompletionFaultStands(v: Verdict, w: Verdict, turn: Turn)
    requires v.answer.None? && !v.settled && !v.completed && CompletionFault(v, turn).Some?
    ensures CompletionFault(w, turn).Some?
  {
    if ShapedTurn(turn) { ItemsFaultStands(v, w, turn.items.value); }
  }

  lemma FaultStands(v: Verdict, w: Verdict, m: Method, p: Params)
    requires v.answer.None? && !v.settled && !v.completed && !v.ambiguous && Fault(v, m, p).Some?
    ensures Fault(w, m, p).Some?
  {
    if p.Params? {
      if m.TurnCompleted? && p.turn.Some? { CompletionFaultStands(v, w, p.turn.value); }
      if !TurnMethod(m) && p.item.Some? { ItemFaultStands(v, w, p.item.value, m.ItemCompleted?); }
    }
  }

  lemma ForeignRejected(o: Owner, w: Verdict, m: Method, p: Params)
    requires o.issued && !m.ErrorNote? && Foreign(o, w.cleanupTurn, m, p)
    ensures RejectEvidence(o, w, m, p).1
  {
    assert NoteIdentity(o, w, m, p).ambiguous;
  }

  lemma ErrorStands(early: Owner, bound: Owner, v: Verdict, w: Verdict, p: Params)
    requires early == bound.(turn := "") && bound.turn != "" && !v.settled && NotedOwn(v, bound.turn)
    requires RejectError(early, v, p).1
    ensures RejectError(bound, w, p).1
  {
  }

  lemma RejectStands(early: Owner, bound: Owner, v: Verdict, w: Verdict, m: Method, p: Params)
    requires early == bound.(turn := "") && early.issued && bound.turn != ""
    requires Early(v) && NotedOwn(v, bound.turn) && RejectEvidence(early, v, m, p).1
    ensures RejectEvidence(bound, w, m, p).1
  {
    if m.ErrorNote? {
      ErrorStands(early, bound, v, w, p);
    } else if Foreign(bound, w.cleanupTurn, m, p) {
      ForeignRejected(bound, w, m, p);
    } else {
      assert !Foreign(early, v.cleanupTurn, m, p);
      FaultStands(NoteIdentity(early, v, m, p), NoteIdentity(bound, w, m, p), m, p);
    }
  }

  /** An early sink that keeps a message stays early; if it noted another turn, a bound sink rejects. */
  lemma KeptStaysEarly(early: Owner, bound: Owner, v: Verdict, w: Verdict, m: Method, p: Params)
    requires early == bound.(turn := "") && early.issued && bound.turn != "" && Early(v)
    requires !RejectEvidence(early, v, m, p).1
    ensures Early(RejectEvidence(early, v, m, p).0)
    ensures NotedOwn(v, bound.turn) && !NotedOwn(RejectEvidence(early, v, m, p).0, bound.turn) ==>
            RejectEvidence(bound, w, m, p).1
    ensures !NotedOwn(v, bound.turn) ==> !NotedOwn(RejectEvidence(early, v, m, p).0, bound.turn)
  {
    if !m.ErrorNote? {
      assert !Foreign(early, v.cleanupTurn, m, p);
      if TurnNamed(m, p) != bound.turn { ForeignRejected(bound, w, m, p); }
    }
  }

  // ---------------------------------------------------------------------------------------------
  // Before bind: a buffering sink beside a sink that was bound first

  lemma {:induction false} ReplaySnoc(o: Owner, v: Verdict, events: seq<Frame>, f: Frame)
    requires f.Notification?
    ensures Replay(o, v, events + [f]) == Consume(o, Replay(o, v, events), f.kind, f.params)
    decreases |events|
  {
    if events == [] {
      assert events + [f] == [f];
    } else {
      assert (events + [f])[0] == events[0] && (events + [f])[1..] == events[1..] + [f];
      var e := events[0];
      ReplaySnoc(o, if e.Notification? then Consume(o, v, e.kind, e.params) else v, events[1..], f);
    }
  }

  /** A sink `s` that buffers, beside a sink `b` that was bound to `turn` first. */
  predicate Beside(s: State, b: State, turn: string) {
    && s.own == b.own.(turn := "")
    && (if Rejected(s.v) then
          Rejected(b.v)
        else
          && Early(s.v) && b.v == Replay(b.own, NoVerdict, s.events)
          && (!NotedOwn(s.v, turn) ==> Rejected(b.v)))
  }

  lemma BesideRejects(s: State, b: State, generation: nat, thread: string, turn: string, f: Frame)
    requires BoundTo(b.own, generation, thread, turn) && Beside(s, b, turn) && Relevant(f)
    requires !Rejected(s.v) && RejectEvidence(s.own, s.v, f.kind, f.params).1
    ensures Rejected(Consume(b.own, b.v, f.kind, f.params))
  {
    if NotedOwn(s.v, turn) {
      RejectStands(s.own, b.own, s.v, b.v, f.kind, f.params);
      RejectFollows(b.own, b.v, f.kind, f.params);
    } else {
      ConsumeFollows(b.own, b.v, f.kind, f.params);
    }
  }

  lemma BesideKeeps(s: State, b: State, generation: nat, thread: string, turn: string, f: Frame)
    requires BoundTo(b.own, generation, thread, turn) && Beside(s, b, turn) && Relevant(f)
    requires !Rejected(s.v) && !RejectEvidence(s.own, s.v, f.kind, f.params).1
    ensures !NotedOwn(RejectEvidence(s.own, s.v, f.kind, f.params).0, turn) ==>
            Rejected(Consume(b.own, b.v, f.kind, f.params))
  {
    KeptStaysEarly(s.own, b.own, s.v, b.v, f.kind, f.params);
    if NotedOwn(s.v, turn) {
      RejectFollows(b.own, b.v, f.kind, f.params);
    } else {
      ConsumeFollows(b.own, b.v, f.kind, f.params);
    }
  }

  lemma BesideRelevant(s: State, b: State, generation: nat, thread: string, turn: string, f: Frame)
    requires BoundTo(b.own, generation, thread, turn) && Beside(s, b, turn) && Relevant(f) && |s.events| < EventLimit
    ensures Beside(Handle(s, generation, f), Handle(b, generation, f), turn)
    ensures |Handle(s, generation, f).events| <= |s.events| + 1
  {
    BoundHandle(b, generation, thread, turn, f);
    RejectFollows(s.own, s.v, f.kind, f.params);
    if Rejected(s.v) {
      ConsumeFollows(b.own, b.v, f.kind, f.params);
    } else if RejectEvidence(s.own, s.v, f.kind, f.params).1 {
      BesideRejects(s, b, generation, thread, turn, f);
    } else {
      KeptStaysEarly(s.own, b.own, s.v, b.v, f.kind, f.params);
      BesideKeeps(s, b, generation, thread, turn, f);
      ReplaySnoc(b.own, NoVerdict, s.events, f);
      assert f == Notification(f.kind, f.params);
    }
  }

  lemma BesideStep(s: State, b: State, generation: nat, thread: string, turn: string, a: Arrival)
    requires BoundTo(b.own, generation, thread, turn) && Beside(s, b, turn)
    requires Relevant(a.frame) ==> |s.events| < EventLimit
    ensures Beside(Handle(s, a.generation, a.frame), Handle(b, a.generation, a.frame), turn)
    ensures Handle(b, a.generation, a.frame).own == b.own
    ensures |Handle(s, a.generation, a.frame).events| <= |s.events| + if Relevant(a.frame) then 1 else 0
  {
    if a.generation == generation && Relevant(a.frame) {
      BoundHandle(b, generation, thread, turn, a.frame);
      BesideRelevant(s, b, generation, thread, turn, a.frame);
    }
  }

  function RelevantIn(trace: seq<Arrival>): nat
    decreases |trace|
  {
    if trace == [] then 0 else (if Relevant(trace[0].frame) then 1 else 0) + RelevantIn(trace[1..])
  }

  lemma {:induction false} BesideDeliver(s: State, b: State, generation: nat, thread: string, turn: string,
    trace: seq<Arrival>)
    requires BoundTo(b.own, generation, thread, turn) && Beside(s, b, turn)
    requires |s.events| + RelevantIn(trace) <= EventLimit
    ensures Beside(Deliver(s, trace), Deliver(b, trace), turn) && Deliver(b, trace).own == b.own
    decreases |trace|
  {
    if trace != [] {
      BesideStep(s, b, generation, thread, turn, trace[0]);
      BesideDeliver(Handle(s, trace[0].generation, trace[0].frame), Handle(b, trace[0].generation, trace[0].frame),
                    generation, thread, turn, trace[1..]);
    }
  }

  // ---------------------------------------------------------------------------------------------
  // After bind: two bound sinks whose verdicts cannot be told apart

  predicate Same(s: State, b: State) {
    s.own == b.own && ((Rejected(s.v) && Rejected(b.v))
      || (Alike(s.v, b.v) && NotedOwn(s.v, s.own.turn) && NotedOwn(b.v, s.own.turn)))
  }

  lemma SameStep(s: State, b: State, generation: nat, thread: string, turn: string, a: Arrival)
    requires BoundTo(s.own, generation, thread, turn) && Same(s, b)
    ensures Same(Handle(s, a.generation, a.frame), Handle(b, a.generation, a.frame))
    ensures Handle(s, a.generation, a.frame).own == s.own
  {
    var f := a.frame;
    HandleFollows(s, a.generation, f);
    HandleFollows(b, a.generation, f);
    if a.generation == generation && Relevant(f) {
      BoundHandle(s, generation, thread, turn, f);
      BoundHandle(b, generation, thread, turn, f);
      if Alike(s.v, b.v) && NotedOwn(s.v, turn) && NotedOwn(b.v, turn) {
        ConsumeAlike(s.own, s.v, b.v, f.kind, f.params);
        ConsumeNotesOwn(s.own, s.v, f.kind, f.params);
        ConsumeNotesOwn(s.own, b.v, f.kind, f.params);
      }
    }
  }

  lemma {:induction false} SameDeliver(s: State, b: State, generation: nat, thread: string, turn: string,
    trace: seq<Arrival>)
    requires BoundTo(s.own, generation, thread, turn) && Same(s, b)
    ensures Same(Deliver(s, trace), Deliver(b, trace))
    decreases |trace|
  {
    if trace != [] {
      SameStep(s, b, generation, thread, turn, trace[0]);
      SameDeliver(Handle(s, trace[0].generation, trace[0].frame), Handle(b, trace[0].generation, trace[0].frame),
                  generation, thread, turn, trace[1..]);
    }
  }

  // ---------------------------------------------------------------------------------------------
  // The theorem

  lemma BindCatchesUp(s: State, b: State, generation: nat, thread: string, turn: string)
    requires BoundTo(b.own, generation, thread, turn) && Beside(s, b, turn)
    ensures Rejected(Bind(s, generation, thread, turn).v) || Bind(s, generation, thread, turn).own == b.own
    ensures Same(Bind(s, generation, thread, turn).(own := b.own), b)
  {
    if !Misbinds(s, generation, thread, turn) {
      ReplayFollows(b.own, s.v, s.events);
      if !Rejected(s.v) { ReplayAlike(b.own, s.v, NoVerdict, s.events); }
    }
  }

  lemma {:induction false} DeliverAppend(s: State, a: seq<Arrival>, b: seq<Arrival>)
    ensures Deliver(s, a + b) == Deliver(Deliver(s, a), b)
    decreases |a|
  {
    if a == [] {
      assert a + b == b;
    } else {
      assert (a + b)[0] == a[0] && (a + b)[1..] == a[1..] + b;
      DeliverAppend(Handle(s, a[0].generation, a[0].frame), a[1..], b);
    }
  }

  lemma RejectedVerdict(s: State, generation: nat, thread: string, turn: string)
    requires Rejected(s.v)
    ensures Success(s) == None && !CanRetry(s, generation, thread, turn)
  {
  }

  /** Whether notifications come before or after the turn is bound changes neither the successful result
      nor the verdict that a retry is safe, as long as the buffer holds the early ones. */
  lemma BufferingIsTransparent(generation: nat, thread: string, turn: string, early: seq<Arrival>, late: seq<Arrival>)
    requires generation != 0 && thread != "" && ValidId(turn) && RelevantIn(early) <= EventLimit
    ensures var split := Deliver(Bind(Deliver(Begun(generation, thread), early), generation, thread, turn), late);
            var bound := Deliver(Bind(Begun(generation, thread), generation, thread, turn), early + late);
            Success(split) == Success(bound)
              && CanRetry(split, generation, thread, turn) == CanRetry(bound, generation, thread, turn)
  {
    var start := Bind(Begun(generation, thread), generation, thread, turn);
    BesideDeliver(Begun(generation, thread), start, generation, thread, turn, early);
    var s, b := Deliver(Begun(generation, thread), early), Deliver(start, early);
    BindCatchesUp(s, b, generation, thread, turn);
    DeliverAppend(start, early, late);
    var r := Bind(s, generation, thread, turn);
    if Rejected(r.v) {
      DeliverFollows(r, late);
      DeliverFollows(b, late);
      RejectedVerdict(Deliver(r, late), generation, thread, turn);
      RejectedVerdict(Deliver(b, late), generation, thread, turn);
    } else {
      SameDeliver(r, b, generation, thread, turn, late);
      SameVerdict(Deliver(r, late), Deliver(b, late), generation, thread, turn);
    }
  }

  lemma SameVerdict(s: State, b: State, generation: nat, thread: string, turn: string)
    requires Same(s, b)
    ensures Success(s) == Success(b) && CanRetry(s, generation, thread, turn) == CanRetry(b, generation, thread, turn)
  {
    if Rejected(s.v) && Rejected(b.v) {
      RejectedVerdict(s, generation, thread, turn);
      RejectedVerdict(b, generation, thread, turn);
    }
  }
}
