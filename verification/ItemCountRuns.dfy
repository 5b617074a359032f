/** Whole runs of incremental counting (codex/activity_history.go:67-122): pages are read, items are added and
    settle in between.  Counts that are known are right as long as no page folds past its cursor; once one does,
    the pages that follow are refused for good or count items twice. */
module ItemCountRuns {
  import opened Prelude
  import opened ItemCounts

  // ---------------------------------------------------------------------------------------------
  // One page

  /** The effect of reading a page: one that is not acceptable changes nothing. */
  ghost function AfterPage(s: State, data: seq<Item>, next: Option<nat>): State {
    if Accepts(s, data, next) then Step(s, data, next) else s
  }

  lemma PutKeepsIds(m: seq<Item>, x: Item, id: string)
    requires Has(m, id) || x.id == id
    ensures Has(Put(m, x), id)
  {
    var k, r := IndexOf(m, x.id), Put(m, x);
    if x.id == id {
      assert r[if k < |m| then k else |m|].id == id;
    } else {
      var i :| 0 <= i < |m| && m[i].id == id;
      assert r[i].id == id;
    }
  }

  lemma {:induction false} MergeKeepsIds(tail: seq<Item>, data: seq<Item>, id: string)
    requires Has(tail, id) || Has(data, id)
    ensures Has(Merge(tail, data), id)
    decreases |data|
  {
    if data != [] {
      var init, last := data[..|data| - 1], data[|data| - 1];
      if last.id != id {
        if Has(data, id) {
          var i :| 0 <= i < |data| && data[i].id == id;
          assert init[i].id == id;
        }
        MergeKeepsIds(tail, init, id);
      }
      PutKeepsIds(Merge(tail, init), Projection(last), id);
    }
  }

  /** A page that starts before the end of what was folded counts an item a second time if it is taken in. */
  lemma RereadCountsTwice(s: State, list: seq<Item>, data: seq<Item>, next: Option<nat>)
    requires Good(s, list) && !InReach(s) && LegalPage(list, From(s, list), data, next)
    ensures Repeats(Step(s, data, next))
  {
    var from, f := s.cursor.value, |s.folded|;
    StepLedger(s, data, next);
    assert data[0] == list[from];
    MergeKeepsIds(s.tail, data, data[0].id);
    var i :| 0 <= i < |Merge(s.tail, data)| && Merge(s.tail, data)[i].id == data[0].id;
    assert ViewAt(s, list, from) && Ledger(s)[from] == s.folded[from];
    assert !Apart(Ledger(Step(s, data, next)), from, f + i);
  }

  /** The anchor is the last item that was folded: a page out of reach is accepted exactly when it stops before it. */
  lemma AcceptedExactlyBeforeAnchor(s: State, list: seq<Item>, data: seq<Item>, next: Option<nat>)
    requires Good(s, list) && !InReach(s) && LegalPage(list, From(s, list), data, next)
    ensures Accepts(s, data, next) <==> From(s, list) + |data| < |s.folded|
  {
    var from, last := s.cursor.value, |s.folded| - 1;
    assert ViewAt(s, list, last) && Ledger(s)[last] == s.folded[last];
    if from + |data| <= last {
      forall i | 0 <= i < |data| ensures data[i].id != "" && data[i].id != Anchor(s) {
        assert data[i] == list[from + i] && Apart(list, from + i, last);
      }
      forall i, j ensures Apart(data, i, j) { assert Apart(list, from + i, from + j); }
    } else {
      assert data[last - from] == list[last];
    }
  }

  /** An item was counted more than once. */
  ghost predicate Repeats(s: State) { !Unique(Ledger(s)) }

  lemma RepeatsIsNotOnce(s: State, list: seq<Item>)
    requires Repeats(s) && Identified(list)
    ensures !ExactlyOnce(s, list)
  {
    var l := Ledger(s);
    var i, j :| !Apart(l, i, j);
    assert Apart(list, i, j);
  }

  /** Exactly when reading a page leaves every item seen counted once: it starts at a place that was not
      folded yet, or it reaches the anchor and is refused. */
  lemma ExactlyOnceExactlyWhen(s: State, list: seq<Item>, data: seq<Item>, next: Option<nat>)
    requires Good(s, list) && LegalPage(list, From(s, list), data, next)
    ensures ExactlyOnce(AfterPage(s, data, next), list) <==> InReach(s) || !Accepts(s, data, next)
    ensures ExactlyOnce(AfterPage(s, data, next), list) <==> InReach(s) || |s.folded| <= From(s, list) + |data|
  {
    ViewsAreOnce(s, list);
    if InReach(s) {
      ReadKeeps(s, list, data, next);
    } else {
      AcceptedExactlyBeforeAnchor(s, list, data, next);
      RereadCountsTwice(s, list, data, next);
      RepeatsIsNotOnce(Step(s, data, next), list);
    }
  }

  /** Whatever the server sends: a page that is taken in has at most 32 items, each named and none of them the anchor or
      there twice, and goes on to a place where this sweep has not been; so no sweep goes round in circles. */
  lemma AcceptedExactlyWhen(s: State, data: seq<Item>, next: Option<nat>)
    ensures Accepts(s, data, next) <==>
            && |data| <= 32 && Named(data) && (forall i, j :: 0 <= i < j < |data| ==> data[i].id != data[j].id)
            && (s.folded != [] ==> !Has(data, s.folded[|s.folded| - 1].id))
            && (next.Some? ==> data != [] && next.value !in s.cursors && s.cursor != next)
    ensures Accepts(s, data, next) && next.Some? ==>
              Step(s, data, next).cursors == s.cursors + {next.value} && next.value !in s.cursors
    ensures next.None? ==> Step(s, data, next).cursors == {} && Step(s, data, next).loaded
  {
    if Named(data) && (forall i, j :: 0 <= i < j < |data| ==> data[i].id != data[j].id) {
      forall i, j ensures Apart(data, i, j) { }
    }
    if Unique(data) {
      forall i, j | 0 <= i < j < |data| ensures data[i].id != data[j].id { assert Apart(data, i, j); }
    }
  }

  // ---------------------------------------------------------------------------------------------
  // Runs

  datatype Event = Page(data: seq<Item>, next: Option<nat>) | Grow(later: seq<Item>)

  /** Pages are legal for the list as it is, and the list only grows. */
  ghost predicate IsRun(s: State, list: seq<Item>, events: seq<Event>)
    decreases |events|
  {
    events == []
    || match events[0]
       case Page(data, next) => LegalPage(list, From(s, list), data, next)
         && IsRun(AfterPage(s, data, next), list, events[1..])
       case Grow(later) => Grows(list, later) && Identified(later) && IsRun(s, later, events[1..])
  }

  ghost function After(s: State, list: seq<Item>, events: seq<Event>): (State, seq<Item>)
    decreases |events|
  {
    if events == [] then (s, list) else
    match events[0]
    case Page(data, next) => After(AfterPage(s, data, next), list, events[1..])
    case Grow(later) => After(s, later, events[1..])
  }

  /** Every page that was taken in started at a place that was not folded yet. */
  ghost predicate InReachWhenTaken(s: State, list: seq<Item>, events: seq<Event>)
    decreases |events|
  {
    events == []
    || match events[0]
       case Page(data, next) => (Accepts(s, data, next) ==> InReach(s))
         && InReachWhenTaken(AfterPage(s, data, next), list, events[1..])
       case Grow(later) => InReachWhenTaken(s, later, events[1..])
  }

  lemma PutKeepsPlaces(m: seq<Item>, x: Item, i: nat)
    requires i < |m|
    ensures |Put(m, x)| >= |m| && Put(m, x)[i].id == m[i].id
  {
  }

  lemma {:induction false} MergeKeepsPlaces(tail: seq<Item>, data: seq<Item>, i: nat)
    requires i < |tail|
    ensures |Merge(tail, data)| >= |tail| && Merge(tail, data)[i].id == tail[i].id
    decreases |data|
  {
    if data != [] {
      MergeKeepsPlaces(tail, data[..|data| - 1], i);
      PutKeepsPlaces(Merge(tail, data[..|data| - 1]), Projection(data[|data| - 1]), i);
    }
  }

  lemma StepKeepsPlaces(s: State, data: seq<Item>, next: Option<nat>, i: nat)
    requires i < |Ledger(s)|
    ensures i < |Ledger(Step(s, data, next))| && Ledger(Step(s, data, next))[i].id == Ledger(s)[i].id
  {
    StepLedger(s, data, next);
    if i >= |s.folded| { MergeKeepsPlaces(s.tail, data, i - |s.folded|); }
  }

  lemma StepKeepsRepeats(s: State, data: seq<Item>, next: Option<nat>)
    requires Repeats(s)
    ensures Repeats(Step(s, data, next))
  {
    var l, m := Ledger(s), Ledger(Step(s, data, next));
    var i, j :| !Apart(l, i, j);
    StepKeepsPlaces(s, data, next, i);
    StepKeepsPlaces(s, data, next, j);
    assert !Apart(m, i, j);
  }

  lemma {:induction false} RepeatsForGood(s: State, list: seq<Item>, events: seq<Event>)
    requires Repeats(s) && Identified(list) && IsRun(s, list, events)
    ensures Repeats(After(s, list, events).0) && Identified(After(s, list, events).1)
    decreases |events|
  {
    if events != [] {
      match events[0]
      case Page(data, next) =>
        if Accepts(s, data, next) { StepKeepsRepeats(s, data, next); }
        RepeatsForGood(AfterPage(s, data, next), list, events[1..]);
      case Grow(later) => RepeatsForGood(s, later, events[1..]);
    }
  }

  /** Over every run: each item seen is counted exactly once if and only if no page that was taken in started at a place
      that was folded already. */
  lemma {:induction false} RunCountsOnceExactlyWhen(s: State, list: seq<Item>, events: seq<Event>)
    requires Good(s, list) && IsRun(s, list, events)
    ensures var (t, final) := After(s, list, events);
            ExactlyOnce(t, final) <==> InReachWhenTaken(s, list, events)
    decreases |events|
  {
    if events == [] {
      ViewsAreOnce(s, list);
    } else {
      match events[0]
      case Page(data, next) =>
        if Accepts(s, data, next) && !InReach(s) {
          RereadCountsTwice(s, list, data, next);
          RepeatsForGood(Step(s, data, next), list, events[1..]);
          RepeatsIsNotOnce(After(s, list, events).0, After(s, list, events).1);
        } else {
          if Accepts(s, data, next) { ReadKeeps(s, list, data, next); }
          RunCountsOnceExactlyWhen(AfterPage(s, data, next), list, events[1..]);
        }
      case Grow(later) =>
        GrowthKeeps(s, list, later);
        RunCountsOnceExactlyWhen(s, later, events[1..]);
    }
  }

  // ---------------------------------------------------------------------------------------------
  // Known counts are right

  /** No page of the run folds past its cursor. */
  ghost predicate NoneOvertakes(s: State, list: seq<Item>, events: seq<Event>)
    decreases |events|
  {
    events == []
    || match events[0]
       case Page(data, next) => !Overtakes(s, data, next) && NoneOvertakes(AfterPage(s, data, next), list, events[1..])
       case Grow(later) => NoneOvertakes(s, later, events[1..])
  }

  /** The run ends with a page without a cursor. */
  predicate EndsWithFinalPage(events: seq<Event>) {
    events != [] && events[|events| - 1].Page? && events[|events| - 1].next.None?
  }

  /** Then every page is accepted, and right after a final page every item of the list was counted once. */
  lemma {:induction false} FinalPageCompletes(s: State, list: seq<Item>, events: seq<Event>)
    requires Good(s, list) && InReach(s) && IsRun(s, list, events) && NoneOvertakes(s, list, events)
    ensures var (t, final) := After(s, list, events);
            && Good(t, final) && InReach(t)
            && (EndsWithFinalPage(events) ==> Complete(t, final) && t.loaded && t.cursor.None?)
    decreases |events|
  {
    if events != [] {
      match events[0]
      case Page(data, next) =>
        ReadKeeps(s, list, data, next);
        FoldOvertakes(s, list, data, next);
        FinalPageCompletes(Step(s, data, next), list, events[1..]);
        assert |events| > 1 ==> events[1..][|events| - 2] == events[|events| - 1];
      case Grow(later) =>
        GrowthKeeps(s, list, later);
        FinalPageCompletes(s, later, events[1..]);
        assert |events| > 1 ==> events[1..][|events| - 2] == events[|events| - 1];
    }
  }

  /** Right after a final page, counts that are known cover the list, each item once, if and only if no page that was
      taken in started at a place that was folded already.  Refused pages do no harm. */
  lemma KnownCountsCoverExactlyWhen(s: State, list: seq<Item>, events: seq<Event>)
    requires Good(s, list) && IsRun(s, list, events) && EndsWithFinalPage(events)
    requires After(s, list, events).0.loaded && After(s, list, events).0.cursor.None?
    ensures var (t, final) := After(s, list, events);
            && (Complete(t, final) <==> InReachWhenTaken(s, list, events))
            && (Complete(t, final) ==> Plus(Sum(t.folded), Sum(t.tail)) == Sum(final))
  {
    var (t, final) := After(s, list, events);
    RunCountsOnceExactlyWhen(s, list, events);
    if Complete(t, final) {
      ViewsAreOnce(t, final);
      CountsAreComplete(t, final);
    }
    if InReachWhenTaken(s, list, events) { FinalPageCovers(s, list, events); }
  }

  lemma {:induction false} FinalPageCovers(s: State, list: seq<Item>, events: seq<Event>)
    requires Good(s, list) && IsRun(s, list, events) && EndsWithFinalPage(events)
    requires InReachWhenTaken(s, list, events) && After(s, list, events).0.cursor.None?
    ensures var (t, final) := After(s, list, events); Complete(t, final)
    decreases |events|
  {
    var rest := events[1..];
    assert |events| > 1 ==> rest[|events| - 2] == events[|events| - 1];
    match events[0]
    case Page(data, next) =>
      if InReach(s) { ReadKeeps(s, list, data, next); }
      if rest != [] { FinalPageCovers(AfterPage(s, data, next), list, rest); }
    case Grow(later) =>
      GrowthKeeps(s, list, later);
      FinalPageCovers(s, later, rest);
  }

  predicate PagesOnly(events: seq<Event>) { forall i :: 0 <= i < |events| ==> events[i].Page? }

  lemma SweptAtStart(s: State, list: seq<Item>)
    requires Good(s, list) && s.cursor.None?
    ensures Swept(s, list, From(s, list))
  {
    AnchorPlace(s, list);
    var from := From(s, list);
    forall i ensures SweptAt(s, list, from, i) { }
  }

  lemma NextFrom(t: State, list: seq<Item>, from: nat, data: seq<Item>, next: Option<nat>)
    requires LegalPage(list, from, data, next) && t.cursor == next
    ensures next.Some? ==> From(t, list) == from + |data|
    ensures next.None? ==> from + |data| == |list|
  {
  }

  lemma PageKeepsReach(s: State, list: seq<Item>, data: seq<Item>, next: Option<nat>)
    requires Good(s, list) && InReach(s)
    requires LegalPage(list, From(s, list), data, next) && !Overtakes(s, data, next)
    ensures Accepts(s, data, next) && Good(Step(s, data, next), list) && InReach(Step(s, data, next))
  {
    ReadKeeps(s, list, data, next);
    FoldOvertakes(s, list, data, next);
  }

  /** A sweep that reached the end of a page reached the place where the next page starts. */
  lemma SweptToNext(t: State, list: seq<Item>, from: nat, data: seq<Item>, next: Option<nat>)
    requires Good(t, list) && t.cursor == next && LegalPage(list, from, data, next)
    requires Swept(t, list, from + |data|)
    ensures Swept(t, list, From(t, list))
    ensures next.None? ==> Swept(t, list, |list|)
  {
    NextFrom(t, list, from, data, next);
    if t.cursor.None? { SweptAtStart(t, list); }
  }

  lemma SweepStep(s: State, list: seq<Item>, data: seq<Item>, next: Option<nat>)
    requires Good(s, list) && InReach(s) && Swept(s, list, From(s, list))
    requires LegalPage(list, From(s, list), data, next) && !Overtakes(s, data, next)
    ensures Accepts(s, data, next) && Good(Step(s, data, next), list) && InReach(Step(s, data, next))
    ensures Swept(Step(s, data, next), list, From(Step(s, data, next), list))
    ensures next.None? ==> Swept(Step(s, data, next), list, |list|)
  {
    PageKeepsReach(s, list, data, next);
    SweepAdvances(s, list, data, next);
    SweptToNext(Step(s, data, next), list, From(s, list), data, next);
  }

  /** And when the list did not change since the sweep started, the tail is up to date. */
  lemma {:induction false} SweepBringsUpToDate(s: State, list: seq<Item>, events: seq<Event>)
    requires Good(s, list) && InReach(s) && Swept(s, list, From(s, list))
    requires IsRun(s, list, events) && NoneOvertakes(s, list, events) && PagesOnly(events) && EndsWithFinalPage(events)
    ensures After(s, list, events).1 == list && Swept(After(s, list, events).0, list, |list|)
    decreases |events|
  {
    SweepStep(s, list, events[0].data, events[0].next);
    if |events| > 1 {
      var rest := events[1..];
      assert forall i :: 0 <= i < |rest| ==> rest[i] == events[i + 1];
      SweepBringsUpToDate(Step(s, events[0].data, events[0].next), list, rest);
    }
  }

  lemma {:induction false} AfterAppend(s: State, list: seq<Item>, first: seq<Event>, second: seq<Event>)
    requires IsRun(s, list, first + second) && NoneOvertakes(s, list, first + second)
    ensures var (t, later) := After(s, list, first);
            && After(s, list, first + second) == After(t, later, second)
            && IsRun(s, list, first) && NoneOvertakes(s, list, first)
            && IsRun(t, later, second) && NoneOvertakes(t, later, second)
    decreases |first|
  {
    if first == [] {
      assert first + second == second;
    } else {
      assert (first + second)[0] == first[0] && (first + second)[1..] == first[1..] + second;
      match first[0]
      case Page(data, next) => AfterAppend(AfterPage(s, data, next), list, first[1..], second);
      case Grow(later) => AfterAppend(s, later, first[1..], second);
    }
  }

  /** Whenever the waits are those of a sweep that began with `pages` and of a list that did not change since,
      they are up to date. */
  lemma SweptAfterRun(s: State, list: seq<Item>, events: seq<Event>, pages: seq<Event>)
    requires Good(s, list) && InReach(s) && IsRun(s, list, events + pages) && NoneOvertakes(s, list, events + pages)
    requires After(s, list, events).0.cursor.None? && PagesOnly(pages) && EndsWithFinalPage(pages)
    ensures var (t, final) := After(s, list, events + pages); Swept(t, final, |final|)
  {
    AfterAppend(s, list, events, pages);
    FinalPageCompletes(s, list, events);
    var (t, later) := After(s, list, events);
    SweptAtStart(t, later);
    SweepBringsUpToDate(t, later, pages);
  }

  /** Read the pages of a run; whatever happens to the list in between is not seen. */
  method Follow(h: ItemHistory, ghost list: seq<Item>, events: seq<Event>)
    requires h.Valid() && IsRun(h.Value(), list, events)
    modifies h
    ensures h.Valid() && h.Value() == After(old(h.Value()), list, events).0
  {
    ghost var now := list;
    var i := 0;
    while i < |events|
      invariant 0 <= i <= |events| && h.Valid() && IsRun(h.Value(), now, events[i..])
      invariant After(old(h.Value()), list, events) == After(h.Value(), now, events[i..])
    {
      assert events[i..][0] == events[i] && events[i..][1..] == events[i + 1..];
      if events[i].Page? {
        var _ := h.ReadPage(events[i].data, events[i].next);
      } else {
        now := events[i].later;
      }
      i := i + 1;
    }
  }

  /** The sweep starts from the anchor, and the list does not change during it. */
  ghost predicate CleanSweep(s: State, list: seq<Item>, events: seq<Event>, sweep: seq<Event>) {
    After(s, list, events).0.cursor.None? && PagesOnly(sweep) && EndsWithFinalPage(sweep)
  }

  /** Read the pages of a run, and report: as long as no page folds past its cursor, what is reported right
      after a final page is known and is what counting all items of the turn directly gives; and so are the waits,
      when a whole sweep of an unchanged list came last. */
  method Report(h: ItemHistory, ghost list: seq<Item>, events: seq<Event>, sweep: seq<Event>)
    returns (counts: Counts, waiting: set<string>, known: bool)
    requires h.Valid() && Good(h.Value(), list) && InReach(h.Value()) && IsRun(h.Value(), list, events + sweep)
    modifies h
    ensures h.Valid() && h.Value() == After(old(h.Value()), list, events + sweep).0
    ensures known && EndsWithFinalPage(events + sweep) && InReachWhenTaken(old(h.Value()), list, events + sweep) ==>
              counts == Sum(After(old(h.Value()), list, events + sweep).1)
    ensures NoneOvertakes(old(h.Value()), list, events + sweep) && EndsWithFinalPage(events + sweep) ==>
              known && counts == Sum(After(old(h.Value()), list, events + sweep).1)
    ensures NoneOvertakes(old(h.Value()), list, events + sweep) && CleanSweep(old(h.Value()), list, events, sweep) ==>
              waiting == Waiting(After(old(h.Value()), list, events + sweep).1)
  {
    ghost var s := h.Value();
    Follow(h, list, events + sweep);
    counts, waiting, known := h.Metadata();
    if known && EndsWithFinalPage(events + sweep) && InReachWhenTaken(s, list, events + sweep) {
      FinalPageCovers(s, list, events + sweep);
    }
    if NoneOvertakes(s, list, events + sweep) {
      FinalPageCompletes(s, list, events + sweep);
      if CleanSweep(s, list, events, sweep) {
        SweptAfterRun(s, list, events, sweep);
        assert (events + sweep)[|events + sweep| - 1] == sweep[|sweep| - 1];
      }
    }
  }

  // ---------------------------------------------------------------------------------------------
  // What happens once a page is out of reach

  /** The server fills its pages. */
  predicate FullPage(list: seq<Item>, from: nat, data: seq<Item>) {
    from <= |list| && |data| == if |list| - from < PageLimit then |list| - from else PageLimit
  }

  ghost predicate FullPages(s: State, list: seq<Item>, events: seq<Event>)
    decreases |events|
  {
    events == []
    || match events[0]
       case Page(data, next) => FullPage(list, From(s, list), data)
         && FullPages(AfterPage(s, data, next), list, events[1..])
       case Grow(later) => FullPages(s, later, events[1..])
  }

  /** When the anchor is within a full page of the cursor, every later read is refused: nothing ever changes again, and
      the counts never become known. */
  lemma {:induction false} RefusedForGood(s: State, list: seq<Item>, events: seq<Event>)
    requires Good(s, list) && !InReach(s) && |s.folded| <= s.cursor.value + PageLimit
    requires IsRun(s, list, events) && FullPages(s, list, events)
    ensures After(s, list, events).0 == s && s.cursor.Some?
    decreases |events|
  {
    if events != [] {
      match events[0]
      case Page(data, next) =>
        AcceptedExactlyBeforeAnchor(s, list, data, next);
        RefusedForGood(s, list, events[1..]);
      case Grow(later) =>
        GrowthKeeps(s, list, later);
        RefusedForGood(s, later, events[1..]);
    }
  }

  const Slow := Item("slow", Tool, true, "")
  const Done := Item("slow", Tool, false, "")
  const Note := Item("note", AgentMessage, false, "")
  const Last := Item("last", AgentMessage, false, "")

  const Running := [Slow, Note, Last]
  const Ended := [Done, Note, Last]

  function AfterFirstSweep(): State { Step(Step(Step(Initial, [Slow], Some(1)), [Note], Some(2)), [Last], None) }

  lemma FirstSweep()
    ensures AfterFirstSweep() == State([], [Slow, Note, Last], None, true, {})
  {
    var s1 := Step(Initial, [Slow], Some(1));
    MergeOne([], Slow);
    assert s1 == State([], [Slow], Some(1), false, {1});
    var s2 := Step(s1, [Note], Some(2));
    MergeOne([Slow], Note);
    assert s2 == State([], [Slow, Note], Some(2), false, {1, 2});
    MergeOne([Slow, Note], Last);
    assert Step(s2, [Last], None) == State([], [Slow, Note, Last], None, true, {});
  }

  lemma MergeOne(tail: seq<Item>, item: Item)
    ensures Merge(tail, [item]) == Put(tail, Projection(item))
  {
    assert [item][..0] == [] && Merge(tail, []) == tail;
  }

  lemma SecondSweep(s: State)
    requires s == State([], [Slow, Note, Last], None, true, {})
    ensures Step(s, [Done], Some(1)) == State([Done, Note, Last], [], Some(1), true, {1})
  {
    MergeOne(s.tail, Done);
    assert Put(s.tail, Done) == [Done, Note, Last];
    assert Settled([Last]) == 1 && Settled([Note, Last])
      == 2 by { assert [Note, Last][1..] == [Last] && [Last][1..] == []; }
    assert [Done, Note, Last][1..] == [Note, Last];
  }

  lemma RunningIsGood(s: State)
    requires s == State([], [Slow, Note, Last], None, true, {})
    ensures Good(s, Running)
  {
    assert Ledger(s) == Running;
  }

  lemma EndedIsUnique()
    ensures Identified(Ended) && Grows(Running, Ended)
  {
  }

  const Behind := State([Done, Note, Last], [], Some(1), true, {1})

  /** A turn whose first item is slow: three items are read, one to a page; then the slow one settles, and reading its
      page again folds all three while the cursor stays behind them. */
  lemma SlowItemLeavesCursorBehind()
    ensures var s := AfterFirstSweep();
            && Good(s, Running) && s.loaded && Grows(Running, Ended)
            && LegalPage(Ended, From(s, Ended), [Done], Some(1)) && Accepts(s, [Done], Some(1))
            && Step(s, [Done], Some(1)) == Behind
            && Good(Behind, Ended) && !InReach(Behind) && ExactlyOnce(Behind, Ended)
  {
    FirstSweep();
    var s := AfterFirstSweep();
    RunningIsGood(s);
    SecondSweep(s);
    EndedIsUnique();
    GrowthKeeps(s, Running, Ended);
    ReadKeeps(s, Ended, [Done], Some(1));
  }

  /** From there, a page that holds the anchor is legal and refused: nothing changes. */
  lemma NextFullPageIsRefused()
    ensures LegalPage(Ended, From(Behind, Ended), [Note, Last], None) && !Accepts(Behind, [Note, Last], None)
  {
    assert [Note, Last][1].id == Anchor(Behind);
  }

  lemma TwoMessages(items: seq<Item>, a: Item, b: Item)
    requires a.kind == b.kind == AgentMessage
    ensures Sum(items + [a] + [b]).messages == Sum(items).messages + 2
  {
    SumSnoc(items, a);
    SumSnoc(items + [a], b);
  }

  lemma NoItems(items: seq<Item>)
    requires items == []
    ensures Sum(items) == NoCounts
  {
  }

  lemma RepeatedMessages(a: Item, b: Item, c: Item)
    requires b.kind == c.kind == AgentMessage
    ensures Sum([a, b, c, b, c]).messages == Sum([a, b, c]).messages + 2
  {
    TwoMessages([a, b, c], b, c);
    assert [a, b, c, b, c] == [a, b, c] + [b] + [c];
  }

  /** And shorter pages are legal and accepted, and end with counts that are known and wrong: two messages
      more than there are. */
  lemma ShortPagesMakeKnownCountsWrong()
    ensures var u := Step(Behind, [Note], Some(2));
            var w := Step(u, [Last], None);
            && LegalPage(Ended, From(Behind, Ended), [Note], Some(2)) && Accepts(Behind, [Note], Some(2))
            && LegalPage(Ended, From(u, Ended), [Last], None) && Accepts(u, [Last], None)
            && w.loaded && w.cursor.None? && Plus(Sum(w.folded), Sum(w.tail)).messages == Sum(Ended).messages + 2
  {
    MergeOne([], Note);
    MergeOne([], Last);
    assert Settled([Note]) == 1 by { assert [Note][1..] == []; }
    assert Settled([Last]) == 1 by { assert [Last][1..] == []; }
    var u := Step(Behind, [Note], Some(2));
    assert u == State([Done, Note, Last, Note], [], Some(2), true, {1, 2});
    assert Step(u, [Last], None) == State([Done, Note, Last, Note, Last], [], None, true, {});
    NoItems(Step(u, [Last], None).tail);
    RepeatedMessages(Done, Note, Last);
  }
}
