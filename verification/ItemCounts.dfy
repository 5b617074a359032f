/** Incremental item counts of a turn (codex/activity_history.go:36-124, codex/turn_history.go:91-135): items
    are read a page at a time, settled ones are folded into a prefix of counts, and the tail from the first item
    in progress on is kept to be read again. */
module ItemCounts {
  import opened Prelude

  const PageLimit := 32

  datatype Kind = UserMessage | AgentMessage | OwnAgentCall(wait: bool) | OtherAgentCall | Sleep | Tool | Uncounted

  /** `content` stands for everything that counting does not look at. */
  datatype Item = Item(id: string, kind: Kind, inProgress: bool, content: string)

  function Projection(item: Item): Item { item.(content := "") }

  // ---------------------------------------------------------------------------------------------
  // Counting all items of a turn directly

  datatype Counts = Counts(messages: nat, received: nat, toolCalls: nat, hasSleep: bool)

  const NoCounts := Counts(0, 0, 0, false)

  function CountOf(item: Item): Counts {
    match item.kind
    case UserMessage => NoCounts.(received := 1)
    case AgentMessage => NoCounts.(messages := 1)
    case Sleep => NoCounts.(toolCalls := 1, hasSleep := true)
    case OwnAgentCall(_) => NoCounts.(toolCalls := 1)
    case Tool => NoCounts.(toolCalls := 1)
    case OtherAgentCall => NoCounts
    case Uncounted => NoCounts
  }

  function Plus(a: Counts, b: Counts): Counts {
    Counts(a.messages + b.messages, a.received + b.received, a.toolCalls + b.toolCalls, a.hasSleep || b.hasSleep)
  }

  function Sum(items: seq<Item>): Counts
    decreases |items|
  {
    if items == [] then NoCounts else Plus(Sum(items[..|items| - 1]), CountOf(items[|items| - 1]))
  }

  predicate Waits(item: Item) { item.kind == OwnAgentCall(true) && item.inProgress }

  /** The calls that wait for other agents right now. */
  function Waiting(items: seq<Item>): set<string> { set i | 0 <= i < |items| && Waits(items[i]) :: items[i].id }

  predicate Apart(items: seq<Item>, i: int, j: int) { 0 <= i < j < |items| ==> items[i].id != items[j].id }

  ghost predicate Unique(items: seq<Item>) { forall i, j :: Apart(items, i, j) }

  predicate Named(items: seq<Item>) { forall i :: 0 <= i < |items| ==> items[i].id != "" }

  ghost predicate Identified(items: seq<Item>) { Named(items) && Unique(items) }

  predicate Has(items: seq<Item>, id: string) { exists i :: 0 <= i < |items| && items[i].id == id }

  lemma NotBefore(items: seq<Item>, i: nat)
    requires Unique(items) && i < |items|
    ensures !Has(items[..i], items[i].id)
  {
    forall j | 0 <= j < i ensures items[..i][j].id != items[i].id { assert Apart(items, j, i); }
  }

  lemma HasSnoc(items: seq<Item>, item: Item, x: string)
    requires Has(items, x) || item.id == x
    ensures Has(items + [item], x)
  {
    var all := items + [item];
    if i :| 0 <= i < |items| && items[i].id == x { assert all[i].id == x; } else { assert all[|items|].id == x; }
  }

  /** Counting skips items without an id and repeated ones; a turn has neither. */
  method TurnMetadata(items: seq<Item>) returns (counts: Counts, waiting: set<string>)
    ensures Identified(items) ==> counts == Sum(items) && waiting == Waiting(items)
  {
    counts, waiting := NoCounts, {};
    var seen, i := {}, 0;
    while i < |items|
      invariant 0 <= i <= |items|
      invariant forall x :: x in seen ==> Has(items[..i], x)
      invariant Identified(items) ==> counts == Sum(items[..i]) && waiting == Waiting(items[..i])
    {
      var item := items[i];
      assert items[..i + 1] == items[..i] + [item];
      forall x | x in seen || x == item.id ensures Has(items[..i + 1], x) { HasSnoc(items[..i], item, x); }
      if Unique(items) { NotBefore(items, i); }
      SumSnoc(items[..i], item);
      WaitingSnoc(items[..i], item);
      if item.id != "" && item.id !in seen {
        seen := seen + {item.id};
        counts := Plus(counts, CountOf(item));
        if Waits(item) { waiting := waiting + {item.id}; }
      }
      i := i + 1;
    }
    assert items[..i] == items;
  }

  lemma SumSnoc(items: seq<Item>, item: Item)
    ensures Sum(items + [item]) == Plus(Sum(items), CountOf(item))
  {
    assert (items + [item])[..|items|] == items;
  }

  lemma WaitingSnoc(items: seq<Item>, item: Item)
    ensures Waiting(items + [item]) == Waiting(items) + if Waits(item) then {item.id} else {}
  {
    var all := items + [item];
    forall x | x in Waiting(items) ensures x in Waiting(all) {
      var i :| 0 <= i < |items| && Waits(items[i]) && items[i].id == x;
      assert all[i] == items[i];
    }
    if Waits(item) { assert all[|items|] == item; }
  }

  lemma {:induction false} SumAppend(a: seq<Item>, b: seq<Item>)
    ensures Sum(a + b) == Plus(Sum(a), Sum(b))
    decreases |b|
  {
    if b == [] {
      assert a + b == a;
    } else {
      var init, last := b[..|b| - 1], b[|b| - 1];
      assert b == init + [last] && a + b == (a + init) + [last];
      SumAppend(a, init);
      SumSnoc(init, last);
      SumSnoc(a + init, last);
      PlusAssociates(Sum(a), Sum(init), CountOf(last));
    }
  }

  lemma PlusAssociates(a: Counts, b: Counts, c: Counts)
    ensures Plus(Plus(a, b), c) == Plus(a, Plus(b, c))
  {
  }

  lemma {:induction false} SumSameKinds(a: seq<Item>, b: seq<Item>)
    requires |a| == |b| && forall i :: 0 <= i < |a| ==> a[i].kind == b[i].kind
    ensures Sum(a) == Sum(b)
    decreases |a|
  {
    if a != [] { SumSameKinds(a[..|a| - 1], b[..|b| - 1]); }
  }

  // ---------------------------------------------------------------------------------------------
  // Incremental counting

  /** `folded` are the items whose counts are in the prefix; the last of them is the anchor. */
  datatype State = State(folded: seq<Item>, tail: seq<Item>, cursor: Option<nat>, loaded: bool, cursors: set<nat>)

  const Initial := State([], [], None, false, {})

  function Anchor(s: State): string { if s.folded == [] then "" else s.folded[|s.folded| - 1].id }

  function IndexOf(items: seq<Item>, id: string): (i: nat)
    ensures i <= |items| && (i < |items| ==> items[i].id == id) && forall k :: 0 <= k < i ==> items[k].id != id
  {
    if items == [] || items[0].id == id then 0 else 1 + IndexOf(items[1..], id)
  }

  /** A newer view of an item takes its place; an item not seen before comes last. */
  function Put(tail: seq<Item>, item: Item): seq<Item> {
    var i := IndexOf(tail, item.id);
    if i < |tail| then tail[i := item] else tail + [item]
  }

  function Merge(tail: seq<Item>, data: seq<Item>): seq<Item>
    decreases |data|
  {
    if data == [] then tail else Put(Merge(tail, data[..|data| - 1]), Projection(data[|data| - 1]))
  }

  /** How many items at the front are settled. */
  function Settled(items: seq<Item>): (n: nat)
    ensures n <= |items| && (forall i :: 0 <= i < n ==> !items[i].inProgress) && (n < |items| ==> items[n].inProgress)
  {
    if items == [] || items[0].inProgress then 0 else 1 + Settled(items[1..])
  }

  function Step(s: State, data: seq<Item>, next: Option<nat>): State {
    var tail := Merge(s.tail, data);
    var n := Settled(tail);
    State(s.folded + tail[..n], tail[n..], next, s.loaded
      || next.None?, if next.Some? then s.cursors + {next.value} else {})
  }

  /** What a page must satisfy to be accepted. */
  ghost predicate Accepts(s: State, data: seq<Item>, next: Option<nat>) {
    && |data| <= PageLimit && (next.Some? ==> next != s.cursor && next.value !in s.cursors && data != [])
    && (forall i :: 0 <= i < |data| ==> data[i].id != "" && data[i].id != Anchor(s))
    && Unique(data)
  }

  /** Where a page starts: at the cursor, or right after the anchor. */
  function From(s: State, list: seq<Item>): nat {
    if s.cursor.Some? then s.cursor.value
    else if s.folded == [] then 0
    else var i := IndexOf(list, Anchor(s)); if i < |list| then i + 1 else 0
  }

  /** A legal page: the next items in order; a cursor if there are more, and maybe when there are not. */
  predicate LegalPage(list: seq<Item>, from: nat, data: seq<Item>, next: Option<nat>) {
    && from + |data| <= |list| && |data| <= PageLimit && data == list[from..from + |data|]
    && (from < |list| ==> data != [])
    && (from + |data| < |list| ==> next.Some?) && (next.Some? ==> data != [] && next.value == from + |data|)
  }

  // ---------------------------------------------------------------------------------------------
  // Every item once

  /** A turn's items only grow, and only an item in progress changes, without changing its kind. */
  predicate Grows(before: seq<Item>, after: seq<Item>) {
    |before| <= |after| && forall i :: 0 <= i < |before| ==> View(before[i], after[i])
  }

  /** An item as it was seen, and as it is. */
  predicate View(seen: Item, now: Item) {
    seen.id == now.id && seen.kind == now.kind && (!seen.inProgress ==> Projection(seen) == Projection(now))
  }

  function Ledger(s: State): seq<Item> { s.folded + s.tail }

  /** What was counted is each item seen so far, once and in order. */
  predicate ExactlyOnce(s: State, list: seq<Item>) {
    |Ledger(s)| <= |list| && forall i :: 0 <= i < |Ledger(s)| ==> Ledger(s)[i].id == list[i].id
  }

  predicate ViewAt(s: State, list: seq<Item>, i: int) {
    0 <= i < |Ledger(s)| ==> i < |list| && View(Ledger(s)[i], list[i])
  }

  ghost predicate Good(s: State, list: seq<Item>) {
    && Identified(list) && |Ledger(s)| <= |list| && (forall i :: ViewAt(s, list, i))
    && (forall i :: 0 <= i < |s.folded| ==> !s.folded[i].inProgress)
    && (s.cursor.Some? ==> s.cursor.value <= |Ledger(s)|)
    && (forall c :: c in s.cursors ==> s.cursor.Some? && c <= s.cursor.value)
  }

  /** The place where the next page starts was not folded yet. */
  predicate InReach(s: State) { s.cursor.Some? ==> |s.folded| <= s.cursor.value }

  lemma AnchorPlace(s: State, list: seq<Item>)
    requires Good(s, list) && s.cursor.None?
    ensures From(s, list) == |s.folded|
  {
    if s.folded != [] {
      var k := |s.folded| - 1;
      assert ViewAt(s, list, k) && Ledger(s)[k] == s.folded[k];
      assert Apart(list, IndexOf(list, Anchor(s)), k) && Apart(list, k, IndexOf(list, Anchor(s)));
    }
  }

  /** After merging `n` items from a place on: views from the page there, and the earlier views elsewhere. */
  predicate MergedAt(m: seq<Item>, tail: seq<Item>, base: seq<Item>, at: nat, n: nat, i: int) {
    0 <= i < |m| ==> if at <= i < at + n then i < |base| && m[i] == Projection(base[i])
      else i < |tail| && m[i] == tail[i]
  }

  ghost predicate Merged(m: seq<Item>, tail: seq<Item>, base: seq<Item>, at: nat, n: nat) {
    |m| == (if |tail| < at + n then at + n else |tail|) && forall i :: MergedAt(m, tail, base, at, n, i)
  }

  lemma MergedIds(m: seq<Item>, tail: seq<Item>, base: seq<Item>, at: nat, n: nat)
    requires Merged(m, tail, base, at, n) && |tail| <= |base| && forall i :: 0 <= i < |tail| ==>
             tail[i].id == base[i].id
    requires at + n <= |base|
    ensures forall i :: 0 <= i < |m| ==> m[i].id == base[i].id
  {
    forall i | 0 <= i < |m| ensures m[i].id == base[i].id { assert MergedAt(m, tail, base, at, n, i); }
  }

  lemma MergedPut(m: seq<Item>, tail: seq<Item>, base: seq<Item>, at: nat, n: nat)
    requires Merged(m, tail, base, at, n) && at <= |tail| <= |base| && at + n < |base| && Unique(base)
    requires forall i :: 0 <= i < |tail| ==> tail[i].id == base[i].id
    ensures Merged(Put(m, Projection(base[at + n])), tail, base, at, n + 1)
  {
    MergedIds(m, tail, base, at, n);
    PutPlaces(m, base, at + n);
    var r, more := Put(m, Projection(base[at + n])), n + 1;
    forall i ensures MergedAt(r, tail, base, at, more, i) { assert MergedAt(m, tail, base, at, n, i); }
  }

  /** Merging a page into a tail goes by position. */
  lemma {:induction false} MergePlaces(tail: seq<Item>, base: seq<Item>, at: nat, data: seq<Item>)
    requires at <= |tail| <= |base| && at + |data| <= |base| && Unique(base) && forall k :: 0 <= k < |data| ==>
             data[k] == base[at + k]
    requires forall i :: 0 <= i < |tail| ==> tail[i].id == base[i].id
    ensures Merged(Merge(tail, data), tail, base, at, |data|)
    decreases |data|
  {
    if data != [] {
      var n := |data| - 1;
      MergePlaces(tail, base, at, data[..n]);
      MergedPut(Merge(tail, data[..n]), tail, base, at, n);
      assert data[n] == base[at + n];
    }
  }

  /** The view of an item takes the item's own place. */
  lemma PutPlaces(m: seq<Item>, base: seq<Item>, k: nat)
    requires k <= |m| <= |base| && k < |base| && Unique(base) && forall i :: 0 <= i < |m| ==> m[i].id == base[i].id
    ensures var r := Put(m, Projection(base[k]));
            && |r| == (if k < |m| then |m| else |m| + 1) && forall i :: 0 <= i < |r| ==>
               r[i] == if i == k then Projection(base[k]) else m[i]
  {
    var i := IndexOf(m, base[k].id);
    if k < |m| { assert m[k].id == base[k].id; }
    if i < |m| { assert base[i].id == base[k].id && Apart(base, i, k) && Apart(base, k, i); }
  }

  lemma TailViews(s: State, list: seq<Item>, i: nat)
    requires Good(s, list) && i < |s.tail|
    ensures |s.folded| + i < |list| && View(s.tail[i], list[|s.folded| + i])
  {
    assert ViewAt(s, list, |s.folded| + i) && Ledger(s)[|s.folded| + i] == s.tail[i];
  }

  lemma UniqueFrom(list: seq<Item>, f: nat)
    requires Identified(list) && f <= |list|
    ensures Unique(list[f..])
  {
    var rest := list[f..];
    forall i, j ensures Apart(rest, i, j) { assert Apart(list, f + i, f + j); }
  }

  lemma MergeInList(tail: seq<Item>, list: seq<Item>, f: nat, from: nat, data: seq<Item>)
    requires f <= from <= f + |tail| <= |list| && Unique(list[f..]) && from + |data| <= |list|
    requires forall i :: 0 <= i < |tail| ==> tail[i].id == list[f + i].id
    requires forall k :: 0 <= k < |data| ==> data[k] == list[from + k]
    ensures Merged(Merge(tail, data), tail, list[f..], from - f, |data|)
  {
    var base := list[f..];
    forall i | 0 <= i < |tail| ensures tail[i].id == base[i].id { assert base[i] == list[f + i]; }
    forall k | 0 <= k < |data| ensures data[k] == base[from - f + k] { assert base[from - f + k] == list[from + k]; }
    MergePlaces(tail, base, from - f, data);
  }

  lemma TailIds(s: State, list: seq<Item>)
    requires Good(s, list)
    ensures |s.folded| + |s.tail| <= |list| && forall i :: 0 <= i < |s.tail| ==> s.tail[i].id == list[|s.folded| + i].id
  {
    forall i | 0 <= i < |s.tail| ensures s.tail[i].id == list[|s.folded| + i].id { TailViews(s, list, i); }
  }

  /** The tail after a page: views from the page where the page is, and the earlier views elsewhere. */
  lemma TailPlaces(s: State, list: seq<Item>, from: nat, data: seq<Item>, next: Option<nat>)
    requires Good(s, list) && |s.folded| <= from <= |Ledger(s)| && LegalPage(list, from, data, next)
    ensures var f, m := |s.folded|, Merge(s.tail, data);
            && f + |m| == (if |Ledger(s)| < from + |data| then from + |data| else |Ledger(s)|) <= |list|
            && forall i :: 0 <= i < |m| ==>
               m[i] == if from <= f + i < from + |data| then Projection(list[f + i])
                 else if i < |s.tail| then s.tail[i] else m[i]
  {
    TailIds(s, list);
    UniqueFrom(list, |s.folded|);
    MergeInList(s.tail, list, |s.folded|, from, data);
    PlacesInList(Merge(s.tail, data), s.tail, list, |s.folded|, from, |data|);
  }

  lemma PlacesInList(m: seq<Item>, tail: seq<Item>, list: seq<Item>, f: nat, from: nat, n: nat)
    requires f <= from && f + |m| <= |list| && Merged(m, tail, list[f..], from - f, n)
    ensures forall i :: 0 <= i < |m| ==>
            m[i] == if from <= f + i < from + n then Projection(list[f + i]) else if i < |tail| then tail[i] else m[i]
  {
    var base, at := list[f..], from - f;
    forall i | 0 <= i < |m| ensures m[i] == if from <= f + i < from + n then Projection(list[f + i])
      else if i < |tail| then tail[i] else m[i] {
      assert MergedAt(m, tail, base, at, n, i);
    }
  }

  lemma MergeViews(s: State, list: seq<Item>, from: nat, data: seq<Item>, next: Option<nat>, i: nat)
    requires Good(s, list) && |s.folded| <= from <= |Ledger(s)| && LegalPage(list, from, data, next)
    requires i < |Merge(s.tail, data)|
    ensures |s.folded| + i < |list| && View(Merge(s.tail, data)[i], list[|s.folded| + i])
  {
    TailPlaces(s, list, from, data, next);
    if !(from <= |s.folded| + i < from + |data|) { TailViews(s, list, i); }
  }

  lemma StepLedger(s: State, data: seq<Item>, next: Option<nat>)
    ensures Ledger(Step(s, data, next)) == s.folded + Merge(s.tail, data)
  {
    var tail := Merge(s.tail, data);
    assert tail == tail[..Settled(tail)] + tail[Settled(tail)..];
  }

  lemma StepViews(s: State, list: seq<Item>, from: nat, data: seq<Item>, next: Option<nat>, i: nat)
    requires Good(s, list) && |s.folded| <= from <= |Ledger(s)| && LegalPage(list, from, data, next)
    requires i < |Ledger(Step(s, data, next))|
    ensures i < |list| && View(Ledger(Step(s, data, next))[i], list[i])
  {
    StepLedger(s, data, next);
    if i < |s.folded| {
      assert ViewAt(s, list, i) && Ledger(s)[i] == s.folded[i];
    } else {
      MergeViews(s, list, from, data, next, i - |s.folded|);
    }
  }

  lemma StepGood(s: State, list: seq<Item>, from: nat, data: seq<Item>, next: Option<nat>)
    requires Good(s, list) && |s.folded| <= from <= |Ledger(s)| && LegalPage(list, from, data, next)
    requires (s.cursor.Some? ==> from == s.cursor.value)
    requires |Ledger(Step(s, data, next))| <= |list| && from + |data| <= |Ledger(Step(s, data, next))|
    ensures Good(Step(s, data, next), list)
  {
    var t := Step(s, data, next);
    forall i ensures ViewAt(t, list, i) { if 0 <= i < |Ledger(t)| { StepViews(s, list, from, data, next, i); } }
  }

  /** Reading a page from a place that was not folded yet counts every item seen so far exactly once. */
  lemma ReadKeeps(s: State, list: seq<Item>, data: seq<Item>, next: Option<nat>)
    requires Good(s, list) && InReach(s) && LegalPage(list, From(s, list), data, next)
    ensures Accepts(s, data, next)
    ensures var t := Step(s, data, next);
            Good(t, list) && ExactlyOnce(t, list) && |Ledger(t)| >= |Ledger(s)|
              && (next.None? ==> |Ledger(t)| == |list|)
  {
    if s.cursor.None? { AnchorPlace(s, list); }
    var from := From(s, list);
    TailPlaces(s, list, from, data, next);
    StepLedger(s, data, next);
    AcceptsLegal(s, list, from, data, next);
    StepGood(s, list, from, data, next);
    ViewsAreOnce(Step(s, data, next), list);
  }

  lemma ViewsAreOnce(s: State, list: seq<Item>)
    requires Good(s, list)
    ensures ExactlyOnce(s, list)
  {
    forall i | 0 <= i < |Ledger(s)| ensures Ledger(s)[i].id == list[i].id { assert ViewAt(s, list, i); }
  }

  lemma AcceptsLegal(s: State, list: seq<Item>, from: nat, data: seq<Item>, next: Option<nat>)
    requires Good(s, list) && |s.folded| <= from && (s.cursor.Some? ==> from == s.cursor.value)
    requires LegalPage(list, from, data, next)
    ensures Accepts(s, data, next)
  {
    if s.folded != [] {
      assert ViewAt(s, list, |s.folded| - 1) && Ledger(s)[|s.folded| - 1] == s.folded[|s.folded| - 1];
    }
    forall i | 0 <= i < |data| ensures data[i].id != "" && data[i].id != Anchor(s) {
      assert data[i] == list[from + i] && Apart(list, |s.folded| - 1, from + i);
    }
    forall i, j ensures Apart(data, i, j) { assert Apart(list, from + i, from + j); }
  }

  /** The list may grow and items may settle between pages. */
  lemma GrowthKeeps(s: State, list: seq<Item>, later: seq<Item>)
    requires Good(s, list) && Grows(list, later) && Identified(later)
    ensures Good(s, later)
  {
    forall i ensures ViewAt(s, later, i) { assert ViewAt(s, list, i); }
  }

  /** Every item of the list was seen, and counted once. */
  ghost predicate Complete(s: State, list: seq<Item>) { Good(s, list) && |Ledger(s)| == |list| }

  /** Then the counts of the prefix and of the tail are those of all items. */
  lemma CountsAreComplete(s: State, list: seq<Item>)
    requires Complete(s, list)
    ensures Plus(Sum(s.folded), Sum(s.tail)) == Sum(list)
  {
    SumAppend(s.folded, s.tail);
    forall i | 0 <= i < |list| ensures Ledger(s)[i].kind == list[i].kind { assert ViewAt(s, list, i); }
    SumSameKinds(Ledger(s), list);
  }

  // ---------------------------------------------------------------------------------------------
  // When the next page gets out of reach

  /** The fold passes the cursor: the tail reaches beyond the page, and everything in it up to the cursor and at it has
      settled. */
  predicate Overtakes(s: State, data: seq<Item>, next: Option<nat>) {
    next.Some? && |s.folded| <= next.value &&
    var m, k := Merge(s.tail, data), next.value - |s.folded|;
    k < |m| && forall i :: 0 <= i <= k ==> !m[i].inProgress
  }

  /** How the next page gets out of reach. */
  lemma FoldOvertakes(s: State, list: seq<Item>, data: seq<Item>, next: Option<nat>)
    requires Good(s, list) && InReach(s) && LegalPage(list, From(s, list), data, next)
    ensures !InReach(Step(s, data, next)) <==> Overtakes(s, data, next)
  {
    if s.cursor.None? { AnchorPlace(s, list); }
    TailPlaces(s, list, From(s, list), data, next);
  }

  // ---------------------------------------------------------------------------------------------
  // Waits for other agents

  /** The views up to a place are those of the present list. */
  ghost predicate Swept(s: State, list: seq<Item>, upto: nat) {
    |Ledger(s)| <= |list| && forall i :: SweptAt(s, list, upto, i)
  }

  predicate SweptAt(s: State, list: seq<Item>, upto: nat, i: int) {
    |s.folded| <= i < upto && i < |Ledger(s)| ==> i < |list| && Ledger(s)[i] == Projection(list[i])
  }

  lemma MergeSwept(s: State, list: seq<Item>, from: nat, data: seq<Item>, next: Option<nat>, i: nat)
    requires Good(s, list) && |s.folded| <= from <= |Ledger(s)| && LegalPage(list, from, data, next)
    requires Swept(s, list, from)
    requires i < |Merge(s.tail, data)| && |s.folded| + i < from + |data|
    ensures |s.folded| + i < |list| && Merge(s.tail, data)[i] == Projection(list[|s.folded| + i])
  {
    TailPlaces(s, list, from, data, next);
    if |s.folded| + i < from {
      assert SweptAt(s, list, from, |s.folded| + i) && Ledger(s)[|s.folded| + i] == s.tail[i];
    }
  }

  lemma StepSwept(s: State, list: seq<Item>, from: nat, data: seq<Item>, next: Option<nat>, i: int)
    requires Good(s, list) && |s.folded| <= from <= |Ledger(s)| && LegalPage(list, from, data, next)
    requires Swept(s, list, from)
    ensures SweptAt(Step(s, data, next), list, from + |data|, i)
  {
    StepLedger(s, data, next);
    var t := Step(s, data, next);
    if |t.folded| <= i < from + |data| && i < |Ledger(t)| { MergeSwept(s, list, from, data, next, i - |s.folded|); }
  }

  /** While the list does not change, a sweep from the anchor brings the views up to date, page by page. */
  lemma SweepAdvances(s: State, list: seq<Item>, data: seq<Item>, next: Option<nat>)
    requires Good(s, list) && InReach(s) && LegalPage(list, From(s, list), data, next) && Swept(s, list, From(s, list))
    ensures Swept(Step(s, data, next), list, From(s, list) + |data|)
  {
    if s.cursor.None? { AnchorPlace(s, list); }
    ReadKeeps(s, list, data, next);
    var t, upto := Step(s, data, next), From(s, list) + |data|;
    forall i ensures SweptAt(t, list, upto, i) { StepSwept(s, list, From(s, list), data, next, i); }
  }

  /** After a complete sweep of a list that did not change, the waits of the tail are those of the turn. */
  lemma WaitsAreComplete(s: State, list: seq<Item>)
    requires Complete(s, list) && Swept(s, list, |list|)
    ensures Waiting(s.tail) == Waiting(list)
  {
    var f := |s.folded|;
    forall i | 0 <= i < |s.tail| ensures s.tail[i] == Projection(list[f + i]) {
      assert SweptAt(s, list, |list|, f + i) && Ledger(s)[f + i] == s.tail[i];
    }
    forall i | 0 <= i < f ensures !list[i].inProgress { assert Ledger(s)[i] == s.folded[i] && ViewAt(s, list, i); }
    forall x | x in Waiting(list) ensures x in Waiting(s.tail) {
      var i :| 0 <= i < |list| && Waits(list[i]) && list[i].id == x;
      assert s.tail[i - f] == Projection(list[i]);
    }
    forall x | x in Waiting(s.tail) ensures x in Waiting(list) {
      var i :| 0 <= i < |s.tail| && Waits(s.tail[i]) && s.tail[i].id == x;
      assert Waits(list[f + i]);
    }
  }

  // ---------------------------------------------------------------------------------------------
  // The history of a turn's items

  class ItemHistory {
    var prefix: Counts
    var anchor: string
    var tail: seq<Item>
    var cursor: Option<nat>
    var loaded: bool
    var cursors: set<nat>
    ghost var folded: seq<Item>

    ghost function Value(): State
      reads this
    {
      State(folded, tail, cursor, loaded, cursors)
    }

    ghost predicate Valid()
      reads this
    {
      prefix == Sum(folded) && anchor == Anchor(Value())
    }

    constructor ()
      ensures Valid() && Value() == Initial
    {
      prefix, anchor, tail, cursor, loaded, cursors, folded := NoCounts, "", [], None, false, {}, [];
    }

    method Validate(data: seq<Item>, next: Option<nat>) returns (ok: bool)
      requires Valid()
      ensures ok == Accepts(Value(), data, next)
    {
      if |data| > PageLimit { return false; }
      if next.Some? && (next == cursor || next.value in cursors || data == []) { return false; }
      var seen, i := {}, 0;
      while i < |data|
        invariant 0 <= i <= |data|
        invariant forall x :: x in seen <==> Has(data[..i], x)
        invariant forall k :: 0 <= k < i ==> data[k].id != "" && data[k].id != anchor
        invariant forall j, k :: k < i ==> Apart(data, j, k)
      {
        if data[i].id == "" || data[i].id in seen || data[i].id == anchor {
          if Unique(data) { NotBefore(data, i); }
          return false;
        }
        forall j ensures Apart(data, j, i) { assert 0 <= j < i ==> data[..i][j].id == data[j].id; }
        assert data[..i + 1] == data[..i] + [data[i]];
        forall x ensures Has(data[..i + 1], x) <==> Has(data[..i], x) || x == data[i].id {
          HasEither(data[..i], data[i], x);
        }
        seen := seen + {data[i].id};
        i := i + 1;
      }
      return true;
    }

    /** Replace what was seen before by its newer view. */
    method TakeIn(data: seq<Item>)
      modifies this`tail
      ensures tail == Merge(old(tail), data)
    {
      var i := 0;
      while i < |data|
        invariant 0 <= i <= |data| && tail == Merge(old(tail), data[..i])
      {
        assert data[..i + 1][..i] == data[..i];
        tail := Put(tail, Projection(data[i]));
        i := i + 1;
      }
      assert data[..i] == data;
    }

    /** Take in a page of items: replace what was seen before, fold what has settled, and go on from the next
        cursor.  A page that is not acceptable changes nothing. */
    method ReadPage(data: seq<Item>, next: Option<nat>) returns (ok: bool)
      requires Valid()
      modifies this
      ensures Valid() && ok == Accepts(old(Value()), data, next)
      ensures Value() == if ok then Step(old(Value()), data, next) else old(Value())
    {
      ok := Validate(data, next);
      if ok { Commit(data, next); }
    }

    method Commit(data: seq<Item>, next: Option<nat>)
      requires Valid()
      modifies this
      ensures Valid() && Value() == Step(old(Value()), data, next)
    {
      TakeIn(data);
      Fold();
      cursor := next;
      if next.Some? { cursors := cursors + {next.value}; } else { loaded, cursors := true, {}; }
    }

    /** Fold the first item of the tail. */
    method FoldFirst()
      requires Valid() && tail != []
      modifies this`prefix, this`anchor, this`tail, this`folded
      ensures Valid() && folded == old(folded) + [old(tail)[0]] && tail == old(tail)[1..]
    {
      SumSnoc(folded, tail[0]);
      prefix, anchor := Plus(prefix, CountOf(tail[0])), tail[0].id;
      folded := folded + [tail[0]];
      tail := tail[1..];
    }

    /** Move the settled items at the front of the tail into the prefix. */
    method Fold()
      requires Valid()
      modifies this`prefix, this`anchor, this`tail, this`folded
      ensures Valid() && folded == old(folded) + old(tail)[..Settled(old(tail))]
      ensures tail == old(tail)[Settled(old(tail))..]
    {
      ghost var n := 0;
      while |tail| > 0 && !tail[0].inProgress
        invariant 0 <= n <= |old(tail)| && Valid() && tail == old(tail)[n..] && folded == old(folded) + old(tail)[..n]
        invariant Settled(old(tail)) == n + Settled(tail)
        decreases |tail|
      {
        FoldedOne(old(folded), old(tail), n);
        FoldFirst();
        n := n + 1;
      }
    }

    /** The counts of the turn as far as they are known: those of all its items when every item was seen, and the
        waits of all its items when a sweep brought the tail up to date. */
    method Metadata() returns (counts: Counts, waiting: set<string>, known: bool)
      requires Valid()
      ensures known == (loaded && cursor.None?)
      ensures Identified(tail) ==> counts == Plus(Sum(folded), Sum(tail)) && waiting == Waiting(tail)
      ensures forall list :: Complete(Value(), list) ==> counts == Sum(list)
      ensures forall list :: Complete(Value(), list) && Swept(Value(), list, |list|) ==> waiting == Waiting(list)
    {
      var recent;
      recent, waiting := TurnMetadata(tail);
      counts, known := Plus(prefix, recent), loaded && cursor.None?;
      forall list | Complete(Value(), list)
        ensures counts == Sum(list) && (Swept(Value(), list, |list|) ==> waiting == Waiting(list))
      {
        TailIdentified(Value(), list);
        CountsAreComplete(Value(), list);
        if Swept(Value(), list, |list|) { WaitsAreComplete(Value(), list); }
      }
    }
  }

  lemma TailIdentified(s: State, list: seq<Item>)
    requires Good(s, list)
    ensures Identified(s.tail)
  {
    TailIds(s, list);
    var f, tail := |s.folded|, s.tail;
    forall i, j ensures Apart(tail, i, j) { assert Apart(list, f + i, f + j); }
  }

  lemma FoldedOne(folded: seq<Item>, all: seq<Item>, n: nat)
    requires n < |all| && !all[n].inProgress
    ensures all[n..][1..] == all[n + 1..] && (folded + all[..n]) + [all[n]] == folded + all[..n + 1]
    ensures Settled(all[n..]) == 1 + Settled(all[n + 1..])
  {
    assert all[n..][1..] == all[n + 1..];
  }

  lemma HasEither(items: seq<Item>, item: Item, x: string)
    ensures Has(items + [item], x) <==> Has(items, x) || x == item.id
  {
    var all := items + [item];
    if Has(items, x) || item.id == x { HasSnoc(items, item, x); }
    if k :| 0 <= k < |all| && all[k].id == x { assert k < |items| ==> items[k].id == x; }
  }
}
