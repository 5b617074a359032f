/** Transcript paging (codex/thread_page.go:308-437): turns and items are listed newest first, in pages whose sizes the
    server chooses, and a continuation says where the next older page starts. */
module ThreadPages {
  import opened Prelude

  const PageSize := 100

  /** An item that has nothing to show, such as a reasoning item without a summary, has no entry. */
  datatype Item = Item(id: string, entry: Option<string>)

  /** A turn, its items oldest first, and the text of its failure if it failed. */
  datatype Turn = Turn(id: string, failure: Option<string>, items: seq<Item>)

  datatype Entry = ItemEntry(turn: string, item: string, text: string) | FailureEntry(turn: string, text: string)

  // ---------------------------------------------------------------------------------------------
  // The transcript

  function ItemEntries(turn: Turn, items: seq<Item>): seq<Entry>
    decreases |items|
  {
    if items == [] then [] else
    var item := items[|items| - 1];
    ItemEntries(turn, items[..|items| - 1]) + if item.entry.Some? then [ItemEntry(turn.id, item.id, item.entry.value)]
      else []
  }

  function FailureEntries(turn: Turn): seq<Entry> {
    if turn.failure.Some? then [FailureEntry(turn.id, turn.failure.value)] else []
  }

  /** Every turn in order: the entries of its items, then its failure. */
  function Transcript(history: seq<Turn>): seq<Entry>
    decreases |history|
  {
    if history == [] then [] else
    var turn := history[|history| - 1];
    Transcript(history[..|history| - 1]) + (ItemEntries(turn, turn.items) + FailureEntries(turn))
  }

  /** The entry is that of an item that has something to show. */
  predicate ShowsItem(turn: Turn, items: seq<Item>, e: Entry) {
    exists j ::
      0 <= j < |items| && items[j].entry.Some? && e == ItemEntry(turn.id, items[j].id, items[j].entry.value)
  }

  /** The entry is that of an item of the turn, or of its failure. */
  predicate Shows(turn: Turn, e: Entry) {
    ShowsItem(turn, turn.items, e) || (turn.failure.Some? && e == FailureEntry(turn.id, turn.failure.value))
  }

  function VisibleCount(items: seq<Item>): nat
    decreases |items|
  {
    if items == [] then 0 else VisibleCount(items[..|items| - 1]) + if items[|items| - 1].entry.Some? then 1 else 0
  }

  lemma {:induction false} ItemEntriesExactly(turn: Turn, items: seq<Item>, e: Entry)
    ensures e in ItemEntries(turn, items) <==> ShowsItem(turn, items, e)
    ensures |ItemEntries(turn, items)| == VisibleCount(items)
    decreases |items|
  {
    if items != [] {
      var init := items[..|items| - 1];
      ItemEntriesExactly(turn, init, e);
      assert forall j :: 0 <= j < |init| ==> init[j] == items[j];
    }
  }

  /** The entries of the last turn come last: as many as it has items to show, and its failure after them. */
  lemma LastTurnLast(history: seq<Turn>, e: Entry)
    requires history != []
    ensures var init, turn := Transcript(history[..|history| - 1]), history[|history| - 1];
            var all := Transcript(history);
            && init <= all && |all| == |init| + VisibleCount(turn.items) + (if turn.failure.Some? then 1 else 0)
            && (turn.failure.Some? ==> all[|all| - 1] == FailureEntry(turn.id, turn.failure.value))
            && (e in all <==> e in init || Shows(turn, e))
  {
    var turn := history[|history| - 1];
    ItemEntriesExactly(turn, turn.items, e);
  }

  predicate ShownIn(history: seq<Turn>, e: Entry) { exists i :: 0 <= i < |history| && Shows(history[i], e) }

  lemma ShownInLonger(history: seq<Turn>, e: Entry)
    requires history != []
    ensures ShownIn(history, e) <==> ShownIn(history[..|history| - 1], e) || Shows(history[|history| - 1], e)
  {
    var init := history[..|history| - 1];
    assert forall i :: 0 <= i < |init| ==> init[i] == history[i];
  }

  /** The transcript shows exactly the items of its turns that have something to show, and their failures. */
  lemma {:induction false} TranscriptShowsExactly(history: seq<Turn>, e: Entry)
    ensures e in Transcript(history) <==> ShownIn(history, e)
    decreases |history|
  {
    if history != [] {
      TranscriptShowsExactly(history[..|history| - 1], e);
      LastTurnLast(history, e);
      ShownInLonger(history, e);
    }
  }

  /** Turn ids are distinct, and so are the item ids of a turn. */
  predicate WellFormed(history: seq<Turn>) {
    && (forall i :: 0 <= i < |history| ==> history[i].id != "")
    && (forall i, j :: 0 <= i < j < |history| ==> history[i].id != history[j].id)
    && (forall i, j :: 0 <= i < |history| && 0 <= j < |history[i].items| ==> history[i].items[j].id != "")
    && (forall i, j, k :: 0 <= i < |history| && 0 <= j < k < |history[i].items| ==>
          history[i].items[j].id != history[i].items[k].id)
  }

  // ---------------------------------------------------------------------------------------------
  // The server

  function Reversed<T>(s: seq<T>): (r: seq<T>)
    ensures |r| == |s|
  {
    seq(|s|, i requires 0 <= i < |s| => s[|s| - 1 - i])
  }

  function Offset(cursor: Option<nat>): nat { if cursor.Some? then cursor.value else 0 }

  /** A listing goes from the newest to the oldest. */
  ghost predicate ListedFrom<T>(all: seq<T>, at: nat, data: seq<T>, i: int) {
    0 <= i < |data| ==> at + i < |all| && data[i] == all[|all| - 1 - at - i]
  }

  /** A legal page of a listing, newest first: it makes progress while there is more, keeps to the limit, and
      has a cursor if there is more; it may have one when there is not, and then the next page is empty. */
  ghost predicate LegalPage<T>(all: seq<T>, cursor: Option<nat>, limit: nat, data: seq<T>, next: Option<nat>) {
    var at := Offset(cursor);
    && at <= |all| && |data| <= limit && at + |data| <= |all|
    && (forall i :: ListedFrom(all, at, data, i))
    && (at < |all| ==> data != [])
    && (at + |data| < |all| ==> next.Some?)
    && (next.Some? ==> data != [] && next.value == at + |data|)
  }

  method List<T>(all: seq<T>, cursor: Option<nat>, limit: nat) returns (data: seq<T>, next: Option<nat>)
    requires Offset(cursor) <= |all| && limit > 0
    ensures LegalPage(all, cursor, limit, data, next)
  {
    var at := Offset(cursor);
    var size: nat :| size <= limit && at + size <= |all| && (at < |all| ==> size > 0);
    data := Reversed(all)[at..at + size];
    var lazy: bool :| true;
    next := if size > 0 && (lazy || at + size < |all|) then Some(at + size) else None;
  }

  // ---------------------------------------------------------------------------------------------
  // Continuations

  /** Where the listing of turns stands: the turns last listed, and which of them is next. */
  datatype Listing = Listing(turns: Option<seq<Turn>>, index: nat, cursor: Option<nat>, lastCursor: Option<nat>,
    lastTurn: string)

  /** Where the listing of the items of that turn stands. */
  datatype Place = Place(cursor: Option<nat>, lastCursor: Option<nat>, lastItem: string, errorEmitted: bool)

  datatype Continuation = Continuation(listing: Listing, place: Place)

  const NewTurn := Place(None, None, "", false)

  const First := Continuation(Listing(None, 0, None, None, ""), NewTurn)

  function Batch(l: Listing): seq<Turn> { if l.turns.Some? then l.turns.value else [] }

  predicate HasOlder(s: Continuation) {
    s.place.cursor.Some? || s.listing.index < |Batch(s.listing)| || s.listing.cursor.Some?
  }

  /** What a page of turns must satisfy to be accepted. */
  predicate AcceptableTurns(l: Listing, data: seq<Turn>, next: Option<nat>, limit: nat) {
    && |data| <= limit && (next.Some? ==> data != [] && next != l.cursor && next != l.lastCursor)
    && (forall i :: 0 <= i < |data| ==> data[i].id != l.lastTurn)
    && (forall i, j :: 0 <= i < j < |data| ==> data[i].id != data[j].id)
  }

  predicate AcceptableItems(p: Place, turn: string, seen: set<(string, string)>, data: seq<Item>, next: Option<nat>,
    limit: nat) {
    && |data| <= limit && (next.Some? ==> data != [] && next != p.cursor && next != p.lastCursor)
    && (forall i :: 0 <= i < |data| ==> data[i].id != "" && (turn, data[i].id) !in seen)
    && (data != [] ==> data[0].id != p.lastItem)
    && (forall i, j :: 0 <= i < j < |data| ==> data[i].id != data[j].id)
  }

  ghost predicate BatchFrom(h: seq<Turn>, l: Listing, past: nat, i: int) {
    l.index <= past && ListedFrom(h, past - l.index, Batch(l), i)
  }

  /** The listing stands after `past` turns, the newest ones, and the turns in its batch follow. */
  ghost predicate ListedAt(h: seq<Turn>, l: Listing, past: nat) {
    && l.index <= |Batch(l)| && l.index <= past && past - l.index + |Batch(l)| <= |h|
    && (forall i :: BatchFrom(h, l, past, i))
    && (l.turns.None? ==> past == 0 && l.cursor.None?)
    && (l.turns.Some? && l.cursor.None? ==> past - l.index + |Batch(l)| == |h|)
    && (l.cursor.Some? ==> 0 < l.cursor.value == past - l.index + |Batch(l)|)
    && (l.lastCursor.Some? ==> l.lastCursor.value <= past - l.index)
    && l.lastTurn == (if past == 0 then "" else h[|h| - past].id)
  }

  function Newest(h: seq<Turn>, past: nat): Turn
    requires past < |h|
  {
    h[|h| - 1 - past]
  }

  predicate PlacedAt(items: seq<Item>, p: Place) {
    && (p.cursor.Some? ==> p.errorEmitted && 0 < p.cursor.value <= |items|)
    && (p.lastCursor.Some? ==> p.cursor.Some? && p.lastCursor.value < p.cursor.value)
    && p.lastItem == (if p.cursor.Some? then items[|items| - p.cursor.value].id else "")
  }

  ghost predicate At(h: seq<Turn>, s: Continuation, past: nat) {
    && ListedAt(h, s.listing, past) && past <= |h|
    && (if s.listing.index < |Batch(s.listing)| then past < |h|
          && PlacedAt(Newest(h, past).items, s.place) else s.place == NewTurn)
  }

  /** The part of the transcript that is older than a place. */
  function Older(h: seq<Turn>, past: nat, p: Place): seq<Entry>
    requires past <= |h| && (p.errorEmitted ==> past < |h| && Offset(p.cursor) <= |Newest(h, past).items|)
  {
    if !p.errorEmitted then Transcript(h[..|h| - past]) else
    var turn := Newest(h, past);
    Transcript(h[..|h| - 1 - past]) + ItemEntries(turn, turn.items[..|turn.items| - Offset(p.cursor)])
  }

  ghost function OlderThan(h: seq<Turn>, s: Continuation, past: nat): seq<Entry>
    requires At(h, s, past)
  {
    Older(h, past, s.place)
  }

  /** What is left to visit: every turn once, and every item of it. */
  function Weight(history: seq<Turn>): nat
    decreases |history|
  {
    if history == [] then 0 else Weight(history[..|history| - 1]) + 1 + |history[|history| - 1].items|
  }

  function Left(h: seq<Turn>, past: nat, p: Place): int
    requires past <= |h|
  {
    Weight(h[..|h| - past]) - Offset(p.cursor)
  }

  /** Nothing that is still to come was seen on this page. */
  predicate Unseen(h: seq<Turn>, past: nat, offset: nat, seen: set<(string, string)>)
    requires past <= |h|
  {
    forall k, j :: 0 <= k < |h| - past && 0 <= j < |h[k].items| - (if k == |h| - past - 1 then offset else 0) ==>
      (h[k].id, h[k].items[j].id) !in seen
  }

  // ---------------------------------------------------------------------------------------------
  // Lemmas

  lemma ReversedAppend<T>(a: seq<T>, b: seq<T>)
    ensures Reversed(a + b) == Reversed(b) + Reversed(a)
  {
  }

  lemma {:induction false} ItemEntriesAppend(turn: Turn, a: seq<Item>, b: seq<Item>)
    ensures ItemEntries(turn, a + b) == ItemEntries(turn, a) + ItemEntries(turn, b)
    decreases |b|
  {
    if b == [] {
      assert a + b == a;
    } else {
      assert (a + b)[..|a + b| - 1] == a + b[..|b| - 1];
      ItemEntriesAppend(turn, a, b[..|b| - 1]);
    }
  }

  /** The turn at hand is the newest of those left. */
  lemma CurrentTurn(h: seq<Turn>, l: Listing, past: nat)
    requires ListedAt(h, l, past) && l.index < |Batch(l)|
    ensures past < |h| && Batch(l)[l.index] == Newest(h, past)
  {
    assert BatchFrom(h, l, past, l.index);
  }

  lemma PageOfItems(items: seq<Item>, cursor: Option<nat>, limit: nat, data: seq<Item>, next: Option<nat>)
    requires LegalPage(items, cursor, limit, data, next)
    ensures var at := Offset(cursor);
            && items[..|items| - at] == items[..|items| - at - |data|] + Reversed(data)
            && forall i :: 0 <= i < |data| ==> data[i] == items[|items| - 1 - at - i]
  {
    var at := Offset(cursor);
    forall i | 0 <= i < |data| ensures data[i] == items[|items| - 1 - at - i] { assert ListedFrom(items, at, data, i); }
  }

  lemma NewestApart(h: seq<Turn>, past: nat)
    requires past < |h|
    ensures Weight(h[..|h| - past]) == Weight(h[..|h| - 1 - past]) + 1 + |Newest(h, past).items|
    ensures Transcript(h[..|h| - past])
            == Transcript(h[..|h| - 1 - past]) + (ItemEntries(Newest(h, past),
              Newest(h, past).items) + FailureEntries(Newest(h, past)))
  {
    assert h[..|h| - past][..|h| - past - 1] == h[..|h| - 1 - past];
  }

  /** The failure of a turn comes after its items, so it is met first. */
  lemma FailureFirst(h: seq<Turn>, past: nat, p: Place)
    requires past < |h| && !p.errorEmitted && p.cursor.None?
    ensures Older(h, past, p) == Older(h, past, p.(errorEmitted := true)) + FailureEntries(Newest(h, past))
  {
    NewestApart(h, past);
    var turn := Newest(h, past);
    assert turn.items[..|turn.items|] == turn.items;
  }

  // ---------------------------------------------------------------------------------------------
  // Reading a page

  /** Ask for more turns.  A page that is not acceptable would be an error; a legal one always is. */
  method FetchTurns(h: seq<Turn>, l: Listing, ghost past: nat, limit: nat) returns (m: Listing)
    requires WellFormed(h) && ListedAt(h, l, past) && l.index == |Batch(l)| && (l.turns.None? || l.cursor.Some?)
    requires limit > 0
    ensures ListedAt(h, m, past) && m.turns.Some? && m.index == 0
    ensures Batch(m) == [] ==> past == |h| && m.cursor.None?
  {
    var data, next := List(h, l.cursor, limit);
    forall i | 0 <= i < |data| ensures data[i].id != l.lastTurn { assert ListedFrom(h, past, data, i); }
    forall i, j | 0 <= i < j < |data| ensures data[i].id != data[j].id {
      assert ListedFrom(h, past, data, i) && ListedFrom(h, past, data, j);
    }
    assert AcceptableTurns(l, data, next, limit);
    m := l.(turns := Some(data), index := 0, lastCursor := l.cursor, cursor := next);
    forall i ensures BatchFrom(h, m, past, i) { assert ListedFrom(h, past, data, i); }
  }

  /** The entries of a page of items, in the order of the page. */
  method Collect(turn: Turn, data: seq<Item>) returns (entries: seq<Entry>)
    ensures Reversed(entries) == ItemEntries(turn, Reversed(data)) && |entries| <= |data|
  {
    entries := [];
    var i := 0;
    while i < |data|
      invariant 0 <= i <= |data|
      invariant Reversed(entries) == ItemEntries(turn, Reversed(data[..i])) && |entries| <= i
    {
      var item := data[i];
      assert Reversed(data[..i + 1]) == [item] + Reversed(data[..i]);
      ItemEntriesAppend(turn, [item], Reversed(data[..i]));
      var more := if item.entry.Some? then [ItemEntry(turn.id, item.id, item.entry.value)] else [];
      assert ItemEntries(turn, [item]) == more by { assert [item][..0] == []; }
      ReversedAppend(entries, more);
      entries := entries + more;
      i := i + 1;
    }
    assert data[..i] == data;
  }

  lemma ItemsAccepted(h: seq<Turn>, p: Place, past: nat, seen: set<(string, string)>, limit: nat, data: seq<Item>,
    next: Option<nat>)
    requires WellFormed(h) && past < |h| && PlacedAt(Newest(h, past).items, p)
    requires Unseen(h, past, Offset(p.cursor), seen)
    requires LegalPage(Newest(h, past).items, p.cursor, limit, data, next)
    ensures AcceptableItems(p, Newest(h, past).id, seen, data, next, limit)
  {
    PageOfItems(Newest(h, past).items, p.cursor, limit, data, next);
  }

  /** The place after a page of items that is not the last of its turn. */
  function NextPlace(p: Place, data: seq<Item>, next: nat): Place
    requires data != []
  {
    p.(lastCursor := p.cursor, cursor := Some(next), lastItem := data[|data| - 1].id)
  }

  /** The entries of a page of items are the newest of those left. */
  lemma EntriesOfPage(turn: Turn, cursor: Option<nat>, limit: nat, data: seq<Item>, next: Option<nat>)
    requires LegalPage(turn.items, cursor, limit, data, next)
    ensures var left := |turn.items| - Offset(cursor);
            ItemEntries(turn, turn.items[..left])
              == ItemEntries(turn, turn.items[..left - |data|]) + ItemEntries(turn, Reversed(data))
  {
    PageOfItems(turn.items, cursor, limit, data, next);
    ItemEntriesAppend(turn, turn.items[..|turn.items| - Offset(cursor) - |data|], Reversed(data));
  }

  lemma NextPlaced(items: seq<Item>, p: Place, limit: nat, data: seq<Item>, next: nat)
    requires p.errorEmitted && PlacedAt(items, p) && LegalPage(items, p.cursor, limit, data, Some(next))
    ensures PlacedAt(items, NextPlace(p, data, next)) && next == Offset(p.cursor) + |data| > Offset(p.cursor)
  {
    PageOfItems(items, p.cursor, limit, data, Some(next));
  }

  lemma Prepended(a: seq<Entry>, b: seq<Entry>, c: seq<Entry>, d: seq<Entry>)
    requires b == c + d
    ensures a + b == a + c + d
  {
  }

  lemma OlderInTurn(h: seq<Turn>, past: nat, p: Place, q: Place, entries: seq<Entry>)
    requires past < |h| && p.errorEmitted && q.errorEmitted
    requires Offset(p.cursor) <= |Newest(h, past).items| && Offset(q.cursor) <= |Newest(h, past).items|
    requires var turn := Newest(h, past);
             ItemEntries(turn, turn.items[..|turn.items| - Offset(p.cursor)])
               == ItemEntries(turn, turn.items[..|turn.items| - Offset(q.cursor)]) + entries
    ensures Older(h, past, p) == Older(h, past, q) + entries
  {
    var turn := Newest(h, past);
    Prepended(Transcript(h[..|h| - 1 - past]), ItemEntries(turn, turn.items[..|turn.items| - Offset(p.cursor)]),
      ItemEntries(turn, turn.items[..|turn.items| - Offset(q.cursor)]), entries);
  }

  lemma MoreItems(h: seq<Turn>, p: Place, past: nat, limit: nat, data: seq<Item>, next: nat)
    requires past < |h| && p.errorEmitted && PlacedAt(Newest(h, past).items, p)
    requires LegalPage(Newest(h, past).items, p.cursor, limit, data, Some(next))
    ensures PlacedAt(Newest(h, past).items, NextPlace(p, data, next))
    ensures Older(h, past, p) == Older(h, past, NextPlace(p, data, next)) + ItemEntries(Newest(h, past), Reversed(data))
    ensures Left(h, past, NextPlace(p, data, next)) < Left(h, past, p)
  {
    var turn := Newest(h, past);
    NextPlaced(turn.items, p, limit, data, next);
    EntriesOfPage(turn, p.cursor, limit, data, Some(next));
    OlderInTurn(h, past, p, NextPlace(p, data, next), ItemEntries(turn, Reversed(data)));
  }

  lemma LastItems(h: seq<Turn>, p: Place, past: nat, limit: nat, data: seq<Item>)
    requires past < |h| && p.errorEmitted && PlacedAt(Newest(h, past).items, p)
    requires LegalPage(Newest(h, past).items, p.cursor, limit, data, None)
    ensures Older(h, past, p) == Older(h, past + 1, NewTurn) + ItemEntries(Newest(h, past), Reversed(data))
    ensures Left(h, past + 1, NewTurn) < Left(h, past, p)
  {
    var turn := Newest(h, past);
    assert |data| == |turn.items| - Offset(p.cursor);
    EntriesOfPage(turn, p.cursor, limit, data, None);
    assert ItemEntries(turn, turn.items[..0]) == [];
    assert ItemEntries(turn, turn.items[..|turn.items| - Offset(p.cursor)]) == ItemEntries(turn, Reversed(data));
    TurnIsOver(h, past, Offset(p.cursor));
  }

  lemma TurnIsOver(h: seq<Turn>, past: nat, offset: nat)
    requires past < |h| && offset <= |Newest(h, past).items|
    ensures Weight(h[..|h| - (past + 1)]) < Weight(h[..|h| - past]) - offset
    ensures Transcript(h[..|h| - (past + 1)]) == Transcript(h[..|h| - 1 - past])
  {
    NewestApart(h, past);
    assert h[..|h| - (past + 1)] == h[..|h| - 1 - past];
  }

  function Keys(turn: string, data: seq<Item>): set<(string, string)> { set i | 0 <= i < |data| :: (turn, data[i].id) }

  lemma SeenGrows(h: seq<Turn>, past: nat, offset: nat, seen: set<(string, string)>, data: seq<Item>)
    requires WellFormed(h) && past < |h| && Unseen(h, past, offset, seen) && offset + |data| <= |Newest(h, past).items|
    requires forall i :: 0 <= i < |data| ==> data[i] == Newest(h, past).items[|Newest(h, past).items| - 1 - offset - i]
    ensures Unseen(h, past + 1, 0, seen + Keys(Newest(h, past).id, data))
    ensures Unseen(h, past, offset + |data|, seen + Keys(Newest(h, past).id, data))
  {
  }

  lemma MovedOn(h: seq<Turn>, l: Listing, past: nat)
    requires ListedAt(h, l, past) && l.index < |Batch(l)|
    ensures var m := l.(lastTurn := Batch(l)[l.index].id, index := l.index + 1);
            ListedAt(h, m, past + 1) && Batch(m) == Batch(l)
  {
    CurrentTurn(h, l, past);
    var m := l.(lastTurn := Batch(l)[l.index].id, index := l.index + 1);
    var next := past + 1;
    forall i ensures BatchFrom(h, m, next, i) { assert BatchFrom(h, l, past, i); }
  }

  /** One request for items of the turn at hand. */
  method ListItems(h: seq<Turn>, turn: Turn, p: Place, ghost past: nat, seen: set<(string, string)>, limit: nat)
    returns (data: seq<Item>, next: Option<nat>, entries: seq<Entry>, more: set<(string, string)>)
    requires WellFormed(h) && past < |h| && turn == Newest(h, past) && PlacedAt(turn.items, p) && limit > 0
    requires Unseen(h, past, Offset(p.cursor), seen)
    ensures LegalPage(turn.items, p.cursor, limit, data, next)
    ensures Reversed(entries) == ItemEntries(turn, Reversed(data)) && |entries| <= |data|
    ensures if next.Some? then Unseen(h, past, next.value, more) else Unseen(h, past + 1, 0, more)
  {
    data, next := List(turn.items, p.cursor, limit);
    ItemsAccepted(h, p, past, seen, limit, data, next);
    assert AcceptableItems(p, turn.id, seen, data, next, limit);
    entries := Collect(turn, data);
    PageOfItems(turn.items, p.cursor, limit, data, next);
    SeenGrows(h, past, Offset(p.cursor), seen, data);
    more := seen + Keys(turn.id, data);
  }

  /** Read items of the turn at hand, and move on to the next turn after its last one. */
  method ReadItems(h: seq<Turn>, s: Continuation, ghost past: nat, seen: set<(string, string)>, limit: nat)
    returns (t: Continuation, entries: seq<Entry>, count: nat, more: set<(string, string)>, ghost now: nat)
    requires WellFormed(h) && At(h, s, past) && s.listing.index < |Batch(s.listing)| && s.place.errorEmitted
    requires limit > 0
    requires Unseen(h, past, Offset(s.place.cursor), seen)
    ensures At(h, t, now) && OlderThan(h, s, past) == OlderThan(h, t, now) + Reversed(entries)
    ensures |entries| <= count <= limit && Left(h, now, t.place) < Left(h, past, s.place) && t.listing.turns.Some?
    ensures Unseen(h, now, Offset(t.place.cursor), more)
  {
    CurrentTurn(h, s.listing, past);
    var turn := Batch(s.listing)[s.listing.index];
    var data, next;
    data, next, entries, more := ListItems(h, turn, s.place, past, seen, limit);
    count := |data|;
    if next.Some? {
      MoreItems(h, s.place, past, limit, data, next.value);
      t, now := s.(place := NextPlace(s.place, data, next.value)), past;
    } else {
      LastItems(h, s.place, past, limit, data);
      MovedOn(h, s.listing, past);
      t, now := Continuation(s.listing.(lastTurn := turn.id, index := s.listing.index + 1), NewTurn), past + 1;
    }
  }

  /** Make sure that there is a turn at hand, unless there are no more. */
  method NextTurn(h: seq<Turn>, s: Continuation, ghost past: nat, limit: nat) returns (t: Continuation, ended: bool)
    requires WellFormed(h) && At(h, s, past) && limit > 0
    ensures At(h, t, past) && t.place == s.place && t.listing.turns.Some?
    ensures if ended then past == |h| && !HasOlder(t) else t.listing.index < |Batch(t.listing)|
  {
    t, ended := s, false;
    if s.listing.index >= |Batch(s.listing)| {
      if s.listing.turns.Some? && s.listing.cursor.None? { return s, true; }
      var listing := FetchTurns(h, s.listing, past, limit);
      t := s.(listing := listing);
      if |Batch(listing)| == 0 { ended := true; } else { FirstOfBatch(h, listing, past); }
    }
  }

  lemma FirstOfBatch(h: seq<Turn>, l: Listing, past: nat)
    requires ListedAt(h, l, past) && l.index < |Batch(l)|
    ensures At(h, Continuation(l, NewTurn), past)
  {
    CurrentTurn(h, l, past);
  }

  /** Show the failure of the turn at hand before its items. */
  method ShowFailure(h: seq<Turn>, s: Continuation, ghost past: nat) returns (t: Continuation, entries: seq<Entry>)
    requires At(h, s, past) && s.listing.index < |Batch(s.listing)|
    ensures At(h, t, past) && t == s.(place := t.place) && t.place == s.place.(errorEmitted := true)
    ensures OlderThan(h, s, past) == OlderThan(h, t, past) + entries && |entries| <= 1
  {
    t, entries := s, [];
    if !s.place.errorEmitted {
      CurrentTurn(h, s.listing, past);
      FailureFirst(h, past, s.place);
      entries := FailureEntries(Batch(s.listing)[s.listing.index]);
      t := s.(place := s.place.(errorEmitted := true));
    }
  }

  /** Visit the turn at hand once: its failure, and one request for items if the page has room for them. */
  method Visit(h: seq<Turn>, s: Continuation, ghost past: nat, seen: set<(string, string)>, room: nat)
    returns (t: Continuation, entries: seq<Entry>, count: nat, more: set<(string, string)>, ghost now: nat)
    requires WellFormed(h) && At(h, s, past) && s.listing.index < |Batch(s.listing)| && room > 0
    requires Unseen(h, past, Offset(s.place.cursor), seen)
    ensures At(h, t, now) && OlderThan(h, s, past) == OlderThan(h, t, now) + Reversed(entries)
    ensures |entries| <= count <= room && Unseen(h, now, Offset(t.place.cursor), more) && t.listing.turns.Some?
    ensures room > 1 ==> Left(h, now, t.place) < Left(h, past, s.place)
    ensures Left(h, now, t.place) <= Left(h, past, s.place)
    ensures Left(h, now, t.place) == Left(h, past, s.place) ==> count == 1
  {
    var shown, read;
    t, shown := ShowFailure(h, s, past);
    entries, count, more, now := shown, |shown|, seen, past;
    assert Reversed(shown) == shown;
    if count < room {
      ghost var older := OlderThan(h, t, past);
      t, read, count, more, now := ReadItems(h, t, past, seen, room - |shown|);
      ReversedAppend(shown, read);
      entries, count := shown + read, |shown| + count;
    }
  }

  /** The page so far: what was collected comes right after what is older. */
  ghost predicate Reading(h: seq<Turn>, rest: seq<Entry>, t: Continuation, now: nat, entries: seq<Entry>,
    seen: set<(string, string)>) {
    At(h, t, now) && Unseen(h, now, Offset(t.place.cursor), seen) && rest == OlderThan(h, t, now) + Reversed(entries)
  }

  lemma ReadMore(rest: seq<Entry>, older: seq<Entry>, entries: seq<Entry>, oldest: seq<Entry>, more: seq<Entry>)
    requires rest == older + Reversed(entries) && older == oldest + Reversed(more)
    ensures rest == oldest + Reversed(entries + more)
  {
    ReversedAppend(entries, more);
  }

  /** Read one page, from where the last one ended to older entries; its entries are in the order of the
      transcript.  Whatever page sizes the server chooses, the page is what comes right before.  It ends early only
      when there is nothing older: after a hundred items and failures were taken, or a hundred visits to turns. */
  method ReadPage(h: seq<Turn>, s: Continuation, ghost past: nat)
    returns (page: seq<Entry>, t: Continuation, ghost now: nat, ghost taken: nat, ghost visits: nat)
    requires WellFormed(h) && At(h, s, past)
    ensures At(h, t, now) && OlderThan(h, s, past) == OlderThan(h, t, now) + page
    ensures |page| <= taken <= 100 && visits <= 100
    ensures HasOlder(t) ==> taken == 100 || visits == 100
    ensures !HasOlder(t) ==> now == |h|
    ensures HasOlder(t) ==> Left(h, now, t.place) < Left(h, past, s.place)
  {
    var entries: seq<Entry>, used, visited := [], 0, 0;
    var seen: set<(string, string)> := {};
    var ended := false;
    t, now := s, past;
    ghost var rest, start := OlderThan(h, s, past), Left(h, past, s.place);
    while used < PageSize && visited < PageSize && !ended
      invariant Reading(h, rest, t, now, entries, seen)
      invariant |entries| <= used <= PageSize && visited <= PageSize
      invariant ended ==> now == |h| && !HasOlder(t)
      invariant visited > 0 || ended ==> t.listing.turns.Some?
      invariant if visited == 0 then used == 0 && Left(h, now, t.place) == start else Left(h, now, t.place) < start
      decreases PageSize - visited, !ended
    {
      t, ended := NextTurn(h, t, now, PageSize - visited);
      if !ended {
        ghost var older := OlderThan(h, t, now);
        var more, count;
        t, more, count, seen, now := Visit(h, t, now, seen, PageSize - used);
        ReadMore(rest, older, entries, OlderThan(h, t, now), more);
        entries, used, visited := entries + more, used + count, visited + 1;
      }
    }
    page, taken, visits := Reversed(entries), used, visited;
    if !HasOlder(t) { AllListed(h, t, now); }
  }

  lemma AllListed(h: seq<Turn>, s: Continuation, past: nat)
    requires At(h, s, past) && !HasOlder(s) && s.listing.turns.Some?
    ensures past == |h|
  {
  }

  ghost predicate Followed(h: seq<Turn>, s: Continuation, past: nat, transcript: seq<Entry>) {
    At(h, s, past) && Transcript(h) == OlderThan(h, s, past) + transcript
  }

  method FollowOne(h: seq<Turn>, s: Continuation, ghost past: nat, transcript: seq<Entry>)
    returns (page: seq<Entry>, t: Continuation, ghost now: nat)
    requires WellFormed(h) && Followed(h, s, past, transcript)
    ensures Followed(h, t, now, page + transcript) && |page| <= 100
    ensures !HasOlder(t) ==> page + transcript == Transcript(h)
    ensures HasOlder(t) ==> 0 <= Left(h, now, t.place) < Left(h, past, s.place)
  {
    ghost var taken, visits;
    page, t, now, taken, visits := ReadPage(h, s, past);
    LeftNatural(h, t, now);
    Follow(Transcript(h), OlderThan(h, s, past), transcript, OlderThan(h, t, now), page);
    if !HasOlder(t) { NothingOlder(h, t, now); }
  }

  lemma Follow(whole: seq<Entry>, older: seq<Entry>, transcript: seq<Entry>, oldest: seq<Entry>, page: seq<Entry>)
    requires whole == older + transcript && older == oldest + page
    ensures whole == oldest + (page + transcript) && (oldest == [] ==> page + transcript == whole)
  {
  }

  lemma NothingOlder(h: seq<Turn>, s: Continuation, past: nat)
    requires At(h, s, past) && past == |h|
    ensures OlderThan(h, s, past) == []
  {
    assert h[..0] == [];
  }

  lemma FollowedFirst(h: seq<Turn>)
    ensures Followed(h, First, 0, [])
  {
    assert h[..|h|] == h;
  }

  /** Follow the cursors to the end: the pages, oldest first, are the whole transcript, each entry once and
      in order.  That the loop ends is part of what is proved. */
  method ReadAll(h: seq<Turn>) returns (pages: seq<seq<Entry>>, transcript: seq<Entry>)
    requires WellFormed(h)
    ensures transcript == Transcript(h) && transcript == Concatenated(pages)
    ensures forall i :: 0 <= i < |pages| ==> |pages[i]| <= 100
  {
    ghost var past := 0;
    FollowedFirst(h);
    var s, older := First, true;
    ghost var left := Left(h, past, s.place);
    pages, transcript := [], [];
    while older
      invariant older ==> Followed(h, s, past, transcript)
      invariant !older ==> transcript == Transcript(h)
      invariant transcript == Concatenated(pages) && forall i :: 0 <= i < |pages| ==> |pages[i]| <= 100
      invariant older ==> left == Left(h, past, s.place)
      decreases older, left
    {
      var page;
      page, s, past := FollowOne(h, s, past, transcript);
      ConcatenatedCons(page, pages);
      pages, transcript := [page] + pages, page + transcript;
      older := HasOlder(s);
      left := Left(h, past, s.place);
    }
  }

  function Concatenated(pages: seq<seq<Entry>>): seq<Entry> {
    if pages == [] then [] else pages[0] + Concatenated(pages[1..])
  }

  lemma ConcatenatedCons(page: seq<Entry>, pages: seq<seq<Entry>>)
    ensures Concatenated([page] + pages) == page + Concatenated(pages)
  {
    assert ([page] + pages)[1..] == pages;
  }

  lemma LeftNatural(h: seq<Turn>, s: Continuation, past: nat)
    requires At(h, s, past)
    ensures Left(h, past, s.place) >= 0
  {
    if past < |h| { NewestApart(h, past); }
  }
}
