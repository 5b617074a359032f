/** Backfilling the turns of a thread (codex/turn_history.go:26-89, 144-269): each read refreshes the newest
    page and reuses the older turns of an earlier read, even of one that failed half-way. */
module TurnHistory {
  import opened Prelude

  /** A turn as a read in full view returns it; `metadata` stands for its bounds and counts. */
  datatype Turn = Turn(id: string, terminal: bool, countsKnown: bool, metadata: string)

  const PageLimit: nat := 20

  /** A history only grows, and an ended turn whose counts are known does not change any more. */
  predicate Extends(before: seq<Turn>, after: seq<Turn>) {
    |before| <= |after| && forall i :: 0 <= i < |before| ==> KeptAt(before, after, i)
  }

  predicate KeptAt(before: seq<Turn>, after: seq<Turn>, i: int)
    requires |before| <= |after| && 0 <= i < |before|
  {
    after[i].id == before[i].id && (before[i].terminal && before[i].countsKnown ==> after[i] == before[i])
  }

  predicate Identified(history: seq<Turn>) {
    && (forall i :: 0 <= i < |history| ==> history[i].id != "")
    && (forall i, j :: 0 <= i < j < |history| ==> history[i].id != history[j].id)
  }

  /** The newest turns first, down to but not including the oldest `rest`. */
  predicate NewestDownTo(history: seq<Turn>, turns: seq<Turn>, rest: nat) {
    |turns| + rest == |history| && forall k :: 0 <= k < |turns| ==> turns[k] == history[|history| - 1 - k]
  }

  // ---------------------------------------------------------------------------------------------
  // The server

  /** A legal page: the next older turns.  A cursor is the number of turns that are older still; it may also be given
      when there are none. */
  predicate LegalPage(history: seq<Turn>, cursor: Option<nat>, data: seq<Turn>, next: Option<nat>) {
    var from := if cursor.Some? then cursor.value else |history|;
    && from <= |history| && |data| <= from && |data| <= PageLimit && (from > 0 ==> data != [])
    && (forall k :: 0 <= k < |data| ==> data[k] == history[from - 1 - k])
    && (|data| < from ==> next.Some?)
    && (next.Some? ==> data != [] && next.value == from - |data|)
  }

  /** A request for a page; it may fail. */
  method ListTurns(history: seq<Turn>, cursor: Option<nat>, reliable: bool) returns (ok: bool, data: seq<Turn>,
    next: Option<nat>)
    requires cursor.Some? ==> cursor.value <= |history|
    ensures ok ==> LegalPage(history, cursor, data, next)
    ensures reliable ==> ok
  {
    ok := reliable;
    if * { ok := true; }
    var from := if cursor.Some? then cursor.value else |history|;
    var size: nat :| size <= from && size <= PageLimit && (from > 0 ==> size > 0);
    data := seq(size, k requires 0 <= k < size => history[from - 1 - k]);
    var lazy: bool :| true;
    next := if size > 0 && (size < from || lazy) then Some(from - size) else None;
  }

  /** No turn comes twice. */
  predicate Unrepeated(turns: seq<Turn>, data: seq<Turn>) {
    && (forall k :: 0 <= k < |data| ==> data[k].id != "" && forall i :: 0 <= i < |turns| ==> turns[i].id != data[k].id)
    && (forall i, j :: 0 <= i < j < |data| ==> data[i].id != data[j].id)
  }

  /** What a page must satisfy to be accepted; it would be an error otherwise, but a legal page always does. */
  predicate Acceptable(turns: seq<Turn>, cursors: set<nat>, data: seq<Turn>, next: Option<nat>) {
    Unrepeated(turns, data) && (next.Some? ==> next.value !in cursors)
  }

  // ---------------------------------------------------------------------------------------------
  // The cache

  datatype Cached = Cached(path: string, turns: seq<Turn>, cursor: Option<nat>, complete: bool)

  /** The newest turns of a history are loaded: all of them, or those down to the cursor. */
  predicate LoadedTo(history: seq<Turn>, turns: seq<Turn>, cursor: Option<nat>, complete: bool) {
    if complete then NewestDownTo(history, turns, 0)
    else cursor.Some? && NewestDownTo(history, turns, cursor.value)
  }

  /** The cache holds the newest turns of a history that was read, down to its cursor. */
  predicate Holds(c: Cached, seen: seq<Turn>) {
    c.turns == [] || (Identified(seen) && LoadedTo(seen, c.turns, c.cursor, c.complete))
  }

  predicate Reusable(t: Turn) { t.terminal && t.countsKnown }

  predicate FirstAt(turns: seq<Turn>, id: string, i: nat) {
    i < |turns| && turns[i].id == id && forall k :: 0 <= k < i ==> turns[k].id != id
  }

  /** The cached turns from an index on, which are older than the anchor, are those of the present history. */
  lemma SuffixIsCurrent(seen: seq<Turn>, history: seq<Turn>, turns: seq<Turn>, rest: nat, anchor: nat, index: nat)
    requires Extends(seen, history) && Identified(history) && Identified(seen) && NewestDownTo(seen, turns, rest)
    requires anchor < |history| && index < |turns| && turns[index].id == history[anchor].id
    requires forall k :: index < k < |turns| ==> Reusable(turns[k])
    ensures |turns| - 1 - index + rest == anchor
    ensures forall k :: index < k < |turns| ==> turns[k] == history[anchor - (k - index)]
  {
    var at := |seen| - 1 - index;
    assert KeptAt(seen, history, at);
    assert at == anchor;
    forall k | index < k < |turns| ensures turns[k] == history[anchor - (k - index)] {
      assert KeptAt(seen, history, |seen| - 1 - k);
    }
  }

  /** Older turns right after newer ones: none comes twice, and together they are the newest of the history. */
  lemma Follows(history: seq<Turn>, turns: seq<Turn>, older: seq<Turn>)
    requires Identified(history) && |turns| + |older| <= |history|
    requires forall k :: 0 <= k < |turns| ==> turns[k] == history[|history| - 1 - k]
    requires forall k :: 0 <= k < |older| ==> older[k] == history[|history| - |turns| - 1 - k]
    ensures Unrepeated(turns, older) && NewestDownTo(history, turns + older, |history| - |turns| - |older|)
  {
  }

  class HistoryCache {
    var cached: Cached
    var retry: bool
    ghost var seen: seq<Turn>

    ghost predicate Valid()
      reads this
    {
      Holds(cached, seen)
    }

    constructor ()
      ensures Valid() && cached.turns == []
    {
      cached, retry, seen := Cached("", [], None, false), false, [];
    }

    /** Where the anchor, the oldest turn of the refreshed page, is in the cache, if everything older may be reused. */
    method FindAnchor(c: Cached, anchor: string) returns (index: Option<nat>)
      ensures index.Some? ==> FirstAt(c.turns, anchor, index.value)
      ensures index.Some? ==> forall k :: index.value < k < |c.turns| ==> Reusable(c.turns[k])
      ensures index.None? ==> forall i: nat :: FirstAt(c.turns, anchor, i) ==>
                exists k :: i < k < |c.turns| && !Reusable(c.turns[k])
    {
      var i := 0;
      while i < |c.turns|
        invariant 0 <= i <= |c.turns| && forall k :: 0 <= k < i ==> c.turns[k].id != anchor
      {
        if c.turns[i].id == anchor {
          var j := i + 1;
          while j < |c.turns|
            invariant i < j <= |c.turns| && forall k :: i < k < j ==> Reusable(c.turns[k])
          {
            if !Reusable(c.turns[j]) { return None; }
            j := j + 1;
          }
          return Some(i);
        }
        i := i + 1;
      }
      return None;
    }

    /** Read the whole history of a thread.  A read that succeeds returns what reading every page from scratch
        would; one that fails keeps the pages it got. */
    method Read(history: seq<Turn>, path: string, wellFormed: bool, reliable: bool) returns (ok: bool,
      result: seq<Turn>)
      requires Valid() && Identified(history) && (cached.path == path && wellFormed ==> Extends(seen, history))
      modifies this
      ensures Valid() && (reliable ==> ok)
      ensures ok ==> result == history && cached.complete && retry == false
      ensures (cached == old(cached) && seen == old(seen)) || (cached.path == path && seen == history)
    {
      var c := if cached.path == path && wellFormed then cached else Cached(path, [], None, false);
      var data, next;
      ok, data, next := ListTurns(history, None, reliable);
      if !ok { return false, []; }
      assert Acceptable([], {}, data, next);
      var turns, complete := data, next.None?;
      if next.Some? {
        var index := FindAnchor(c, data[|data| - 1].id);
        if index.Some? {
          SuffixIsCurrent(seen, history, c.turns, if c.complete then 0
            else c.cursor.value, |history| - |data|, index.value);
          Follows(history, turns, c.turns[index.value + 1..]);
          turns := turns + c.turns[index.value + 1..];
          if c.complete { complete := true; } else { next := c.cursor; }
        }
      }
      ok := Backfill(history, path, turns, next, complete, reliable);
      result := Chronological(cached.turns);
    }

    /** Save the turns loaded so far. */
    method Save(history: seq<Turn>, path: string, turns: seq<Turn>, cursor: Option<nat>, complete: bool)
      requires Identified(history) && LoadedTo(history, turns, cursor, complete)
      modifies this
      ensures Valid() && seen == history && cached == Cached(path, turns, cursor, complete)
      ensures retry == (!complete && cursor.Some?)
    {
      cached, retry, seen := Cached(path, turns, cursor, complete), !complete && cursor.Some?, history;
    }

    /** Load the older pages until there are none. */
    method Backfill(history: seq<Turn>, path: string, first: seq<Turn>, start: Option<nat>, done: bool,
      reliable: bool) returns (ok: bool)
      requires Identified(history) && LoadedTo(history, first, start, done)
      modifies this
      ensures Valid() && seen == history && cached.path == path && (reliable ==> ok)
      ensures ok ==> cached.complete && NewestDownTo(history, cached.turns, 0) && !retry
      ensures !ok ==> retry && !cached.complete && first <= cached.turns
    {
      var turns, cursor, complete := first, start, done;
      var cursors := if done then {} else {start.value};
      while !complete
        invariant LoadedTo(history, turns, cursor, complete) && first <= turns
        invariant !complete ==> forall k :: k in cursors ==> k >= cursor.value
        decreases !complete, if cursor.Some? then cursor.value else 0
      {
        var data, next;
        ok, data, next := ListTurns(history, cursor, reliable);
        if !ok {
          Save(history, path, turns, cursor, complete);
          return;
        }
        assert Acceptable(turns, cursors, data, next);
        turns := turns + data;
        if next.None? { complete := true; } else { cursor, cursors := next, cursors + {next.value}; }
      }
      Save(history, path, turns, cursor, complete);
      ok := true;
    }
  }

  function Chronological(turns: seq<Turn>): (r: seq<Turn>)
    ensures |r| == |turns| && forall k :: 0 <= k < |turns| ==> r[k] == turns[|turns| - 1 - k]
  {
    seq(|turns|, k requires 0 <= k < |turns| => turns[|turns| - 1 - k])
  }

  // ---------------------------------------------------------------------------------------------
  // Who keeps a cache alive

  /** Readers, watchers, and whether an interrupted backfill is worth keeping. */
  datatype Owned = Owned(readers: nat, watchers: nat, retry: bool)

  const IdleLimit := 8

  /** The caches of a client.  A cache that someone uses is never dropped; of those that nobody uses, only interrupted
      backfills are kept, and the latest eight of them. */
  class Owners {
    var caches: map<string, Owned>
    var idle: seq<string>

    ghost predicate Unused(id: string)
      reads this
      requires id in caches
    {
      caches[id].readers == 0 && caches[id].watchers == 0
    }

    ghost predicate Valid()
      reads this
    {
      && |idle| <= 8 && Distinct(idle)
      && (forall id :: id in idle ==> id in caches && Unused(id))
      && (forall id :: id in caches && Unused(id) ==> id in idle)
    }

    constructor ()
      ensures Valid() && caches == map[] && idle == []
    {
      caches, idle := map[], [];
    }

    method Retain(id: string, watch: bool)
      requires Valid()
      modifies this
      ensures Valid() && id in caches && !Unused(id)
      ensures forall other :: other != id ==>
              (other in caches <==> other in old(caches)) && (other in caches ==> caches[other] == old(caches)[other])
      ensures caches[id] == (var o := if id in old(caches) then old(caches)[id] else Owned(0, 0, false);
                             if watch then o.(watchers := o.watchers + 1) else o.(readers := o.readers + 1))
      ensures idle == Removed(old(idle), id)
    {
      var o := if id in caches then caches[id] else Owned(0, 0, false);
      caches := caches[id := if watch then o.(watchers := o.watchers + 1) else o.(readers := o.readers + 1)];
      RemovedDistinct(idle, id);
      idle := Removed(idle, id);
    }

    /** A reader or watcher says whether its backfill was interrupted. */
    method SetRetry(id: string, retry: bool)
      requires Valid() && id in caches && !Unused(id)
      modifies this`caches
      ensures Valid() && caches == old(caches)[id := old(caches)[id].(retry := retry)]
    {
      caches := caches[id := caches[id].(retry := retry)];
    }

    method Release(id: string, watch: bool)
      requires Valid() && id in caches && (if watch then caches[id].watchers > 0 else caches[id].readers > 0)
      modifies this
      ensures Valid()
      ensures forall other :: other in old(caches) && other != id && !old(Unused(other)) ==>
              other in caches && caches[other] == old(caches)[other]
      ensures id in caches <==> (old(caches)[id].readers + old(caches)[id].watchers > 1 || old(caches)[id].retry)
      ensures forall other :: other in caches ==> other in old(caches)
      ensures idle == if id !in caches || !Unused(id) then old(idle)
                      else (if |old(idle)| == 8 then old(idle)[1..] else old(idle)) + [id]
    {
      var o := if watch then caches[id].(watchers := caches[id].watchers - 1)
        else caches[id].(readers := caches[id].readers - 1);
      caches := caches[id := o];
      if o.watchers > 0 || o.readers > 0 { return; }
      if !o.retry {
        caches := caches - {id};
        return;
      }
      Park(id);
    }

    /** Keep a cache that nobody uses any more, and drop the oldest of more than eight. */
    method Park(id: string)
      requires id in caches && Unused(id) && id !in idle && |idle| <= 8 && Distinct(idle)
      requires forall other :: other in idle ==> other in caches && Unused(other)
      requires forall other :: other in caches && Unused(other) ==> other in idle || other == id
      modifies this
      ensures Valid() && idle == (if |old(idle)| == 8 then old(idle)[1..] else old(idle)) + [id]
      ensures caches == if |old(idle)| == 8 then old(caches) - {old(idle)[0]} else old(caches)
    {
      Appended(idle, id);
      idle := idle + [id];
      if |idle| > IdleLimit {
        FirstOrRest(idle);
        caches := caches - {idle[0]};
        idle := idle[1..];
      }
    }
  }

  predicate Distinct(ids: seq<string>) { forall i, j :: 0 <= i < j < |ids| ==> ids[i] != ids[j] }

  lemma Appended(ids: seq<string>, id: string)
    requires Distinct(ids) && id !in ids
    ensures Distinct(ids + [id]) && forall x :: x in ids + [id] <==> x in ids || x == id
  {
  }

  lemma FirstOrRest(ids: seq<string>)
    requires ids != [] && Distinct(ids)
    ensures Distinct(ids[1..]) && forall x :: x in ids[1..] <==> x in ids && x != ids[0]
  {
    forall x | x in ids && x != ids[0] ensures x in ids[1..] {
      var i :| 0 <= i < |ids| && ids[i] == x;
      assert ids[1..][i - 1] == x;
    }
  }

  function Removed(ids: seq<string>, id: string): (r: seq<string>)
    ensures |r| <= |ids| && (forall x :: x in r <==> x in ids && x != id)
  {
    if ids == [] then [] else if ids[0] == id then Removed(ids[1..], id) else [ids[0]] + Removed(ids[1..], id)
  }

  lemma {:induction false} RemovedDistinct(ids: seq<string>, id: string)
    requires Distinct(ids)
    ensures Distinct(Removed(ids, id))
  {
    if ids != [] {
      RemovedDistinct(ids[1..], id);
      var rest := Removed(ids[1..], id);
      assert ids[0] !in ids[1..];
      forall i, j | 0 <= i < j < |Removed(ids, id)| ensures Removed(ids, id)[i] != Removed(ids, id)[j] {
        if ids[0] != id && i == 0 { assert Removed(ids, id)[j] in rest; }
      }
    }
  }
}
