/** The scan of a rollout file for timestamps (codex/page_metadata.go:232-413): each scan goes on where the
    last one ended, and keeps a bounded number of entries in the order in which their items first came. */
module PageMetadata {
  import opened Prelude

  const ItemLimit := 8192
  const ByteLimit := 1048576
  const ReadLimit := 67108864
  const IdLimit := 256
  const StampLimit := 128
  const ProbeSize := 4096

  datatype Key = Key(turn: string, item: string)

  datatype Times = Times(startedAt: int, completedAt: int, recordedAt: string)

  /** A decoded record: the collaboration mode it sets, and the item that it completes. */
  datatype Record = Record(mode: string, completed: Option<(Key, Times)>)

  predicate ValidMode(mode: string) { mode == "default" || mode == "plan" }

  // ---------------------------------------------------------------------------------------------
  // The entries

  datatype Entries = Entries(mode: string, times: map<Key, Times>, order: seq<Key>, bytes: int)

  const NoEntries := Entries("", map[], [], 0)

  function Cost(k: Key, t: Times): int { |k.turn| + |k.item| + |t.recordedAt| + 128 }

  predicate Over(e: Entries) { |e.order| > ItemLimit || e.bytes > ByteLimit }

  /** Drop the entry that came first. */
  function DropFirst(e: Entries): Entries
    requires e.order != [] && e.order[0] in e.times
  {
    var k := e.order[0];
    e.(times := e.times - {k}, order := e.order[1..], bytes := e.bytes - Cost(k, e.times[k]))
  }

  function Evicted(e: Entries): Entries
    decreases |e.order|
  {
    if Over(e) && e.order != [] && e.order[0] in e.times then Evicted(DropFirst(e)) else e
  }

  /** Record a completed item; one that was seen before keeps its place. */
  function Put(e: Entries, k: Key, t: Times): Entries {
    if k in e.times then
      e.(times := e.times[k := t], bytes := e.bytes - Cost(k, e.times[k]) + Cost(k, t))
    else
      e.(times := e.times[k := t], order := e.order + [k], bytes := e.bytes + Cost(k, t))
  }

  predicate Storable(k: Key) { 0 < |k.turn| <= IdLimit && 0 < |k.item| <= IdLimit }

  function Trimmed(t: Times): Times { if |t.recordedAt| > StampLimit then t.(recordedAt := "") else t }

  function Take(e: Entries, r: Record): Entries {
    var f := if ValidMode(r.mode) then e.(mode := r.mode) else e;
    if r.completed.Some? && Storable(r.completed.value.0)
      then Evicted(Put(f, r.completed.value.0, Trimmed(r.completed.value.1))) else f
  }

  // ---------------------------------------------------------------------------------------------
  // What holds after every record

  predicate Apart(order: seq<Key>, i: int, j: int) { 0 <= i < j < |order| ==> order[i] != order[j] }

  ghost predicate Distinct(order: seq<Key>) { forall i, j :: Apart(order, i, j) }

  function Total(order: seq<Key>, times: map<Key, Times>): int
    decreases |order|
  {
    if order == [] then 0 else
    var k := order[|order| - 1];
    Total(order[..|order| - 1], times) + if k in times then Cost(k, times[k]) else 0
  }

  predicate Small(k: Key, t: Times) { Storable(k) && |t.recordedAt| <= StampLimit }

  /** An entry is in the order if and only if it has times, and its strings are short. */
  predicate Listed(order: seq<Key>, times: map<Key, Times>, k: Key) {
    (k in order <==> k in times) && (k in times ==> Small(k, times[k]))
  }

  /** The order lists each entry once, and the byte count is exact. */
  ghost predicate Consistent(e: Entries) {
    Distinct(e.order) && (forall k :: Listed(e.order, e.times, k)) && e.bytes == Total(e.order, e.times)
  }

  lemma DistinctParts(order: seq<Key>)
    requires order != [] && Distinct(order)
    ensures Distinct(order[..|order| - 1]) && order[|order| - 1] !in order[..|order| - 1]
    ensures Distinct(order[1..]) && order[0] !in order[1..]
  {
    var init, rest, n := order[..|order| - 1], order[1..], |order| - 1;
    forall i, j ensures Apart(init, i, j) { assert Apart(order, i, j); }
    forall i, j ensures Apart(rest, i, j) { assert Apart(order, i + 1, j + 1); }
    forall i | 0 <= i < |init| ensures init[i] != order[n] { assert Apart(order, i, n); }
    forall i | 0 <= i < |rest| ensures rest[i] != order[0] { assert Apart(order, 0, i + 1); }
  }

  lemma {:induction false} TotalElsewhere(order: seq<Key>, times: map<Key, Times>, k: Key, t: Times)
    requires k !in order
    ensures Total(order, times[k := t]) == Total(order, times) && Total(order, times - {k}) == Total(order, times)
    decreases |order|
  {
    if order != [] {
      assert order[|order| - 1] in order && forall x :: x in order[..|order| - 1] ==> x in order;
      TotalElsewhere(order[..|order| - 1], times, k, t);
    }
  }

  lemma {:induction false} TotalUpdated(order: seq<Key>, times: map<Key, Times>, k: Key, t: Times)
    requires k in order && k in times && Distinct(order)
    ensures Total(order, times[k := t]) == Total(order, times) - Cost(k, times[k]) + Cost(k, t)
    decreases |order|
  {
    var init, last := order[..|order| - 1], order[|order| - 1];
    DistinctParts(order);
    if last == k {
      TotalElsewhere(init, times, k, t);
    } else {
      assert k in init;
      TotalUpdated(init, times, k, t);
    }
  }

  lemma {:induction false} TotalWithoutFirst(order: seq<Key>, times: map<Key, Times>)
    requires order != [] && order[0] in times && Distinct(order)
    ensures Total(order[1..], times - {order[0]}) == Total(order, times) - Cost(order[0], times[order[0]])
    decreases |order|
  {
    var init, last := order[..|order| - 1], order[|order| - 1];
    DistinctParts(order);
    if |order| == 1 {
      assert order[1..] == [] && init == [];
    } else {
      TotalWithoutFirst(init, times);
      assert order[1..][..|order| - 2] == init[1..] && order[1..][|order| - 2] == last && init[0] == order[0];
    }
  }

  lemma DistinctSnoc(order: seq<Key>, k: Key)
    requires Distinct(order) && k !in order
    ensures Distinct(order + [k])
  {
    var more := order + [k];
    forall i, j ensures Apart(more, i, j) { assert Apart(order, i, j); }
  }

  lemma PutListed(e: Entries, k: Key, t: Times, x: Key)
    requires (forall k :: Listed(e.order, e.times, k)) && Small(k, t)
    ensures Listed(Put(e, k, t).order, Put(e, k, t).times, x)
  {
    assert Listed(e.order, e.times, x);
    assert x in e.order + [k] <==> x in e.order || x == k;
  }

  lemma PutTotal(e: Entries, k: Key, t: Times)
    requires Consistent(e)
    ensures Put(e, k, t).bytes == Total(Put(e, k, t).order, Put(e, k, t).times)
  {
    assert Listed(e.order, e.times, k);
    if k in e.times {
      TotalUpdated(e.order, e.times, k, t);
    } else {
      TotalElsewhere(e.order, e.times, k, t);
      assert (e.order + [k])[..|e.order|] == e.order;
    }
  }

  lemma PutConsistent(e: Entries, k: Key, t: Times)
    requires Consistent(e) && Small(k, t)
    ensures Consistent(Put(e, k, t))
  {
    PutTotal(e, k, t);
    var f := Put(e, k, t);
    forall x ensures Listed(f.order, f.times, x) { PutListed(e, k, t, x); }
    assert Listed(e.order, e.times, k);
    if k !in e.times { DistinctSnoc(e.order, k); }
  }

  lemma DropListed(e: Entries, x: Key)
    requires Consistent(e) && e.order != [] && e.order[0] in e.times
    ensures Listed(DropFirst(e).order, DropFirst(e).times, x)
  {
    assert Listed(e.order, e.times, x);
    DistinctParts(e.order);
    assert x in e.order <==> x == e.order[0] || x in e.order[1..];
  }

  lemma DropConsistent(e: Entries)
    requires Consistent(e) && e.order != []
    ensures e.order[0] in e.times && Consistent(DropFirst(e))
  {
    assert Listed(e.order, e.times, e.order[0]);
    TotalWithoutFirst(e.order, e.times);
    DistinctParts(e.order);
    var f := DropFirst(e);
    forall x ensures Listed(f.order, f.times, x) { DropListed(e, x); }
  }

  lemma EmptyIsNotOver(e: Entries)
    requires Consistent(e) && Over(e)
    ensures e.order != []
  {
  }

  /** Eviction ends within both bounds. */
  lemma {:induction false} EvictedConsistent(e: Entries)
    requires Consistent(e)
    ensures Consistent(Evicted(e)) && !Over(Evicted(e)) && Evicted(e).mode == e.mode
    decreases |e.order|
  {
    if Over(e) {
      EmptyIsNotOver(e);
      DropConsistent(e);
      EvictedConsistent(DropFirst(e));
    }
  }

  predicate Suffix(s: seq<Key>, of: seq<Key>) { |s| <= |of| && s == of[|of| - |s|..] }

  lemma SuffixOfRest(s: seq<Key>, of: seq<Key>)
    requires of != [] && Suffix(s, of[1..])
    ensures Suffix(s, of)
  {
  }

  /** Eviction takes the entries that came first: those left are the latest, unchanged. */
  lemma {:induction false} EvictionKeepsTheLatest(e: Entries)
    ensures Suffix(Evicted(e).order, e.order) && forall k :: k in Evicted(e).times ==>
            k in e.times && Evicted(e).times[k] == e.times[k]
    decreases |e.order|
  {
    if Over(e) && e.order != [] && e.order[0] in e.times {
      EvictionKeepsTheLatest(DropFirst(e));
      SuffixOfRest(Evicted(e).order, e.order);
    }
  }

  lemma TakeConsistent(e: Entries, r: Record)
    requires Consistent(e) && !Over(e)
    ensures Consistent(Take(e, r)) && !Over(Take(e, r))
  {
    var f := if ValidMode(r.mode) then e.(mode := r.mode) else e;
    if r.completed.Some? && Storable(r.completed.value.0) {
      var k, t := r.completed.value.0, Trimmed(r.completed.value.1);
      PutConsistent(f, k, t);
      EvictedConsistent(Put(f, k, t));
    }
  }

  // ---------------------------------------------------------------------------------------------
  // Scanning complete lines

  type Bytes = seq<char>

  type Decoder = Bytes -> Option<Record>

  /** Where the line that starts at an offset ends, newline included; nothing if it is not complete yet. */
  function LineEnd(file: Bytes, at: nat): (end: Option<nat>)
    ensures end.Some? ==> at < end.value <= |file| && file[end.value - 1] == '\n'
    ensures end.Some? ==> forall i :: at <= i < end.value - 1 ==> file[i] != '\n'
    ensures end.None? ==> forall i :: at <= i < |file| ==> file[i] != '\n'
    decreases |file| - at
  {
    if at >= |file| then None else if file[at] == '\n' then Some(at + 1) else LineEnd(file, at + 1)
  }

  /** The entries so far and where the next line starts. */
  datatype Scan = Scan(entries: Entries, offset: nat)

  function TakeLine(decode: Decoder, e: Entries, line: Bytes): Entries {
    if decode(line).Some? then Take(e, decode(line).value) else e
  }

  /** Take in every complete line from the offset on. */
  function ScanFrom(decode: Decoder, s: Scan, file: Bytes): Scan
    decreases |file| - s.offset
  {
    var end := LineEnd(file, s.offset);
    if end.None? then s else ScanFrom(decode, Scan(TakeLine(decode, s.entries, file[s.offset..end.value]), end.value),
      file)
  }

  predicate IsPrefix(a: Bytes, b: Bytes) { |a| <= |b| && a == b[..|a|] }

  lemma LineEndUnique(file: Bytes, at: nat, end: nat)
    requires at < end <= |file| && file[end - 1] == '\n' && forall i :: at <= i < end - 1 ==> file[i] != '\n'
    ensures LineEnd(file, at) == Some(end)
  {
    var e := LineEnd(file, at);
    assert e.Some? && file[e.value - 1] == '\n' && file[end - 1] == '\n';
  }

  /** A complete line stays what it is when the file grows. */
  lemma LineStays(file: Bytes, grown: Bytes, at: nat)
    requires IsPrefix(file, grown) && LineEnd(file, at).Some?
    ensures LineEnd(grown, at) == LineEnd(file, at)
    ensures grown[at..LineEnd(file, at).value] == file[at..LineEnd(file, at).value]
  {
    var end := LineEnd(file, at).value;
    forall i | 0 <= i < |file| ensures grown[i] == file[i] { }
    LineEndUnique(grown, at, end);
  }

  /** Scanning on in a file that has grown gives what one scan of the whole file gives, even when the last scan ended in
      the middle of a record. */
  lemma {:induction false} ResumedScanIsFullScan(decode: Decoder, s: Scan, file: Bytes, grown: Bytes)
    requires IsPrefix(file, grown)
    ensures ScanFrom(decode, ScanFrom(decode, s, file), grown) == ScanFrom(decode, s, grown)
    decreases |file| - s.offset
  {
    var end := LineEnd(file, s.offset);
    if end.Some? {
      LineStays(file, grown, s.offset);
      ResumedScanIsFullScan(decode, Scan(TakeLine(decode, s.entries, file[s.offset..end.value]), end.value), file,
        grown);
    }
  }

  /** After every record, and so after every scan, the order and the byte count are right and both bounds hold. */
  lemma {:induction false} ScanIsBounded(decode: Decoder, s: Scan, file: Bytes)
    requires Consistent(s.entries) && !Over(s.entries)
    ensures Consistent(ScanFrom(decode, s, file).entries) && !Over(ScanFrom(decode, s, file).entries)
    decreases |file| - s.offset
  {
    var end := LineEnd(file, s.offset);
    if end.Some? {
      var line := file[s.offset..end.value];
      if decode(line).Some? { TakeConsistent(s.entries, decode(line).value); }
      ScanIsBounded(decode, Scan(TakeLine(decode, s.entries, line), end.value), file);
    }
  }

  // ---------------------------------------------------------------------------------------------
  // The cache of a rollout file

  const Freshness := 60000

  /** What the file system says: whether it is the same file as last time, and whether its time is the same. */
  datatype Info = Info(sameFile: bool, sameTime: bool)

  function LastBytes(file: Bytes): Bytes { if |file| <= ProbeSize then file else file[|file| - ProbeSize..] }

  class Cache {
    const decode: Decoder
    var mode: string
    var times: map<Key, Times>
    var order: seq<Key>
    var bytes: int
    var offset: nat
    var ready: bool
    var fullRead: Option<int>
    var size: nat
    var tail: Bytes
    /** The file that was scanned last, and whether it was scanned from its start. */
    ghost var content: Bytes
    ghost var whole: bool

    ghost function Value(): Entries
      reads this
    {
      Entries(mode, times, order, bytes)
    }

    ghost predicate Valid()
      reads this
    {
      && Consistent(Value()) && !Over(Value())
      && (ready ==> size == |content| && tail == LastBytes(content) && offset <= size)
      && (ready && whole ==> Scan(Value(), offset) == ScanFrom(decode, Scan(NoEntries, 0), content))
    }

    constructor (decode: Decoder)
      ensures Valid() && !ready && Value() == NoEntries && offset == 0 && this.decode == decode
    {
      this.decode := decode;
      mode, times, order, bytes, offset := "", map[], [], 0, 0;
      ready, fullRead, size, tail, content, whole := false, None, 0, [], [], false;
    }

    /** Drop entries, oldest first, until both bounds hold. */
    method Evict()
      requires Consistent(Value())
      modifies this`times, this`order, this`bytes
      ensures Value() == Evicted(old(Value())) && Consistent(Value()) && !Over(Value())
    {
      while |order| > ItemLimit || bytes > ByteLimit
        invariant Consistent(Value()) && Evicted(Value()) == Evicted(old(Value())) && mode == old(mode)
        decreases |order|
      {
        EmptyIsNotOver(Value());
        DropConsistent(Value());
        var removed := order[0];
        bytes := bytes - Cost(removed, times[removed]);
        times, order := times - {removed}, order[1..];
      }
    }

    method Insert(k: Key, t: Times)
      requires Consistent(Value())
      modifies this`times, this`order, this`bytes
      ensures Value() == Put(old(Value()), k, t)
    {
      if k in times { bytes := bytes - Cost(k, times[k]); } else { order := order + [k]; }
      times := times[k := t];
      bytes := bytes + Cost(k, t);
    }

    method Note(k: Key, t: Times)
      requires Consistent(Value()) && Small(k, t)
      modifies this`times, this`order, this`bytes
      ensures Value() == Evicted(Put(old(Value()), k, t)) && Consistent(Value()) && !Over(Value())
    {
      PutConsistent(Value(), k, t);
      Insert(k, t);
      Evict();
    }

    method TakeRecord(r: Record)
      requires Consistent(Value()) && !Over(Value())
      modifies this`mode, this`times, this`order, this`bytes
      ensures Value() == Take(old(Value()), r) && Consistent(Value()) && !Over(Value())
    {
      if ValidMode(r.mode) { mode := r.mode; }
      if r.completed.Some? && Storable(r.completed.value.0) { Note(r.completed.value.0, Trimmed(r.completed.value.1)); }
    }

    /** Take in every complete line after the offset; a line over the limit is an error. */
    method ScanLines(file: Bytes) returns (ok: bool)
      requires Consistent(Value()) && !Over(Value()) && offset <= |file|
      modifies this`mode, this`times, this`order, this`bytes, this`offset
      ensures Consistent(Value()) && !Over(Value()) && offset <= |file|
      ensures ok ==> Scan(Value(), offset) == ScanFrom(decode, old(Scan(Value(), offset)), file)
      ensures |file| - old(offset) < ReadLimit ==> ok
    {
      var end := LineEnd(file, offset);
      while end.Some?
        invariant Consistent(Value()) && !Over(Value()) && old(offset) <= offset <= |file|
        invariant end == LineEnd(file, offset)
        invariant ScanFrom(decode, Scan(Value(), offset), file) == ScanFrom(decode, old(Scan(Value(), offset)), file)
        decreases |file| - offset
      {
        var line := file[offset..end.value];
        if |line| > ReadLimit { return false; }
        var record := decode(line);
        offset := end.value;
        if record.Some? { TakeRecord(record.value); }
        end := LineEnd(file, offset);
      }
      return |file| - offset < ReadLimit;
    }

    /** The file is the one scanned before and looks as if it only grew. */
    predicate Resumes(file: Bytes, info: Info, startedAt: int, forceFull: bool)
      reads this
    {
      && !forceFull && ready && fullRead.Some? && startedAt < fullRead.value + Freshness
      && info.sameFile && |file| >= size && (|file| == size ==> info.sameTime)
      && |tail| <= size && tail == file[size - |tail|..size]
    }

    /** The file is the one that was scanned, is no shorter, has another time if it is as long, and ends the
        old part with the same 4096 bytes, or with all of them if there were fewer. */
    ghost predicate LooksGrown(file: Bytes, info: Info)
      reads this
    {
      && ready && info.sameFile && |content| <= |file| && (|content| == |file| ==> info.sameTime)
      && forall i :: |content| - 4096 <= i < |content| && 0 <= i ==> file[i] == content[i]
    }

    /** The last scan from the start was a minute ago or more, or there was none. */
    predicate Stale(startedAt: int)
      reads this
    {
      !ready || fullRead.None? || startedAt - fullRead.value >= 60 * 1000
    }

    /** A scan goes on only in a file that looks grown. */
    lemma ResumesOnlyGrown(file: Bytes, info: Info, startedAt: int, forceFull: bool)
      requires Valid() && Resumes(file, info, startedAt, forceFull)
      ensures LooksGrown(file, info) && !forceFull && !Stale(startedAt)
    {
      forall i | |content| - 4096 <= i < |content| && 0 <= i ensures file[i] == content[i] {
        var at := size - |tail|;
        assert tail == content[at..] && file[at..size][i - at] == file[i] && content[at..][i - at] == content[i];
      }
    }

    /** Take over the entries and the place of an earlier scan, or start over. */
    method Prepare(previous: Cache, file: Bytes, resumes: bool, startedAt: int) returns (start: nat, resumed: bool)
      requires previous != this && previous.Valid() && (resumes ==> previous.ready && previous.size <= |file|)
      requires Value() == NoEntries
      modifies this`mode, this`times, this`order, this`bytes, this`fullRead
      ensures start <= |file| && (resumed ==> resumes)
      ensures (|file| <= ReadLimit ==> resumed == resumes && start == if resumes then previous.offset else 0)
      ensures Value() == if resumed then previous.Value() else NoEntries
      ensures |file| - start <= ReadLimit
    {
      start, resumed, fullRead := 0, resumes, Some(startedAt);
      if resumes {
        mode, times, order, bytes, fullRead :=
          previous.mode, previous.times, previous.order, previous.bytes, previous.fullRead;
        start := previous.offset;
      }
      if start == 0 && |file| > ReadLimit { start := |file| - ReadLimit; }
      if |file| - start > ReadLimit {
        mode, times, order, bytes, fullRead := "", map[], [], 0, Some(startedAt);
        resumed, start := false, |file| - ReadLimit;
      }
    }

    /** Scan a file from a place on, and remember it. */
    method ScanFile(file: Bytes, start: nat, ghost full: bool) returns (ok: bool)
      requires Consistent(Value()) && !Over(Value()) && start <= |file|
      requires full ==> ScanFrom(decode, Scan(Value(), start), file) == ScanFrom(decode, Scan(NoEntries, 0), file)
      modifies this
      ensures ok ==> Valid() && ready && content == file && whole == full
      ensures |file| - start < ReadLimit ==> ok
      ensures ok && full ==> Scan(Value(), offset) == ScanFrom(decode, Scan(NoEntries, 0), file)
    {
      offset := start;
      ok := ScanLines(file);
      ready, size, tail, content, whole := true, |file|, LastBytes(file), file, full;
    }

    /** Scan a file, going on from the last scan where that is possible.  A file within the read limit that only
        grew is read as if from its start. */
    method Rescan(file: Bytes, info: Info, startedAt: int, forceFull: bool) returns (ok: bool, result: Cache)
      requires Valid()
      ensures fresh(result) && result.decode == decode
      ensures ok ==> result.Valid() && result.ready && result.content == file
      ensures |file| < ReadLimit && (LooksGrown(file, info) ==> whole && IsPrefix(content, file)) ==>
                ok && result.whole && Scan(result.Value(), result.offset) == ScanFrom(decode, Scan(NoEntries, 0), file)
      ensures |file| < ReadLimit && (forceFull || Stale(startedAt)) ==>
                ok && result.whole && Scan(result.Value(), result.offset) == ScanFrom(decode, Scan(NoEntries, 0), file)
    {
      result := new Cache(decode);
      if Resumes(file, info, startedAt, forceFull) { ResumesOnlyGrown(file, info, startedAt, forceFull); }
      var start, resumed := result.Prepare(this, file, Resumes(file, info, startedAt, forceFull), startedAt);
      ghost var full := |file| < ReadLimit && (resumed ==> whole && IsPrefix(content, file));
      if full && resumed { ResumedScanIsFullScan(decode, Scan(NoEntries, 0), content, file); }
      if start > 0 && !(resumed && start == offset) && file[start - 1] != '\n' {
        var end := LineEnd(file, start);
        if end.None? { return false, result; }
        start := end.value;
      }
      ok := result.ScanFile(file, start, full);
    }
  }
}
