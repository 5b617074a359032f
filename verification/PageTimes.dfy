/** What the scan of a rollout file leaves (codex/page_metadata.go:320-394): the mode that was set last, and
    for every item that is kept the times of the last record that completed it. */
module PageTimes {
  import opened Prelude
  import opened PageMetadata

  // ---------------------------------------------------------------------------------------------
  // Records, one after the other

  function TakeAll(e: Entries, records: seq<Record>): Entries
    decreases |records|
  {
    if records == [] then e else Take(TakeAll(e, records[..|records| - 1]), records[|records| - 1])
  }

  /** The record completes this item, and both of its ids are of a proper length. */
  predicate Completes(r: Record, k: Key) {
    r.completed.Some? && r.completed.value.0 == k && 1 <= |k.turn| <= 256 && 1 <= |k.item| <= 256
  }

  /** Its times; a stamp of more than 128 characters is left out. */
  function TimesIn(r: Record): Times
    requires r.completed.Some?
  {
    var t := r.completed.value.1;
    Times(t.startedAt, t.completedAt, if |t.recordedAt| <= 128 then t.recordedAt else "")
  }

  /** The times are those of the last record that completes the item. */
  predicate LastTimes(records: seq<Record>, k: Key, t: Times) {
    exists i :: 0 <= i < |records| && Completes(records[i], k) && t == TimesIn(records[i])
      && forall j :: i < j < |records| ==> !Completes(records[j], k)
  }

  predicate SetsMode(r: Record) { r.mode == "default" || r.mode == "plan" }

  /** The mode is the one that the last record with a proper mode sets. */
  predicate LastMode(records: seq<Record>, mode: string) {
    || (mode == "" && forall i :: 0 <= i < |records| ==> !SetsMode(records[i]))
    || exists i ::
         && 0 <= i < |records| && SetsMode(records[i]) && mode == records[i].mode
         && forall j :: i < j < |records| ==> !SetsMode(records[j])
  }

  lemma TakeSets(e: Entries, r: Record, k: Key)
    ensures k in Take(e, r).times ==>
              if Completes(r, k) then Take(e, r).times[k] == TimesIn(r)
              else k in e.times && Take(e, r).times[k] == e.times[k]
    ensures Take(e, r).mode == if SetsMode(r) then r.mode else e.mode
  {
    var f := if ValidMode(r.mode) then e.(mode := r.mode) else e;
    if r.completed.Some? && Storable(r.completed.value.0) {
      EvictionKeepsTheLatest(Put(f, r.completed.value.0, Trimmed(r.completed.value.1)));
      EvictionKeepsMode(Put(f, r.completed.value.0, Trimmed(r.completed.value.1)));
    }
  }

  lemma {:induction false} EvictionKeepsMode(e: Entries)
    ensures Evicted(e).mode == e.mode
    decreases |e.order|
  {
    if Over(e) && e.order != [] && e.order[0] in e.times { EvictionKeepsMode(DropFirst(e)); }
  }

  lemma LastTimesSnoc(records: seq<Record>, r: Record, k: Key, t: Times)
    requires if Completes(r, k) then t == TimesIn(r) else LastTimes(records, k, t)
    ensures LastTimes(records + [r], k, t)
  {
    var all := records + [r];
    if Completes(r, k) {
      assert all[|records|] == r;
    } else {
      var i :| 0 <= i < |records| && Completes(records[i], k) && t == TimesIn(records[i])
        && forall j :: i < j < |records| ==> !Completes(records[j], k);
      assert all[i] == records[i] && forall j :: i < j < |all| ==> !Completes(all[j], k);
    }
  }

  /** Every item that is kept has the times of the last record that completed it. */
  lemma {:induction false} KeptTimesAreLast(records: seq<Record>, k: Key)
    requires k in TakeAll(NoEntries, records).times
    ensures LastTimes(records, k, TakeAll(NoEntries, records).times[k])
    decreases |records|
  {
    if records != [] {
      var init, r := records[..|records| - 1], records[|records| - 1];
      assert records == init + [r];
      TakeSets(TakeAll(NoEntries, init), r, k);
      if !Completes(r, k) { KeptTimesAreLast(init, k); }
      LastTimesSnoc(init, r, k, TakeAll(NoEntries, records).times[k]);
    }
  }

  lemma LastModeSnoc(records: seq<Record>, r: Record, mode: string)
    requires if SetsMode(r) then mode == r.mode else LastMode(records, mode)
    ensures LastMode(records + [r], mode)
  {
    var all := records + [r];
    assert all[|records|] == r && forall i :: 0 <= i < |records| ==> all[i] == records[i];
  }

  lemma {:induction false} ModeIsLast(records: seq<Record>)
    ensures LastMode(records, TakeAll(NoEntries, records).mode)
    decreases |records|
  {
    if records != [] {
      var init, r := records[..|records| - 1], records[|records| - 1];
      assert records == init + [r];
      TakeSets(TakeAll(NoEntries, init), r, Key("", ""));
      ModeIsLast(init);
      LastModeSnoc(init, r, TakeAll(NoEntries, records).mode);
    }
  }

  // ---------------------------------------------------------------------------------------------
  // Nothing is dropped without need

  /** The entries once the first ones were dropped. */
  function Without(e: Entries, n: nat): Entries
    requires n <= |e.order| && forall i :: 0 <= i < n ==> e.order[i] in e.times
    requires Consistent(e)
    decreases n
  {
    if n == 0 then e else
    DropConsistent(e);
    Remaining(e, n);
    Without(DropFirst(e), n - 1)
  }

  lemma Remaining(e: Entries, n: nat)
    requires 0 < n <= |e.order| && Consistent(e) && forall i :: 0 <= i < n ==> e.order[i] in e.times
    ensures e.order[0] in e.times && n - 1 <= |DropFirst(e).order|
    ensures forall i :: 0 <= i < n - 1 ==> DropFirst(e).order[i] in DropFirst(e).times
  {
    forall i | 0 <= i < n - 1 ensures DropFirst(e).order[i] in DropFirst(e).times {
      assert e.order[1..][i] == e.order[i + 1];
      assert Apart(e.order, 0, i + 1);
    }
  }

  lemma AllListed(e: Entries, n: nat)
    requires Consistent(e) && n <= |e.order|
    ensures forall i :: 0 <= i < n ==> e.order[i] in e.times
  {
    forall i | 0 <= i < n ensures e.order[i] in e.times { assert Listed(e.order, e.times, e.order[i]); }
  }

  /** A bound is exceeded even when the first n entries are dropped. */
  predicate StillOver(e: Entries, n: nat)
    requires Consistent(e)
  {
    n <= |e.order| && (AllListed(e, n); |Without(e, n).order| > 8192 || Without(e, n).bytes > 1024 * 1024)
  }

  /** Both bounds are kept by dropping as few entries as possible: with one fewer dropped a bound is exceeded. */
  lemma {:induction false} EvictionIsMinimal(e: Entries) returns (n: nat)
    requires Consistent(e)
    ensures n <= |e.order| && (forall i :: 0 <= i < n ==> e.order[i] in e.times)
    ensures Evicted(e) == Without(e, n) && |Evicted(e).order| <= 8192 && Evicted(e).bytes <= 1024 * 1024
    ensures forall i :: 0 <= i < n ==> StillOver(e, i)
    decreases |e.order|
  {
    if Over(e) {
      EmptyIsNotOver(e);
      DropConsistent(e);
      var m := EvictionIsMinimal(DropFirst(e));
      n := m + 1;
      AllListed(e, n);
      forall i | 0 <= i < n ensures StillOver(e, i) {
        AllListed(e, i);
        if i > 0 {
          Remaining(e, i);
          assert StillOver(DropFirst(e), i - 1);
        }
      }
    } else {
      n := 0;
    }
  }

  /** An item comes last when it is first completed, and keeps its place from then on. */
  lemma TakePlaces(e: Entries, r: Record)
    ensures var all := if r.completed.Some? && Completes(r, r.completed.value.0) && r.completed.value.0 !in e.times
                       then e.order + [r.completed.value.0] else e.order;
            Suffix(Take(e, r).order, all)
  {
    var f := if ValidMode(r.mode) then e.(mode := r.mode) else e;
    if r.completed.Some? && Storable(r.completed.value.0) {
      EvictionKeepsTheLatest(Put(f, r.completed.value.0, Trimmed(r.completed.value.1)));
    }
  }

  lemma {:induction false} DroppedOrder(e: Entries, n: nat)
    requires Consistent(e) && n <= |e.order| && forall i :: 0 <= i < n ==> e.order[i] in e.times
    ensures Without(e, n).order == e.order[n..] && Consistent(Without(e, n))
    ensures forall k :: k in Without(e, n).times ==> k in e.times && Without(e, n).times[k] == e.times[k]
    decreases n
  {
    if n > 0 {
      DropConsistent(e);
      Remaining(e, n);
      DroppedOrder(DropFirst(e), n - 1);
    }
  }

  lemma OneIsNotOver(e: Entries, k: Key)
    requires Consistent(e) && e.order == [k]
    ensures |e.order| <= 8192 && e.bytes <= 1024 * 1024
  {
    assert Listed(e.order, e.times, k);
    assert [k][..0] == [] && Total([], e.times) == 0;
    assert Total([k], e.times) == Cost(k, e.times[k]);
  }

  /** An item that was not there before is there after the record that completes it. */
  lemma NewestIsKept(e: Entries, r: Record)
    requires Consistent(e) && r.completed.Some? && Completes(r, r.completed.value.0)
    requires r.completed.value.0 !in e.times
    ensures r.completed.value.0 in Take(e, r).times
  {
    var f := if ValidMode(r.mode) then e.(mode := r.mode) else e;
    var k, t := r.completed.value.0, Trimmed(r.completed.value.1);
    var p := Put(f, k, t);
    PutConsistent(f, k, t);
    var n := EvictionIsMinimal(p);
    if n == |p.order| {
      assert StillOver(p, n - 1);
      AllListed(p, n - 1);
      DroppedOrder(p, n - 1);
      var w := Without(p, n - 1);
      assert w.order == [k];
      OneIsNotOver(w, k);
    } else {
      DroppedOrder(p, n);
      assert p.order[n..][|p.order| - n - 1] == k;
      assert Listed(Evicted(p).order, Evicted(p).times, k);
    }
  }

  // ---------------------------------------------------------------------------------------------
  // Lines

  /** The complete lines of a file from a place on. */
  function Lines(file: Bytes, at: nat): seq<Bytes>
    decreases |file| - at
  {
    var end := LineEnd(file, at);
    if end.None? then [] else [file[at..end.value]] + Lines(file, end.value)
  }

  /** The records among lines; what does not decode is skipped. */
  function Decoded(decode: Decoder, lines: seq<Bytes>): seq<Record> {
    if lines == [] then [] else
    (if decode(lines[0]).Some? then [decode(lines[0]).value] else []) + Decoded(decode, lines[1..])
  }

  function Joined(lines: seq<Bytes>): Bytes { if lines == [] then [] else lines[0] + Joined(lines[1..]) }

  lemma {:induction false} TakeAllFirst(e: Entries, r: Record, records: seq<Record>)
    ensures TakeAll(e, [r] + records) == TakeAll(Take(e, r), records)
    decreases |records|
  {
    var all := [r] + records;
    if records == [] {
      assert all == [r] && all[..0] == [];
    } else {
      assert all[..|all| - 1] == [r] + records[..|records| - 1] && all[|all| - 1] == records[|records| - 1];
      TakeAllFirst(e, r, records[..|records| - 1]);
    }
  }

  /** A scan takes in the records of the complete lines in order, and stops where the last of them ends. */
  lemma {:induction false} ScanTakesLines(decode: Decoder, s: Scan, file: Bytes)
    requires s.offset <= |file|
    ensures var t := ScanFrom(decode, s, file);
            && t.entries == TakeAll(s.entries, Decoded(decode, Lines(file, s.offset)))
            && s.offset <= t.offset <= |file| && file[s.offset..t.offset] == Joined(Lines(file, s.offset))
            && forall i :: t.offset <= i < |file| ==> file[i] != '\n'
    decreases |file| - s.offset
  {
    var end := LineEnd(file, s.offset);
    if end.Some? {
      var line, rest := file[s.offset..end.value], Lines(file, end.value);
      var next := Scan(TakeLine(decode, s.entries, line), end.value);
      ScanTakesLines(decode, next, file);
      assert ([line] + rest)[0] == line && ([line] + rest)[1..] == rest;
      var t := ScanFrom(decode, s, file);
      assert file[s.offset..t.offset] == line + file[end.value..t.offset];
      if decode(line).Some? {
        TakeAllFirst(s.entries, decode(line).value, Decoded(decode, rest));
      } else {
        assert [] + Decoded(decode, rest) == Decoded(decode, rest);
      }
    }
  }
}
