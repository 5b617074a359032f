/** How a turn record stands for the list of intervals that it compresses (codex/activity_recording.go:45-99).
    Times are milliseconds; every interval carries the record that it was accrued to. */
module ActivityTiming {
  import opened Prelude

  datatype Activity = Working | Waiting | Idle | Unclassified

  /** A record of a turn; a turn whose record left memory may get another copy. */
  datatype Key = Key(turn: string, copy: nat)

  datatype Interval = Interval(key: Key, state: Activity, from: int, to: int)

  /** The constant-size part: totals, bounds, and the part of the totals that lies in the current second. */
  datatype Timing = Timing(working: int, waiting: int, first: int, through: int, tailSecond: int, tailWork: int,
    tailWait: int)

  datatype TurnRecord = TurnRecord(
    id: string, sequence: nat, startedAt: nat, completedAt: nat, timing: Timing, final: bool, boundsUnknown: bool)

  datatype TurnStatus = InProgress | Completed | Failed | Interrupted | OtherStatus

  const NoTiming := Timing(0, 0, 0, 0, 0, 0, 0)
  const NoRecord := TurnRecord("", 0, 0, 0, NoTiming, false, false)

  function SecondOf(t: int): int { t / 1000 * 1000 }

  // ---------------------------------------------------------------------------------------------
  // Records

  function Add(t: Timing, state: Activity, from: int, to: int): Timing {
    var second := SecondOf(to);
    var same := second == t.tailSecond;
    var tail := to - Max(from, second);
    var working := state.Working?;
    Timing(
      t.working + (if working then to - from else 0),
      t.waiting + (if working then 0 else to - from),
      if t.first == 0 then from else t.first,
      to, second,
      (if same then t.tailWork else 0) + (if working then tail else 0),
      (if same then t.tailWait else 0) + (if working then 0 else tail))
  }

  predicate Ended(status: TurnStatus) { status.Completed? || status.Failed? || status.Interrupted? }

  /** The totals can be cut exactly at a completion in the last recorded second. */
  predicate Clips(t: Timing, completedAt: int) { t.through > completedAt && t.tailSecond == completedAt }

  function Cut(t: Timing, completedAt: int): Timing {
    var u := t.(working := t.working - t.tailWork, waiting := t.waiting - t.tailWait, through := completedAt,
      tailWork := 0, tailWait := 0);
    if u.working + u.waiting == 0 then u.(first := completedAt) else u
  }

  /** What the metadata of a turn says about its bounds. */
  datatype Bounds = Bounds(id: string, status: TurnStatus, startedAt: nat, completedAt: nat)

  predicate Closes(b: Bounds) { Ended(b.status) && b.completedAt != 0 }

  function ApplyMetadata(r: TurnRecord, b: Bounds): TurnRecord {
    if r.final then r else
    var startedAt := if b.startedAt > 0 then b.startedAt else r.startedAt;
    var s := r.(sequence := r.sequence + 1, id := b.id, startedAt := startedAt);
    if !Closes(b) then s else
    var timing := if Clips(r.timing, b.completedAt) then Cut(r.timing, b.completedAt) else r.timing;
    s.(completedAt := b.completedAt, timing := timing, final := startedAt > 0,
       boundsUnknown := r.boundsUnknown || timing.through > b.completedAt || (0 < timing.first < startedAt))
  }

  // ---------------------------------------------------------------------------------------------
  // Interval lists

  /** The part of an interval after a moment. */
  function Part(x: Interval, state: Activity, after: int): int {
    if x.state == state then Max(0, x.to - Max(x.from, after)) else 0
  }

  function Sum(log: seq<Interval>, key: Key, state: Activity, after: int): int
    decreases |log|
  {
    if log == [] then 0 else
    var x := log[|log| - 1];
    Sum(log[..|log| - 1], key, state, after) + if x.key == key then Part(x, state, after) else 0
  }

  /** The intervals of one record cut at a moment; the others stay as they are. */
  function Clip(log: seq<Interval>, key: Key, at: int): seq<Interval>
    decreases |log|
  {
    if log == [] then [] else
    var x, rest := log[|log| - 1], Clip(log[..|log| - 1], key, at);
    if x.key != key then rest + [x] else if x.from >= at then rest else rest + [x.(to := Min(x.to, at))]
  }

  /** Chronological, each of positive length, ending by `bound`; so no two overlap. */
  predicate Ordered(log: seq<Interval>, bound: int)
    decreases |log|
  {
    if log == [] then bound > 0 else
    var x := log[|log| - 1];
    x.from < x.to <= bound && Ordered(log[..|log| - 1], x.from)
  }

  lemma {:induction false} OrderedLater(log: seq<Interval>, bound: int, later: int)
    requires Ordered(log, bound) && bound <= later
    ensures Ordered(log, later)
  {
  }

  lemma {:induction false} OrderedAt(log: seq<Interval>, bound: int, i: int)
    requires Ordered(log, bound) && 0 <= i < |log|
    ensures 0 < log[i].from < log[i].to <= bound
    decreases |log|
  {
    var rest := log[..|log| - 1];
    OrderedPositive(rest, log[|log| - 1].from);
    if i < |log| - 1 {
      OrderedAt(rest, log[|log| - 1].from, i);
      assert rest[i] == log[i];
    }
  }

  lemma {:induction false} OrderedPositive(log: seq<Interval>, bound: int)
    requires Ordered(log, bound)
    ensures bound > 0
    decreases |log|
  {
    if log != [] { OrderedPositive(log[..|log| - 1], log[|log| - 1].from); }
  }

  /** Intervals of any two records and states are disjoint. */
  lemma {:induction false} OrderedDisjoint(log: seq<Interval>, bound: int, i: int, j: int)
    requires Ordered(log, bound) && 0 <= i < j < |log|
    ensures log[i].to <= log[j].from
    decreases |log|
  {
    var rest := log[..|log| - 1];
    if j == |log| - 1 {
      OrderedAt(rest, log[j].from, i);
      assert rest[i] == log[i];
    } else {
      OrderedDisjoint(rest, log[|log| - 1].from, i, j);
      assert rest[i] == log[i] && rest[j] == log[j];
    }
  }

  lemma OrderedAppend(log: seq<Interval>, bound: int, x: Interval)
    requires Ordered(log, bound) && bound <= x.from < x.to
    ensures Ordered(log + [x], x.to)
  {
    assert (log + [x])[..|log|] == log;
    OrderedLater(log, bound, x.from);
  }

  lemma SumAppend(log: seq<Interval>, x: Interval, key: Key, state: Activity, after: int)
    ensures Sum(log + [x], key, state, after) == Sum(log, key, state, after) + if x.key == key
            then Part(x, state, after) else 0
  {
    assert (log + [x])[..|log|] == log;
  }

  lemma {:induction false} SumAfterEnd(log: seq<Interval>, key: Key, state: Activity, after: int)
    requires forall i :: 0 <= i < |log| && log[i].key == key ==> log[i].to <= after
    ensures Sum(log, key, state, after) == 0
    decreases |log|
  {
    if log != [] {
      var rest := log[..|log| - 1];
      assert forall i :: 0 <= i < |rest| ==> rest[i] == log[i];
      SumAfterEnd(rest, key, state, after);
      assert log[|log| - 1].key == key ==> log[|log| - 1].to <= after;
    }
  }

  // ---------------------------------------------------------------------------------------------
  // Clipping

  /** `x` is what clipping at a moment leaves of some interval of the list. */
  predicate From(x: Interval, log: seq<Interval>, key: Key, at: int) {
    exists i :: 0 <= i < |log| && x == log[i].(to := x.to) && x.to <= log[i].to && (log[i].key == key ==> x.to <= at)
      && (log[i].key != key ==> x == log[i])
  }

  lemma FromLonger(x: Interval, log: seq<Interval>, key: Key, at: int)
    requires log != [] && From(x, log[..|log| - 1], key, at)
    ensures From(x, log, key, at)
  {
    var rest := log[..|log| - 1];
    var i :| 0 <= i < |rest| && x == rest[i].(to := x.to) && x.to <= rest[i].to && (rest[i].key == key ==> x.to <= at)
      && (rest[i].key != key ==> x == rest[i]);
    assert log[i] == rest[i];
  }

  lemma {:induction false} ClipElements(log: seq<Interval>, key: Key, at: int, j: int)
    requires 0 <= j < |Clip(log, key, at)|
    ensures From(Clip(log, key, at)[j], log, key, at)
    decreases |log|
  {
    var rest := log[..|log| - 1];
    var x := log[|log| - 1];
    if j < |Clip(rest, key, at)| {
      ClipElements(rest, key, at, j);
      FromLonger(Clip(rest, key, at)[j], log, key, at);
      assert Clip(log, key, at)[j] == Clip(rest, key, at)[j];
    } else {
      var y := Clip(log, key, at)[j];
      assert y == log[|log| - 1].(to := y.to);
    }
  }

  lemma {:induction false} ClipOrdered(log: seq<Interval>, key: Key, at: int, bound: int)
    requires Ordered(log, bound)
    ensures Ordered(Clip(log, key, at), bound)
    decreases |log|
  {
    if log != [] {
      var x, rest := log[|log| - 1], Clip(log[..|log| - 1], key, at);
      ClipOrdered(log[..|log| - 1], key, at, x.from);
      OrderedLater(rest, x.from, bound);
      var y := if x.key != key then x else x.(to := Min(x.to, at));
      assert (rest + [y])[..|rest|] == rest;
    }
  }

  lemma ClipLast(log: seq<Interval>, key: Key, at: int, state: Activity, other: Key, after: int)
    requires log != []
    ensures var x := log[|log| - 1];
            var left := if x.key == key && x.from >= at then 0
              else if x.key == key then Part(x.(to := Min(x.to, at)), state, after) else Part(x, state, after);
            Sum(Clip(log, key, at), other, state, after)
              == Sum(Clip(log[..|log| - 1], key, at), other, state, after) + if x.key == other then left else 0
  {
    var x, rest := log[|log| - 1], Clip(log[..|log| - 1], key, at);
    if x.key != key {
      SumAppend(rest, x, other, state, after);
    } else if x.from < at {
      SumAppend(rest, x.(to := Min(x.to, at)), other, state, after);
    }
  }

  lemma {:induction false} ClipSum(log: seq<Interval>, key: Key, at: int, state: Activity, bound: int)
    requires Ordered(log, bound) && at >= 0
    ensures Sum(Clip(log, key, at), key, state, 0) == Sum(log, key, state, 0) - Sum(log, key, state, at)
    decreases |log|
  {
    if log != [] {
      var x := log[|log| - 1];
      OrderedPositive(log[..|log| - 1], x.from);
      ClipSum(log[..|log| - 1], key, at, state, x.from);
      ClipLast(log, key, at, state, key, 0);
    }
  }

  lemma {:induction false} ClipOthers(log: seq<Interval>, key: Key, at: int, other: Key, state: Activity, after: int)
    requires other != key
    ensures Sum(Clip(log, key, at), other, state, after) == Sum(log, other, state, after)
    decreases |log|
  {
    if log != [] {
      ClipOthers(log[..|log| - 1], key, at, other, state, after);
      ClipLast(log, key, at, state, other, after);
    }
  }

  lemma {:induction false} SumPositive(log: seq<Interval>, key: Key, bound: int, i: int)
    requires Ordered(log, bound) && 0 <= i < |log| && log[i].key == key
    requires (log[i].state.Working? || log[i].state.Waiting?)
    ensures Sum(log, key, Working, 0) + Sum(log, key, Waiting, 0) > 0
    decreases |log|
  {
    var x, rest := log[|log| - 1], log[..|log| - 1];
    OrderedPositive(rest, x.from);
    SumNonNegative(rest, key, Working, 0);
    SumNonNegative(rest, key, Waiting, 0);
    if i < |log| - 1 {
      assert rest[i] == log[i];
      SumPositive(rest, key, x.from, i);
    }
  }

  lemma {:induction false} SumNonNegative(log: seq<Interval>, key: Key, state: Activity, after: int)
    ensures Sum(log, key, state, after) >= 0
    decreases |log|
  {
    if log != [] { SumNonNegative(log[..|log| - 1], key, state, after); }
  }

  // ---------------------------------------------------------------------------------------------
  // Nothing but the part after a cut is taken back

  function LengthAfter(x: Interval, at: int): int { Max(0, x.to - Max(x.from, at)) }

  function Length(log: seq<Interval>): int
    decreases |log|
  {
    if log == [] then 0 else Length(log[..|log| - 1]) + Max(0, log[|log| - 1].to - log[|log| - 1].from)
  }

  /** The time of one record after a moment. */
  function Beyond(log: seq<Interval>, key: Key, at: int): int
    decreases |log|
  {
    if log == [] then 0 else
    Beyond(log[..|log| - 1], key, at) + if log[|log| - 1].key == key then LengthAfter(log[|log| - 1], at) else 0
  }

  lemma LengthAppend(log: seq<Interval>, x: Interval)
    ensures Length(log + [x]) == Length(log) + Max(0, x.to - x.from)
  {
    assert (log + [x])[..|log|] == log;
  }

  lemma BeyondAppend(log: seq<Interval>, x: Interval, key: Key, at: int)
    ensures Beyond(log + [x], key, at) == Beyond(log, key, at) + if x.key == key then LengthAfter(x, at) else 0
  {
    assert (log + [x])[..|log|] == log;
  }

  lemma {:induction false} ClipLength(log: seq<Interval>, key: Key, at: int)
    ensures Length(Clip(log, key, at)) + Beyond(log, key, at) == Length(log)
    decreases |log|
  {
    if log != [] {
      var x, rest := log[|log| - 1], Clip(log[..|log| - 1], key, at);
      ClipLength(log[..|log| - 1], key, at);
      LengthAppend(rest, x);
      LengthAppend(rest, x.(to := Min(x.to, at)));
    }
  }

  function CopyOf(copies: map<string, nat>, id: string): nat { if id in copies then copies[id] else 0 }

  /** The interval belongs to the present record of a turn that is cut. */
  predicate IsCut(x: Interval, cuts: map<string, int>, copies: map<string, nat>) {
    x.key.turn in cuts && x.key.copy == CopyOf(copies, x.key.turn)
  }

  /** The intervals of several records cut at their moments. */
  function Trimmed(log: seq<Interval>, cuts: map<string, int>, copies: map<string, nat>): seq<Interval>
    decreases |log|
  {
    if log == [] then [] else
    var x, rest := log[|log| - 1], Trimmed(log[..|log| - 1], cuts, copies);
    if !IsCut(x, cuts, copies) then rest + [x]
    else if x.from >= cuts[x.key.turn] then rest
    else rest + [x.(to := Min(x.to, cuts[x.key.turn]))]
  }

  /** How much of the list that takes back. */
  function Taken(log: seq<Interval>, cuts: map<string, int>, copies: map<string, nat>): int
    decreases |log|
  {
    if log == [] then 0 else
    var x := log[|log| - 1];
    Taken(log[..|log| - 1], cuts, copies) + if IsCut(x, cuts, copies) then LengthAfter(x, cuts[x.key.turn]) else 0
  }

  lemma {:induction false} TrimmedLength(log: seq<Interval>, cuts: map<string, int>, copies: map<string, nat>)
    ensures Length(Trimmed(log, cuts, copies)) + Taken(log, cuts, copies) == Length(log)
    decreases |log|
  {
    if log != [] {
      var x, rest := log[|log| - 1], Trimmed(log[..|log| - 1], cuts, copies);
      TrimmedLength(log[..|log| - 1], cuts, copies);
      LengthAppend(rest, x);
      if IsCut(x, cuts, copies) { LengthAppend(rest, x.(to := Min(x.to, cuts[x.key.turn]))); }
    }
  }

  lemma {:induction false} TrimmedNone(log: seq<Interval>, copies: map<string, nat>)
    ensures Trimmed(log, map[], copies) == log && Taken(log, map[], copies) == 0
    decreases |log|
  {
    if log != [] { TrimmedNone(log[..|log| - 1], copies); }
  }

  lemma ClipAppend(log: seq<Interval>, x: Interval, key: Key, at: int)
    ensures Clip(log + [x], key, at) == Clip(log, key, at) +
              if x.key != key then [x] else if x.from >= at then [] else [x.(to := Min(x.to, at))]
  {
    assert (log + [x])[..|log|] == log;
  }

  /** The records are cut one after the other, in any order. */
  lemma {:induction false} TrimmedNext(
    log: seq<Interval>, cuts: map<string, int>, copies: map<string, nat>, id: string, at: int)
    requires id !in cuts
    ensures var done, key := Trimmed(log, cuts, copies), Key(id, CopyOf(copies, id));
            && Trimmed(log, cuts[id := at], copies) == Clip(done, key, at)
            && Taken(log, cuts[id := at], copies) == Taken(log, cuts, copies) + Beyond(done, key, at)
    decreases |log|
  {
    if log != [] {
      var x, rest := log[|log| - 1], log[..|log| - 1];
      var done, key := Trimmed(rest, cuts, copies), Key(id, CopyOf(copies, id));
      TrimmedNext(rest, cuts, copies, id, at);
      assert IsCut(x, cuts[id := at], copies) <==> IsCut(x, cuts, copies) || x.key == key;
      if !IsCut(x, cuts, copies) {
        ClipAppend(done, x, key, at);
        BeyondAppend(done, x, key, at);
      } else if x.from < cuts[x.key.turn] {
        ClipAppend(done, x.(to := Min(x.to, cuts[x.key.turn])), key, at);
        BeyondAppend(done, x.(to := Min(x.to, cuts[x.key.turn])), key, at);
      }
    }
  }

  // ---------------------------------------------------------------------------------------------
  // The compact form refines the list

  predicate Totals(t: Timing, log: seq<Interval>, key: Key) {
    && t.working == Sum(log, key, Working, 0) && t.waiting == Sum(log, key, Waiting, 0)
    && t.tailWork == Sum(log, key, Working, t.tailSecond) && t.tailWait == Sum(log, key, Waiting, t.tailSecond)
  }

  predicate Within(t: Timing, log: seq<Interval>, key: Key) {
    forall i :: 0 <= i < |log| && log[i].key == key ==>
      0 < t.first <= log[i].from && log[i].to <= t.through && !log[i].state.Idle? && !log[i].state.Unclassified?
  }

  predicate Refines(t: Timing, log: seq<Interval>, key: Key) {
    Totals(t, log, key) && Within(t, log, key) && t.tailSecond == SecondOf(t.through) && 0 <= t.first <= t.through
  }

  lemma NewRefines(log: seq<Interval>, key: Key)
    requires forall i :: 0 <= i < |log| ==> log[i].key != key
    ensures Refines(NoTiming, log, key)
  {
    SumAfterEnd(log, key, Working, 0);
    SumAfterEnd(log, key, Waiting, 0);
  }

  lemma TailAfterAdd(t: Timing, log: seq<Interval>, key: Key, from: int, to: int, state: Activity)
    requires Refines(t, log, key) && t.through <= from < to && (state.Working? || state.Waiting?)
    ensures Sum(log, key, state, SecondOf(to)) == if SecondOf(to) != t.tailSecond then 0
            else if state.Working? then t.tailWork else t.tailWait
  {
    if SecondOf(to) != t.tailSecond {
      assert SecondOf(to) > t.through;
      SumAfterEnd(log, key, state, SecondOf(to));
    }
  }

  lemma AddRefines(t: Timing, log: seq<Interval>, x: Interval)
    requires Refines(t, log, x.key) && t.through <= x.from < x.to && x.from > 0
    requires (x.state.Working? || x.state.Waiting?)
    ensures Refines(Add(t, x.state, x.from, x.to), log + [x], x.key)
  {
    var second := SecondOf(x.to);
    SumAppend(log, x, x.key, Working, 0);
    SumAppend(log, x, x.key, Waiting, 0);
    SumAppend(log, x, x.key, Working, second);
    SumAppend(log, x, x.key, Waiting, second);
    TailAfterAdd(t, log, x.key, x.from, x.to, Working);
    TailAfterAdd(t, log, x.key, x.from, x.to, Waiting);
    assert Within(Add(t, x.state, x.from, x.to), log + [x], x.key) by {
      assert forall i :: 0 <= i < |log| ==> (log + [x])[i] == log[i];
    }
  }

  lemma OtherRefines(t: Timing, log: seq<Interval>, x: Interval, key: Key)
    requires Refines(t, log, key) && x.key != key
    ensures Refines(t, log + [x], key)
  {
    SumAppend(log, x, key, Working, 0);
    SumAppend(log, x, key, Waiting, 0);
    SumAppend(log, x, key, Working, t.tailSecond);
    SumAppend(log, x, key, Waiting, t.tailSecond);
  }

  lemma ClippedWithin(log: seq<Interval>, key: Key, at: int, j: int)
    requires 0 <= j < |Clip(log, key, at)| && Clip(log, key, at)[j].key == key
    ensures Clip(log, key, at)[j].to <= at
  {
    ClipElements(log, key, at, j);
  }

  lemma CutTotals(t: Timing, log: seq<Interval>, key: Key, at: int, bound: int)
    requires Refines(t, log, key) && Clips(t, at) && Ordered(log, bound) && at > 0
    ensures Totals(Cut(t, at), Clip(log, key, at), key)
  {
    var clipped := Clip(log, key, at);
    ClipSum(log, key, at, Working, bound);
    ClipSum(log, key, at, Waiting, bound);
    forall j | 0 <= j < |clipped| && clipped[j].key == key ensures clipped[j].to <= at {
      ClippedWithin(log, key, at, j);
    }
    SumAfterEnd(clipped, key, Working, at);
    SumAfterEnd(clipped, key, Waiting, at);
  }

  lemma CutWithinAt(t: Timing, log: seq<Interval>, key: Key, at: int, bound: int, j: int)
    requires Refines(t, log, key) && Clips(t, at) && Ordered(log, bound) && at > 0
    requires Totals(Cut(t, at), Clip(log, key, at), key)
    requires 0 <= j < |Clip(log, key, at)| && Clip(log, key, at)[j].key == key
    ensures var x := Clip(log, key, at)[j];
            && Cut(t, at).first == t.first && t.first <= at
            && 0 < t.first <= x.from && x.to <= at && !x.state.Idle? && !x.state.Unclassified?
  {
    var clipped := Clip(log, key, at);
    ClipElements(log, key, at, j);
    ClipOrdered(log, key, at, bound);
    OrderedAt(clipped, bound, j);
    SumPositive(clipped, key, bound, j);
  }

  /** Cutting the totals in the last recorded second gives the totals of the clipped intervals. */
  lemma CutRefines(t: Timing, log: seq<Interval>, key: Key, at: int, bound: int)
    requires Refines(t, log, key) && Clips(t, at) && Ordered(log, bound) && at > 0
    ensures Refines(Cut(t, at), Clip(log, key, at), key)
  {
    var clipped, u := Clip(log, key, at), Cut(t, at);
    CutTotals(t, log, key, at, bound);
    forall j | 0 <= j < |clipped| && clipped[j].key == key
      ensures 0 < u.first <= clipped[j].from && u.first <= at && clipped[j].to <= at && !clipped[j].state.Idle?
      ensures !clipped[j].state.Unclassified?
    {
      CutWithinAt(t, log, key, at, bound, j);
    }
    if forall j :: 0 <= j < |clipped| ==> clipped[j].key != key {
      SumAfterEnd(clipped, key, Working, 0);
      SumAfterEnd(clipped, key, Waiting, 0);
    }
  }

  lemma OtherCutRefines(t: Timing, log: seq<Interval>, key: Key, at: int, other: Key)
    requires Refines(t, log, other) && other != key
    ensures Refines(t, Clip(log, key, at), other)
  {
    var clipped := Clip(log, key, at);
    ClipOthers(log, key, at, other, Working, 0);
    ClipOthers(log, key, at, other, Waiting, 0);
    ClipOthers(log, key, at, other, Working, t.tailSecond);
    ClipOthers(log, key, at, other, Waiting, t.tailSecond);
    forall j | 0 <= j < |clipped| && clipped[j].key == other
      ensures 0 < t.first <= clipped[j].from && clipped[j].to <= t.through && !clipped[j].state.Idle?
      ensures !clipped[j].state.Unclassified?
    {
      ClipElements(log, key, at, j);
    }
  }

  /** The metadata of a turn cut its record back. */
  predicate Shortens(r: TurnRecord, b: Bounds) { !r.final && Closes(b) && Clips(r.timing, b.completedAt) }

  /** The interval list once a record took in the metadata of its turn. */
  function AfterMetadata(r: TurnRecord, b: Bounds, log: seq<Interval>, key: Key): seq<Interval> {
    if Shortens(r, b) then Clip(log, key, b.completedAt) else log
  }

  /** How much of the list that takes back. */
  function CutOff(r: TurnRecord, b: Bounds, log: seq<Interval>, key: Key): int {
    if Shortens(r, b) then Beyond(log, key, b.completedAt) else 0
  }

  /** What the metadata of a turn makes of a record that is not final: it takes the start that is given, and
      of a turn that ended the end; it is final once both are known, and its bounds are not known if it holds time
      outside of them. */
  lemma MetadataExactly(r: TurnRecord, b: Bounds)
    requires !r.final
    ensures var s, ended := ApplyMetadata(r, b), b.completedAt > 0 && b.status in {Completed, Failed, Interrupted};
            && s.id == b.id && s.sequence == r.sequence + 1
            && s.startedAt == (if b.startedAt == 0 then r.startedAt else b.startedAt)
            && s.completedAt == (if ended then b.completedAt else r.completedAt)
            && (s.final <==> ended && s.startedAt > 0)
            && (!ended ==> s.timing == r.timing && s.boundsUnknown == r.boundsUnknown)
            && (ended ==>
                  (s.boundsUnknown <==> r.boundsUnknown || b.completedAt < s.timing.through
                                        || 0 < s.timing.first < s.startedAt))
            && (s.timing != r.timing ==> ended && b.completedAt < r.timing.through)
  {
  }

  /** A record that is final changes no more. */
  lemma FinalStays(r: TurnRecord, b: Bounds)
    requires r.final
    ensures ApplyMetadata(r, b) == r
  {
  }

  lemma MetadataRefines(r: TurnRecord, b: Bounds, log: seq<Interval>, key: Key, bound: int)
    requires Refines(r.timing, log, key) && Ordered(log, bound)
    ensures Refines(ApplyMetadata(r, b).timing, AfterMetadata(r, b, log, key), key)
  {
    if !r.final && Closes(b) && Clips(r.timing, b.completedAt) { CutRefines(r.timing, log, key, b.completedAt, bound); }
  }

  /** A record that becomes final with known bounds holds only time between them: nothing it counts lies
      before the start or after the completion, and everything it had counted between them is kept. */
  lemma FinishedWithinBounds(r: TurnRecord, b: Bounds, log: seq<Interval>, key: Key, bound: int)
    requires Refines(r.timing, log, key) && Ordered(log, bound) && !r.final
    requires ApplyMetadata(r, b).final && !ApplyMetadata(r, b).boundsUnknown
    ensures var s, l := ApplyMetadata(r, b), AfterMetadata(r, b, log, key);
            && s.completedAt == b.completedAt
            && s.timing.working == Sum(log, key, Working, 0) - Sum(log, key, Working, b.completedAt)
            && s.timing.waiting == Sum(log, key, Waiting, 0) - Sum(log, key, Waiting, b.completedAt)
            && forall i :: 0 <= i < |l| && l[i].key == key ==> s.startedAt <= l[i].from && l[i].to <= s.completedAt
  {
    MetadataRefines(r, b, log, key, bound);
    if !Clips(r.timing, b.completedAt) {
      SumAfterEnd(log, key, Working, b.completedAt);
      SumAfterEnd(log, key, Waiting, b.completedAt);
    }
  }
}
