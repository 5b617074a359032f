/** What the storage of the activity recorder promises over whole runs (codex/activity_store.go:189-312,
    399-447): stored records only get newer, memory gives a record up only when it is stored or when its thread
    ends badly, and a flush that returns has stored what memory held. */
module ActivityDurability {
  import opened Prelude
  import opened ActivityStore

  predicate IsRun(s: State, steps: seq<Step>)
    decreases |steps|
  {
    steps == [] || (Enabled(s, steps[0]) && IsRun(Apply(s, steps[0]), steps[1..]))
  }

  function After(s: State, steps: seq<Step>): State
    requires IsRun(s, steps)
    decreases |steps|
  {
    if steps == [] then s else After(Apply(s, steps[0]), steps[1..])
  }

  /** No write goes over a newer summary that could not be read. */
  predicate Readable(s: State, steps: seq<Step>)
    requires IsRun(s, steps)
    decreases |steps|
  {
    steps == [] || (!Overwrites(s, steps[0]) && Readable(Apply(s, steps[0]), steps[1..]))
  }

  lemma DownIsGood(s: State)
    requires s.mem.Down?
    ensures Good(s)
  {
  }

  /** Over any interleaving of captures, passes, reads, closings and crashes, the newest stored copy of every
      turn record only ever gets newer. */
  lemma {:induction false} StoredNeverRegresses(s: State, steps: seq<Step>, id: string)
    requires Good(s) && IsRun(s, steps) && Readable(s, steps)
    ensures Good(After(s, steps)) && Stored(After(s, steps).disk, id) >= Stored(s.disk, id)
    decreases |steps|
  {
    if steps != [] {
      StepKeeps(s, steps[0]);
      StepNeverRegresses(s, steps[0], id);
      StoredNeverRegresses(Apply(s, steps[0]), steps[1..], id);
    }
  }

  // ---------------------------------------------------------------------------------------------
  // Giving up a record

  /** A copy at least that new is stored, or in the memory of a thread that can be found. */
  predicate Holds(s: State, id: string, q: nat) {
    Stored(s.disk, id) >= q || (s.mem.Up? && !s.mem.phase.Gone? && SeqOf(s.mem.hot, id) >= q)
  }

  predicate Closing(s: State) { PassOf(s.mem).Some? && PassOf(s.mem).value.closing }

  function PassOf(m: Memory): Option<Pass> {
    if m.Up? && m.phase.Writing? then Some(m.phase.pass) else if m.Up?
      && m.phase.Landed? then Some(m.phase.pass) else None
  }

  /** The last pass of a closing thread fails, or is never made because the thread could not be loaded. */
  predicate FailedClosing(s: State, step: Step) {
    || step.Leave?
    || (Closing(s) && (step.Abort? || (step.Store? && !step.outcome.Written?)
          || (step.Checkpoint? && !step.outcome.Written?)))
  }

  /** The last pass succeeds, but the record changed since it was copied. */
  predicate LateChange(s: State, step: Step, id: string) {
    step.End? && Closing(s) && SeqOf(s.mem.hot, id) > SeqOf(PassOf(s.mem).value.snapshot, id)
  }

  /** What a landed pass copied is stored. */
  lemma LandedIsStored(s: State, id: string)
    requires Good(s) && s.mem.Up? && s.mem.phase.Landed?
    ensures Stored(s.disk, id) >= SeqOf(s.mem.phase.pass.snapshot, id)
  {
    assert GoodAt(s, id);
  }

  /** Exactly when a step gives up a record that is not stored: a crash, a failed last pass of a closing thread, or
      a change that came too late for it. */
  lemma GivenUpExactlyWhen(s: State, step: Step, id: string, q: nat)
    requires Good(s) && Enabled(s, step) && !Overwrites(s, step) && Holds(s, id, q)
    ensures !Holds(Apply(s, step), id, q) <==>
            Stored(Apply(s, step).disk, id) < q && (step.Crash? || FailedClosing(s, step) || LateChange(s, step, id))
  {
    assert GoodAt(s, id);
    StepNeverRegresses(s, step, id);
    if step.End? { LandedIsStored(s, id); }
  }

  /** A step of a pass that is not the last, and any other step of a thread, drops only what is stored. */
  predicate Keeps(s: State, step: Step, id: string) {
    !step.Crash? && !FailedClosing(s, step) && !LateChange(s, step, id)
  }

  predicate KeepsAlong(s: State, steps: seq<Step>, id: string)
    requires IsRun(s, steps)
    decreases |steps|
  {
    steps == [] || (Keeps(s, steps[0], id) && KeepsAlong(Apply(s, steps[0]), steps[1..], id))
  }

  /** As long as there is no crash and no last pass goes wrong, a captured record is in memory or stored, as it was or
      newer, also after its thread was closed and loaded again. */
  lemma {:induction false} CapturedIsHeld(s: State, steps: seq<Step>, id: string, q: nat)
    requires Good(s) && IsRun(s, steps) && Readable(s, steps) && KeepsAlong(s, steps, id) && Holds(s, id, q)
    ensures Holds(After(s, steps), id, q)
    decreases |steps|
  {
    if steps != [] {
      StepKeeps(s, steps[0]);
      GivenUpExactlyWhen(s, steps[0], id, q);
      CapturedIsHeld(Apply(s, steps[0]), steps[1..], id, q);
    }
  }

  // ---------------------------------------------------------------------------------------------
  // What a flush waits for

  predicate Serving(s: State) { Working(s.mem) && !s.mem.phase.Loading? }

  /** The flush of a record at revision `target` is on its way or done. */
  predicate Flushing(s: State, target: nat, id: string, q: nat) {
    && s.mem.Up? && !s.mem.phase.Loading? && !s.mem.phase.Broken?
    && (Serving(s) ==> Holds(s, id, q))
    && (PassOf(s.mem).Some? && PassOf(s.mem).value.revision >= target ==>
          SeqOf(PassOf(s.mem).value.snapshot, id) >= q || Stored(s.disk, id) >= q)
    && (s.mem.saved >= target ==> Stored(s.disk, id) >= q)
  }

  /** The thread stays the same one. */
  predicate SameThread(step: Step) { !step.Crash? && !step.Start? && !step.StartBroken? }

  lemma StepFlushing(s: State, step: Step, target: nat, id: string, q: nat)
    requires Good(s) && Enabled(s, step) && !Overwrites(s, step) && SameThread(step) && Flushing(s, target, id, q)
    ensures Flushing(Apply(s, step), target, id, q)
  {
    if Serving(s) { GivenUpExactlyWhen(s, step, id, q); }
    StepNeverRegresses(s, step, id);
    if step.End? { LandedIsStored(s, id); }
  }

  predicate AllSameThread(steps: seq<Step>) { forall i :: 0 <= i < |steps| ==> SameThread(steps[i]) }

  lemma {:induction false} FlushAlong(s: State, steps: seq<Step>, target: nat, id: string, q: nat)
    requires Good(s) && IsRun(s, steps) && Readable(s, steps) && AllSameThread(steps) && Flushing(s, target, id, q)
    ensures Flushing(After(s, steps), target, id, q)
    decreases |steps|
  {
    if steps != [] {
      StepKeeps(s, steps[0]);
      StepFlushing(s, steps[0], target, id, q);
      FlushAlong(Apply(s, steps[0]), steps[1..], target, id, q);
    }
  }

  /** A flush that is called now may return after these steps: the saved revision has reached the present one. */
  predicate FlushReturns(s: State, steps: seq<Step>) {
    && s.mem.Up? && IsRun(s, steps) && Readable(s, steps) && AllSameThread(steps)
    && After(s, steps).mem.Up? && After(s, steps).mem.saved >= s.mem.revision
  }

  /** The record is in what the saved revision, or a pass at the present revision, stands for. */
  predicate Caught(s: State, id: string)
    requires s.mem.Up? && id in s.mem.hot
  {
    Flushing(s, s.mem.revision, id, s.mem.hot[id].sequence)
  }

  // ---------------------------------------------------------------------------------------------
  // A pass can always be finished

  lemma Prepend(s: State, step: Step, rest: seq<Step>)
    requires Enabled(s, step) && !Overwrites(s, step) && SameThread(step)
    requires IsRun(Apply(s, step), rest) && Readable(Apply(s, step), rest) && AllSameThread(rest)
    ensures var steps := [step] + rest;
            && IsRun(s, steps) && Readable(s, steps) && AllSameThread(steps)
            && After(s, steps) == After(Apply(s, step), rest)
  {
    assert ([step] + rest)[0] == step && ([step] + rest)[1..] == rest;
  }

  /** Storing a pass stores nothing newer than what it copied. */
  lemma PassStoresItsCopy(s: State, step: Step, id: string)
    requires Good(s) && Enabled(s, step) && PassOf(s.mem).Some? && (PassStep(step) || step.Store?)
    ensures Stored(Apply(s, step).disk, id) <= Max(Stored(s.disk, id), SeqOf(PassOf(s.mem).value.snapshot, id))
  {
    assert GoodAt(s, id);
  }

  /** The next step of a pass when nothing fails. */
  function NextStep(s: State, x: string): Step
    requires IsWriting(s)
  {
    var p := s.mem.phase.pass;
    if p.landing.Some? then Remember
    else if InPass(s, x) && Superseded(s, x, true) then Skip(x)
    else if InPass(s, x) then Store(x, true, Written)
    else Checkpoint(Written)
  }

  function Remaining(s: State): nat
    requires PassOf(s.mem).Some?
  {
    if s.mem.phase.Landed? then 0 else
    1 + 2 * |s.mem.phase.pass.todo| + if s.mem.phase.pass.landing.Some? then 1 else 0
  }

  lemma NextStepAdvances(s: State, x: string)
    requires Good(s) && IsWriting(s) && (x in s.mem.phase.pass.todo || s.mem.phase.pass.todo == {})
    ensures var step := NextStep(s, x);
            && Enabled(s, step) && !Overwrites(s, step) && SameThread(step) && (PassStep(step) || step.Store?)
            && PassOf(Apply(s, step).mem).Some? && Remaining(Apply(s, step)) < Remaining(s)
            && PassOf(Apply(s, step).mem).value.snapshot == s.mem.phase.pass.snapshot
            && PassOf(Apply(s, step).mem).value.revision == s.mem.phase.pass.revision
  {
    var p := s.mem.phase.pass;
    assert GoodAt(s, x);
    if p.landing.Some? { assert GoodAt(s, p.landing.value); }
  }

  lemma {:induction false} FinishPass(s: State, id: string) returns (steps: seq<Step>)
    requires Good(s) && PassOf(s.mem).Some?
    ensures IsRun(s, steps) && Readable(s, steps) && AllSameThread(steps)
    ensures After(s, steps).mem.Up? && After(s, steps).mem.saved == PassOf(s.mem).value.revision
    ensures Stored(After(s, steps).disk, id) <= Max(Stored(s.disk, id), SeqOf(PassOf(s.mem).value.snapshot, id))
    decreases Remaining(s)
  {
    if s.mem.phase.Landed? {
      Prepend(s, End, []);
      steps := [End] + [];
    } else {
      var x := "";
      if s.mem.phase.pass.todo != {} { x :| x in s.mem.phase.pass.todo; }
      var step := NextStep(s, x);
      NextStepAdvances(s, x);
      StepKeeps(s, step);
      PassStoresItsCopy(s, step, id);
      var rest := FinishPass(Apply(s, step), id);
      Prepend(s, step, rest);
      steps := [step] + rest;
    }
  }

  /** Every flush that returns has stored a record as memory held it at the call if and only if the record is in what
      the saved revision or a pass at the present revision stands for. */
  lemma FlushStoresExactlyWhen(s: State, id: string)
    requires Good(s) && Serving(s) && id in s.mem.hot
    ensures Caught(s, id) <==>
            forall steps :: FlushReturns(s, steps) ==> Stored(After(s, steps).disk, id) >= s.mem.hot[id].sequence
  {
    var q := s.mem.hot[id].sequence;
    if Caught(s, id) {
      forall steps | FlushReturns(s, steps) ensures Stored(After(s, steps).disk, id) >= q {
        FlushAlong(s, steps, s.mem.revision, id, q);
      }
    } else if s.mem.saved >= s.mem.revision && Stored(s.disk, id) < q {
      assert FlushReturns(s, []);
    } else {
      var steps := FinishPass(s, id);
      assert FlushReturns(s, steps);
    }
  }

  // ---------------------------------------------------------------------------------------------
  // The same condition in terms of what happened

  /** The turns whose record was changed without a signal: since the last pass copied memory, and since the
      last pass that succeeded did. */
  datatype Quiet = Quiet(sinceCopy: set<string>, sinceSaved: set<string>)

  const NothingQuiet := Quiet({}, {})

  /** A capture that changes a record without raising the revision. */
  predicate Silent(s: State, step: Step) {
    step.Capture? && !step.signalled && s.mem.Up? && !(step.id in s.mem.hot && s.mem.hot[step.id] == step.record)
  }

  function Noted(x: Quiet, s: State, step: Step): Quiet {
    if step.Begin? then x.(sinceCopy := {})
    else if step.End? then x.(sinceSaved := x.sinceCopy)
    else if step.Start? || step.Loaded? then NothingQuiet
    else if Silent(s, step) then Quiet(x.sinceCopy + {step.id}, x.sinceSaved + {step.id})
    else x
  }

  function NotedAlong(x: Quiet, s: State, steps: seq<Step>): Quiet
    requires IsRun(s, steps)
    decreases |steps|
  {
    if steps == [] then x else NotedAlong(Noted(x, s, steps[0]), Apply(s, steps[0]), steps[1..])
  }

  /** What was saved at the present revision is stored, unless it changed silently since. */
  predicate SavedAt(s: State, x: Quiet, id: string)
    requires s.mem.Up?
  {
    s.mem.saved == s.mem.revision && id in s.mem.hot && id !in x.sinceSaved ==>
      Stored(s.disk, id) >= s.mem.hot[id].sequence
  }

  /** A pass at the present revision copied what memory holds, except for what changed silently since. */
  predicate CopiedAt(s: State, x: Quiet, id: string) {
    PassOf(s.mem).Some? && PassOf(s.mem).value.revision == s.mem.revision ==>
      var copied := SeqOf(PassOf(s.mem).value.snapshot, id);
      if id in x.sinceCopy then SeqOf(s.mem.hot, id) > copied else SeqOf(s.mem.hot, id) == copied
  }

  predicate TrackedAt(s: State, x: Quiet, id: string) {
    && (s.mem.Up? && s.mem.phase.Loading? ==> s.mem.saved == 0)
    && (Serving(s) ==>
          && s.mem.saved <= s.mem.revision && SavedAt(s, x, id) && CopiedAt(s, x, id)
          && (PassOf(s.mem).Some? ==> PassOf(s.mem).value.revision <= s.mem.revision))
  }

  lemma TrackedStep(s: State, x: Quiet, step: Step, id: string)
    requires Good(s) && Enabled(s, step) && !Overwrites(s, step) && TrackedAt(s, x, id)
    ensures TrackedAt(Apply(s, step), Noted(x, s, step), id)
  {
    assert GoodAt(s, id);
    StepNeverRegresses(s, step, id);
    if step.End? { LandedIsStored(s, id); }
  }

  lemma {:induction false} TrackedAlong(s: State, x: Quiet, steps: seq<Step>, id: string)
    requires Good(s) && IsRun(s, steps) && Readable(s, steps) && TrackedAt(s, x, id)
    ensures Good(After(s, steps)) && TrackedAt(After(s, steps), NotedAlong(x, s, steps), id)
    decreases |steps|
  {
    if steps != [] {
      StepKeeps(s, steps[0]);
      TrackedStep(s, x, steps[0], id);
      TrackedAlong(Apply(s, steps[0]), Noted(x, s, steps[0]), steps[1..], id);
    }
  }

  /** The record is newer than what is stored, and changed silently since the pass that a flush would rely on
      copied it. */
  predicate Slipped(s: State, x: Quiet, id: string)
    requires s.mem.Up? && id in s.mem.hot
  {
    && Stored(s.disk, id) < s.mem.hot[id].sequence
    && (|| (s.mem.saved == s.mem.revision && id in x.sinceSaved)
        || (PassOf(s.mem).Some? && PassOf(s.mem).value.revision == s.mem.revision && id in x.sinceCopy))
  }

  /** After any run from a stopped process: every flush that returns has stored a record as memory held it at
      the call if and only if the record did not change silently since it was copied by the pass at the present
      revision. */
  lemma FlushIsDurableExactlyWhen(d: Disk, before: seq<Step>, id: string)
    requires IsRun(State(d, Down), before) && Readable(State(d, Down), before)
    requires Serving(After(State(d, Down), before)) && id in After(State(d, Down), before).mem.hot
    ensures var s := After(State(d, Down), before);
            var x := NotedAlong(NothingQuiet, State(d, Down), before);
            !Slipped(s, x, id) <==>
            forall steps :: FlushReturns(s, steps) ==> Stored(After(s, steps).disk, id) >= s.mem.hot[id].sequence
  {
    var s := After(State(d, Down), before);
    DownIsGood(State(d, Down));
    TrackedAlong(State(d, Down), NothingQuiet, before, id);
    FlushStoresExactlyWhen(s, id);
    assert GoodAt(s, id);
  }

  // ---------------------------------------------------------------------------------------------
  // The contents of a stored record

  /** A summary file changes exactly when a pass stores another record over it; its sequence is then no lower. */
  lemma SummaryChangesExactlyWhen(s: State, step: Step, id: string)
    requires Good(s) && Enabled(s, step) && !Overwrites(s, step) && id in s.disk.summaries
    ensures id in Apply(s, step).disk.summaries
    ensures Apply(s, step).disk.summaries[id] != s.disk.summaries[id] <==>
            && step.Store? && step.id == id && !step.outcome.LostBefore?
            && s.mem.phase.pass.snapshot[id] != s.disk.summaries[id]
    ensures Apply(s, step).disk.summaries[id].sequence >= s.disk.summaries[id].sequence
  {
    StepNeverRegresses(s, step, id);
  }

  /** A record that memory drops is in its file as it was exactly when the file holds no newer sequence; a record
      that was started again below the stored sequence is dropped for the older contents. */
  lemma DroppedIsStoredExactlyWhen(s: State, id: string)
    requires Good(s) && s.mem.Up? && s.mem.phase.Landed? && id in s.mem.hot
    requires id !in Dropped(s.mem.hot, s.mem.phase.pass.snapshot)
    ensures id in s.disk.summaries
    ensures s.disk.summaries[id] == s.mem.hot[id] <==> s.disk.summaries[id].sequence <= s.mem.hot[id].sequence
  {
    assert GoodAt(s, id);
  }

  // ---------------------------------------------------------------------------------------------
  // What memory keeps

  /** At the end of a pass memory drops exactly the final records that the pass copied and that have not
      changed since. */
  lemma EndDropsExactlyWhen(s: State, id: string)
    requires Enabled(s, End)
    ensures var p, hot, left := s.mem.phase.pass, s.mem.hot, Apply(s, End).mem.hot;
            && (id in left <==> id in hot && !(id in p.snapshot && p.snapshot[id] == hot[id] && hot[id].final))
            && (id in left ==> left[id] == hot[id]) && Apply(s, End).mem.saved == p.revision
  {
  }

  /** Closing a thread makes every record final, under a new sequence if it was not, and is noticed by the next pass. */
  lemma CloseFinalises(s: State, id: string)
    requires Enabled(s, Close) && id in s.mem.hot
    ensures var r, u := s.mem.hot[id], Apply(s, Close).mem;
            && u.hot.Keys == s.mem.hot.Keys && u.hot[id].final && u.hot[id].body == r.body
            && u.hot[id].sequence == (if r.final then r.sequence else r.sequence + 1)
            && u.closing && u.revision > s.mem.revision
  {
  }

  /** A read that is done leaves the newer of what it found and what was known by then. */
  lemma ReadDoneKeepsNewest(s: State, reader: nat)
    requires Enabled(s, ReadDone(reader))
    ensures var r, u := s.mem.inFlight[reader], Apply(s, ReadDone(reader)).mem;
            var found := if r.value.Some? then r.value.value.sequence else -1;
            && r.id in u.cache && CacheSeq(u.cache, r.id) == Max(CacheSeq(s.mem.cache, r.id), found)
            && reader !in u.inFlight
            && forall id :: id != r.id ==> (id in u.cache <==> id in s.mem.cache)
  {
  }

  /** A pass copies all of memory, and has the final records to look at. */
  lemma BeginCopies(s: State)
    requires Enabled(s, Begin)
    ensures var p := Apply(s, Begin).mem.phase.pass;
            && p.snapshot == s.mem.hot && p.revision == s.mem.revision && p.closing == s.mem.closing
            && forall id :: id in p.todo <==> id in s.mem.hot && s.mem.hot[id].final
  {
  }

  // ---------------------------------------------------------------------------------------------
  // Loading a thread

  /** The checkpoint has a record that no stored summary makes superfluous. */
  predicate Outlives(d: Disk, id: string) {
    id in d.current && (id in d.summaries ==> d.summaries[id].sequence < d.current[id].sequence)
  }

  /** The records looked at so far are loaded if they outlive their summaries, and the others are still there. */
  predicate LoadingAt(s: State, d: Disk, id: string) {
    && s.disk == d && s.mem.Up? && s.mem.phase.Loading? && (id in s.mem.cache ==> s.mem.cache[id] == FromDisk(d, id))
    && (id in s.mem.phase.todo ==> id in d.current && id in s.mem.phase.loaded)
    && (id !in s.mem.phase.todo ==> (id in s.mem.phase.loaded <==> Outlives(d, id)))
    && (id in s.mem.phase.loaded ==> id in d.current && s.mem.phase.loaded[id] == d.current[id])
  }

  predicate AllLooks(steps: seq<Step>) { forall i :: 0 <= i < |steps| ==> steps[i].Look? && steps[i].readable }

  lemma {:induction false} LoadingAlong(s: State, d: Disk, steps: seq<Step>, id: string)
    requires IsRun(s, steps) && AllLooks(steps) && LoadingAt(s, d, id)
    requires forall x :: LoadingAt(s, d, x)
    ensures LoadingAt(After(s, steps), d, id)
    decreases |steps|
  {
    if steps != [] {
      var t := Apply(s, steps[0]);
      assert LoadingAt(s, d, steps[0].id);
      forall x ensures LoadingAt(t, d, x) { assert LoadingAt(s, d, x); }
      LoadingAlong(t, d, steps[1..], id);
    }
  }

  /** A thread that is loaded while its summaries can be read has in memory exactly the records of the
      checkpoint that no stored summary makes superfluous. */
  lemma LoadedExactlyWhen(d: Disk, looks: seq<Step>, id: string)
    requires AllLooks(looks) && IsRun(Apply(State(d, Down), Start), looks)
    requires Enabled(After(Apply(State(d, Down), Start), looks), Loaded)
    ensures var hot := Apply(After(Apply(State(d, Down), Start), looks), Loaded).mem.hot;
            (id in hot <==> Outlives(d, id)) && (id in hot ==> hot[id] == d.current[id])
  {
    var s := Apply(State(d, Down), Start);
    forall x ensures LoadingAt(s, d, x) { }
    LoadingAlong(s, d, looks, id);
  }

  // ---------------------------------------------------------------------------------------------
  // Runs in which something is lost

  const Old := Record(1, true, "old")
  const New := Record(2, true, "new")
  const Other := Record(2, true, "other")

  lemma RunOfOne(s: State, a: Step)
    requires Enabled(s, a)
    ensures IsRun(s, [a]) && After(s, [a]) == Apply(s, a)
  {
    var steps := [a];
    assert steps[0] == a && steps[1..] == [];
    assert IsRun(Apply(s, a), []) && After(Apply(s, a), []) == Apply(s, a);
  }

  lemma RunOfTwo(s: State, a: Step, b: Step)
    requires Enabled(s, a) && Enabled(Apply(s, a), b)
    ensures IsRun(s, [a, b]) && After(s, [a, b]) == Apply(Apply(s, a), b)
  {
    var steps := [a, b];
    RunOfOne(Apply(s, a), b);
    assert steps[0] == a && steps[1..] == [b];
  }

  lemma {:induction false} RunAppend(s: State, first: seq<Step>, second: seq<Step>)
    requires IsRun(s, first) && IsRun(After(s, first), second)
    ensures IsRun(s, first + second) && After(s, first + second) == After(After(s, first), second)
    decreases |first|
  {
    if first == [] {
      assert first + second == second;
    } else {
      assert (first + second)[0] == first[0] && (first + second)[1..] == first[1..] + second;
      RunAppend(Apply(s, first[0]), first[1..], second);
    }
  }

  lemma Captured(summaries: Records, r: Record)
    ensures var d := State(Disk(summaries, map[]), Down);
            IsRun(d, [Start, Loaded] + [Capture("turn", r, true)]) &&
            After(d, [Start, Loaded] + [Capture("turn", r, true)]) ==
              State(Disk(summaries, map[]), Up(map["turn" := r], map[], Resting, map[], 1, 0, false))
  {
    var d := State(Disk(summaries, map[]), Down);
    RunOfTwo(d, Start, Loaded);
    var s := After(d, [Start, Loaded]);
    RunOfOne(s, Capture("turn", r, true));
    RunAppend(d, [Start, Loaded], [Capture("turn", r, true)]);
  }

  /** A turn whose newer summary is stored is recorded again after a restart; when the summary cannot be read,
      the older record goes over it. */
  lemma UnreadableSummaryIsLost()
    ensures var d := State(Disk(map["turn" := New], map[]), Down);
            var steps := [Start, Loaded] + [Capture("turn", Old, true)] + [Begin, Store("turn", false, Written)];
            Good(d) && IsRun(d, steps) && Stored(d.disk, "turn") == 2 && Stored(After(d, steps).disk, "turn") == 1
  {
    var d := State(Disk(map["turn" := New], map[]), Down);
    DownIsGood(d);
    Captured(map["turn" := New], Old);
    var s := After(d, [Start, Loaded] + [Capture("turn", Old, true)]);
    assert "turn" in Finals(s.mem.hot);
    RunOfTwo(s, Begin, Store("turn", false, Written));
    RunAppend(d, [Start, Loaded] + [Capture("turn", Old, true)], [Begin, Store("turn", false, Written)]);
  }

  /** A record that is started again and reaches the stored sequence goes over the stored one, although its contents
      are others and the summary could be read. */
  lemma EqualSequenceReplaces()
    ensures var d := State(Disk(map["turn" := New], map[]), Down);
            var steps := [Start, Loaded] + [Capture("turn", Other, true)] + [Begin, Store("turn", true, Written)];
            IsRun(d, steps) && After(d, steps).disk.summaries == map["turn" := Other]
  {
    var d := State(Disk(map["turn" := New], map[]), Down);
    Captured(map["turn" := New], Other);
    var s := After(d, [Start, Loaded] + [Capture("turn", Other, true)]);
    assert "turn" in Finals(s.mem.hot);
    RunOfTwo(s, Begin, Store("turn", true, Written));
    RunAppend(d, [Start, Loaded] + [Capture("turn", Other, true)], [Begin, Store("turn", true, Written)]);
  }

  /** A change that does not raise the revision (codex/activity_snapshot.go:8-39) is not waited for by a flush. */
  lemma SilentChangeIsNotFlushed()
    ensures var d := State(Disk(map[], map[]), Down);
            var steps := [Start, Loaded] + [Capture("turn", Old, false)];
            && IsRun(d, steps) && After(d, steps).mem.Up? && "turn" in After(d, steps).mem.hot
            && FlushReturns(After(d, steps), [])
            && Stored(After(d, steps).disk, "turn") < Old.sequence
  {
    var d := State(Disk(map[], map[]), Down);
    RunOfTwo(d, Start, Loaded);
    var s := After(d, [Start, Loaded]);
    RunOfOne(s, Capture("turn", Old, false));
    RunAppend(d, [Start, Loaded], [Capture("turn", Old, false)]);
  }

  /** One failing write while a thread is closed loses its records, although the process goes on. */
  lemma FailedClosingPassLosesRecord()
    ensures var d := State(Disk(map[], map[]), Down);
            var steps := [Start, Loaded] + [Capture("turn", Old, true)] + [Close,
              Begin] + [Store("turn", true, LostBefore)];
            && IsRun(d, steps) && After(d, steps).mem.Up? && After(d, steps).mem.phase.Gone?
            && Stored(After(d, steps).disk, "turn") == -1 && !Holds(After(d, steps), "turn", Old.sequence)
  {
    var d := State(Disk(map[], map[]), Down);
    var first := [Start, Loaded] + [Capture("turn", Old, true)];
    Captured(map[], Old);
    var s := After(d, first);
    assert Finalised(s.mem.hot) == s.mem.hot;
    RunOfTwo(s, Close, Begin);
    RunAppend(d, first, [Close, Begin]);
    var t := After(d, first + [Close, Begin]);
    assert "turn" in Finals(t.mem.hot) && InPass(t, "turn");
    var last := [Store("turn", true, LostBefore)];
    RunOfOne(t, last[0]);
    RunAppend(d, first + [Close, Begin], last);
  }
}
