/** Storage of the activity recorder (codex/activity_store.go:189-312, 425-516): event capture changes the records in
    memory while a writer stores them, one file at a time.  A thread that nobody uses is closed: its records
    become final, and the writer returns after one more pass, whether that pass succeeds or not.  The
    process may stop between any two file renames.  One atomic step per critical section or rename. */
module ActivityStore {
  import opened Prelude

  /** A turn record; `body` stands for the fields that storage does not look at. */
  datatype Record = Record(sequence: nat, final: bool, body: string)

  type Records = map<string, Record>

  /** The summary files of finished turns, and the turns of current.json. */
  datatype Disk = Disk(summaries: Records, current: Records)

  /** One pass of the writer: what it copied, what current.json is to hold, which final records are still
      to be looked at, the one whose file is renamed but not cached yet, and whether it is the last pass. */
  datatype Pass = Pass(
    snapshot: Records, checkpoint: Records, todo: set<string>, landing: Option<string>, revision: nat, closing: bool)

  datatype Phase =
    | Loading(loaded: Records, todo: set<string>)
    | Resting
    | Writing(pass: Pass)
    | Landed(pass: Pass)
    | Broken
    | Gone

  /** A read of a summary file whose result is not cached yet. */
  datatype Reading = Reading(id: string, value: Option<Record>)

  /** A thread in memory.  `Broken` says that its checkpoint could not be loaded, and `Gone` that its writer
      has returned and nobody finds the thread any more. */
  datatype Memory =
    | Down
    | Up(
        hot: Records, cache: map<string, Option<Record>>, phase: Phase, inFlight: map<nat, Reading>,
        revision: nat, saved: nat, closing: bool)

  datatype State = State(disk: Disk, mem: Memory)

  datatype Write = Written | LostBefore | LostAfter

  datatype Step =
    | Start
    | StartBroken
    | Look(id: string, readable: bool)
    | Loaded
    | Capture(id: string, record: Record, signalled: bool)
    | Begin
    | Skip(id: string)
    | Store(id: string, readable: bool, outcome: Write)
    | Remember
    | Checkpoint(outcome: Write)
    | Abort
    | End
    | ReadFile(reader: nat, id: string)
    | ReadDone(reader: nat)
    | Close
    | Leave
    | Crash

  function Finals(m: Records): set<string> { set id | id in m && m[id].final }

  function FromDisk(d: Disk, id: string): Option<Record> { if id in d.summaries then Some(d.summaries[id]) else None }

  /** What a lookup of a stored summary finds; a file that cannot be read counts as absent. */
  function Lookup(s: State, id: string, readable: bool): Option<Record>
    requires s.mem.Up?
  {
    if id in s.mem.cache then s.mem.cache[id] else if readable then FromDisk(s.disk, id) else None
  }

  /** A lookup keeps what it read, also that there is no file. */
  function Cached(s: State, id: string, readable: bool): map<string, Option<Record>>
    requires s.mem.Up?
  {
    if id in s.mem.cache || !readable then s.mem.cache else s.mem.cache[id := FromDisk(s.disk, id)]
  }

  /** A finished read is kept unless a newer record is known by then. */
  function Merged(cache: map<string, Option<Record>>, r: Reading): map<string, Option<Record>> {
    if r.id !in cache then cache[r.id := r.value]
    else if r.value.None? || (cache[r.id].Some? && cache[r.id].value.sequence > r.value.value.sequence) then cache
    else cache[r.id := r.value]
  }

  function Dropped(hot: Records, snapshot: Records): Records {
    map id | id in hot && !(id in snapshot && snapshot[id].final && hot[id] == snapshot[id]) :: hot[id]
  }

  /** A record in memory only ever changes together with a higher sequence number. */
  predicate Captures(hot: Records, id: string, r: Record) {
    id in hot ==> r == hot[id] || r.sequence > hot[id].sequence
  }

  /** Closing makes every record final. */
  function Finalised(hot: Records): Records {
    map id | id in hot :: if hot[id].final then hot[id] else hot[id].(final := true, sequence := hot[id].sequence + 1)
  }

  /** After its last pass the writer returns. */
  function AtRest(m: Memory, p: Pass): Memory
    requires m.Up?
  {
    m.(phase := if p.closing then Gone else Resting)
  }

  predicate IsWriting(s: State) { s.mem.Up? && s.mem.phase.Writing? }

  predicate InPass(s: State, id: string) {
    && IsWriting(s) && s.mem.phase.pass.landing.None?
    && id in s.mem.phase.pass.todo && id in s.mem.phase.pass.snapshot
  }

  predicate Open(m: Memory) { m.Up? && !m.phase.Loading? && !m.phase.Gone? }

  /** The stored summary that the writer finds is newer than its own copy. */
  predicate Superseded(s: State, id: string, readable: bool)
    requires InPass(s, id)
  {
    var saved := Lookup(s, id, readable);
    saved.Some? && saved.value.sequence > s.mem.phase.pass.snapshot[id].sequence
  }

  /** A closing thread takes no more events; a change without a signal may still come. */
  predicate Enabled(s: State, step: Step) {
    match step
    case Start => s.mem.Down? || s.mem.phase.Gone?
    case StartBroken => s.mem.Down? || s.mem.phase.Gone?
    case Look(id, _) => s.mem.Up? && s.mem.phase.Loading? && id in s.mem.phase.todo && id in s.mem.phase.loaded
    case Loaded => s.mem.Up? && s.mem.phase.Loading? && s.mem.phase.todo == {}
    case Capture(id, r, signalled) => Open(s.mem) && Captures(s.mem.hot, id, r) && (s.mem.closing ==> !signalled)
    case Begin => s.mem.Up? && s.mem.phase.Resting?
    case Skip(id) => InPass(s, id) && Superseded(s, id, true)
    case Store(id, readable, _) => InPass(s, id) && !Superseded(s, id, readable)
    case Remember =>
      && IsWriting(s) && s.mem.phase.pass.landing.Some?
      && s.mem.phase.pass.landing.value in s.mem.phase.pass.snapshot
    case Checkpoint(_) => IsWriting(s) && s.mem.phase.pass.todo == {} && s.mem.phase.pass.landing.None?
    case Abort => IsWriting(s)
    case End => s.mem.Up? && s.mem.phase.Landed?
    case ReadFile(_, _) => Open(s.mem)
    case ReadDone(reader) => Open(s.mem) && reader in s.mem.inFlight
    case Close => s.mem.Up? && !s.mem.phase.Gone?
    case Leave => s.mem.Up? && s.mem.phase.Broken? && s.mem.closing
    case Crash => true
  }

  function Apply(s: State, step: Step): State
    requires Enabled(s, step)
  {
    var m := s.mem;
    match step
    case Start => s.(mem := Up(map[], map[], Loading(s.disk.current, s.disk.current.Keys), map[], 0, 0, false))
    case StartBroken => s.(mem := Up(map[], map[], Broken, map[], 0, 0, false))
    case Look(id, readable) =>
      var p, saved := m.phase, Lookup(s, id, readable);
      var stale := saved.Some? && saved.value.sequence >= p.loaded[id].sequence;
      var phase := Loading(if stale then p.loaded - {id} else p.loaded, p.todo - {id});
      s.(mem := m.(cache := Cached(s, id, readable), phase := phase))
    case Loaded => s.(mem := m.(hot := m.phase.loaded, phase := Resting))
    case Capture(id, r, signalled) =>
      s.(mem := m.(hot := m.hot[id := r], revision := m.revision + if signalled then 1 else 0))
    case Begin => s.(mem := m.(phase := Writing(Pass(m.hot, m.hot, Finals(m.hot), None, m.revision, m.closing))))
    case Skip(id) =>
      var p := m.phase.pass;
      var phase := Writing(p.(checkpoint := p.checkpoint - {id}, todo := p.todo - {id}));
      s.(mem := m.(cache := Cached(s, id, true), phase := phase))
    case Store(id, readable, outcome) =>
      var p := m.phase.pass;
      var disk := if outcome.LostBefore? then s.disk else s.disk.(summaries := s.disk.summaries[id := p.snapshot[id]]);
      var n := m.(cache := Cached(s, id, readable));
      var next := p.(checkpoint := p.checkpoint - {id}, todo := p.todo - {id}, landing := Some(id));
      State(disk, if outcome.Written? then n.(phase := Writing(next)) else AtRest(n, p))
    case Remember =>
      var p := m.phase.pass;
      var cache := m.cache[p.landing.value := Some(p.snapshot[p.landing.value])];
      s.(mem := m.(cache := cache, phase := Writing(p.(landing := None))))
    case Checkpoint(outcome) =>
      var p := m.phase.pass;
      var disk := if outcome.LostBefore? then s.disk else s.disk.(current := p.checkpoint);
      State(disk, if outcome.Written? then m.(phase := Landed(p)) else AtRest(m, p))
    case Abort => s.(mem := AtRest(m, m.phase.pass))
    case End =>
      var p := m.phase.pass;
      s.(mem := AtRest(m.(hot := Dropped(m.hot, p.snapshot), saved := p.revision), p))
    case ReadFile(reader, id) => s.(mem := m.(inFlight := m.inFlight[reader := Reading(id, FromDisk(s.disk, id))]))
    case ReadDone(reader) =>
      s.(mem := m.(cache := Merged(m.cache, m.inFlight[reader]), inFlight := m.inFlight - {reader}))
    case Close => s.(mem := m.(hot := Finalised(m.hot), closing := true, revision := m.revision + 1))
    case Leave => s.(mem := m.(phase := Gone))
    case Crash => s.(mem := Down)
  }

  // ---------------------------------------------------------------------------------------------
  // The invariant, turn by turn

  function SeqOf(m: Records, id: string): int { if id in m then m[id].sequence else -1 }

  function CacheSeq(cache: map<string, Option<Record>>, id: string): int {
    if id in cache && cache[id].Some? then cache[id].value.sequence else -1
  }

  /** The newest stored copy of a turn record. */
  function Stored(d: Disk, id: string): int { Max(SeqOf(d.summaries, id), SeqOf(d.current, id)) }

  /** What the writer works from: the records in memory, or its copy of them during a pass. */
  function Base(m: Memory): Records
    requires m.Up?
  {
    match m.phase
    case Writing(p) => p.snapshot
    case Landed(p) => p.snapshot
    case Loading(loaded, _) => loaded
    case Resting => m.hot
    case Broken => m.hot
    case Gone => m.hot
  }

  /** The writer goes by what is loaded, and still runs. */
  predicate Working(m: Memory) { m.Up? && !m.phase.Broken? && !m.phase.Gone? }

  /** The pass is through with a final record. */
  predicate Settled(p: Pass, id: string) {
    id in p.snapshot && p.snapshot[id].final && id !in p.todo && p.landing != Some(id)
  }

  /** A final record that the pass is through with is stored as it was copied, or a newer one is. */
  predicate SettledAt(d: Disk, m: Memory, p: Pass, id: string)
    requires m.Up? && id in p.snapshot
  {
    && id in d.summaries && (d.summaries[id] == p.snapshot[id] || d.summaries[id].sequence > p.snapshot[id].sequence)
    && id in m.cache && SeqOf(d.summaries, id) <= CacheSeq(m.cache, id)
  }

  predicate PassAt(d: Disk, m: Memory, p: Pass, id: string)
    requires m.Up?
  {
    && (id in p.snapshot ==> id in m.hot && Captures(p.snapshot, id, m.hot[id]))
    && (id in p.todo ==> id in p.snapshot && p.snapshot[id].final && p.landing != Some(id))
    && (Settled(p, id) ==> SettledAt(d, m, p, id))
    && (p.landing == Some(id) ==>
          id in p.snapshot && p.snapshot[id].final && id in d.summaries && d.summaries[id] == p.snapshot[id])
    && (id in p.checkpoint <==> id in p.snapshot && (!p.snapshot[id].final || id in p.todo))
    && (id in p.checkpoint ==> p.checkpoint[id] == p.snapshot[id])
  }

  predicate GoodAt(s: State, id: string) {
    Working(s.mem) ==>
      var d, m := s.disk, s.mem;
      var base := if m.phase.Loading? then -1 else SeqOf(Base(m), id);
      && SeqOf(d.current, id) <= Max(SeqOf(Base(m), id), SeqOf(d.summaries, id))
      && (m.phase.Loading? ==> SeqOf(m.phase.loaded, id) <= SeqOf(d.current, id) && m.hot == map[])
      && CacheSeq(m.cache, id) <= SeqOf(d.summaries, id)
      && (id in m.cache ==> SeqOf(d.summaries, id) <= Max(CacheSeq(m.cache, id), base))
      && (m.phase.Writing? ==> PassAt(d, m, m.phase.pass, id))
      && (m.phase.Landed? ==>
            && PassAt(d, m, m.phase.pass, id) && m.phase.pass.todo == {} && m.phase.pass.landing.None?
            && SeqOf(d.current, id) == SeqOf(m.phase.pass.checkpoint, id))
  }

  /** A read in progress is no newer than the file, and no older than what the writer would go by. */
  predicate ReadAt(s: State, reader: nat) {
    Working(s.mem) && reader in s.mem.inFlight ==>
      var r := s.mem.inFlight[reader];
      var value := if r.value.Some? then r.value.value.sequence else -1;
      && !s.mem.phase.Loading? && value <= SeqOf(s.disk.summaries, r.id)
      && (r.id in s.mem.cache || SeqOf(s.disk.summaries, r.id) <= Max(value, SeqOf(Base(s.mem), r.id)))
  }

  ghost predicate Good(s: State) { (forall id :: GoodAt(s, id)) && (forall reader :: ReadAt(s, reader)) }

  /** The only way to lose a stored record: the summary of a turn cannot be read, so that an older record
      is written over it. */
  predicate Overwrites(s: State, step: Step) {
    && step.Store? && !step.readable && InPass(s, step.id) && step.id !in s.mem.cache
    && SeqOf(s.disk.summaries, step.id) > s.mem.phase.pass.snapshot[step.id].sequence
  }

  // ---------------------------------------------------------------------------------------------
  // Every step keeps the invariant

  predicate PassStep(step: Step) { step.Skip? || step.Remember? || step.Checkpoint? }

  /** Steps between two passes. */
  predicate TurnStep(step: Step) { step.Loaded? || step.Begin? || step.Abort? || step.End? || step.Close? }

  predicate OtherStep(step: Step) { !PassStep(step) && !TurnStep(step) && !step.Store? }

  lemma GoodAtOther(s: State, step: Step, id: string)
    requires Enabled(s, step) && GoodAt(s, id) && OtherStep(step) && (step.ReadDone? ==> ReadAt(s, step.reader))
    ensures GoodAt(Apply(s, step), id)
  {
  }

  lemma GoodAtTurn(s: State, step: Step, id: string)
    requires Enabled(s, step) && GoodAt(s, id) && TurnStep(step)
    ensures GoodAt(Apply(s, step), id)
  {
  }

  lemma GoodAtCheckpoint(s: State, step: Step, id: string)
    requires Enabled(s, step) && GoodAt(s, id) && step.Checkpoint?
    ensures GoodAt(Apply(s, step), id)
  {
  }

  lemma GoodAtPass(s: State, step: Step, id: string)
    requires Enabled(s, step) && GoodAt(s, id) && PassStep(step)
    ensures GoodAt(Apply(s, step), id)
  {
    if step.Checkpoint? { GoodAtCheckpoint(s, step, id); }
  }

  lemma GoodAtStored(s: State, step: Step, id: string)
    requires Enabled(s, step) && GoodAt(s, id) && step.Store? && step.outcome.Written? && !Overwrites(s, step)
    ensures GoodAt(Apply(s, step), id)
  {
  }

  lemma GoodAtFailed(s: State, step: Step, id: string)
    requires Enabled(s, step) && GoodAt(s, id) && step.Store? && !step.outcome.Written? && !Overwrites(s, step)
    ensures GoodAt(Apply(s, step), id)
  {
  }

  lemma GoodAtStep(s: State, step: Step, id: string)
    requires Enabled(s, step) && GoodAt(s, id) && !Overwrites(s, step) && (step.ReadDone? ==> ReadAt(s, step.reader))
    ensures GoodAt(Apply(s, step), id)
  {
    if PassStep(step) {
      GoodAtPass(s, step, id);
    } else if TurnStep(step) {
      GoodAtTurn(s, step, id);
    } else if !step.Store? {
      GoodAtOther(s, step, id);
    } else if step.outcome.Written? {
      GoodAtStored(s, step, id);
    } else {
      GoodAtFailed(s, step, id);
    }
  }

  lemma ReadAtOther(s: State, step: Step, reader: nat)
    requires Enabled(s, step) && ReadAt(s, reader) && (OtherStep(step) || TurnStep(step))
    requires s.mem.Up? && reader in s.mem.inFlight ==> GoodAt(s, s.mem.inFlight[reader].id)
    ensures ReadAt(Apply(s, step), reader)
  {
  }

  lemma ReadAtPass(s: State, step: Step, reader: nat)
    requires Enabled(s, step) && ReadAt(s, reader) && PassStep(step)
    requires s.mem.Up? && reader in s.mem.inFlight ==> GoodAt(s, s.mem.inFlight[reader].id)
    ensures ReadAt(Apply(s, step), reader)
  {
  }

  lemma ReadAtStore(s: State, step: Step, reader: nat)
    requires Enabled(s, step) && ReadAt(s, reader) && step.Store? && !Overwrites(s, step)
    requires s.mem.Up? && reader in s.mem.inFlight ==> GoodAt(s, s.mem.inFlight[reader].id)
    ensures ReadAt(Apply(s, step), reader)
  {
  }

  lemma StepKeeps(s: State, step: Step)
    requires Good(s) && Enabled(s, step) && !Overwrites(s, step)
    ensures Good(Apply(s, step))
  {
    var t := Apply(s, step);
    forall id ensures GoodAt(t, id) {
      assert GoodAt(s, id);
      if step.ReadDone? { assert ReadAt(s, step.reader); }
      GoodAtStep(s, step, id);
    }
    forall reader: nat ensures ReadAt(t, reader) {
      assert ReadAt(s, reader);
      if s.mem.Up? && reader in s.mem.inFlight { assert GoodAt(s, s.mem.inFlight[reader].id); }
      if PassStep(step) {
        ReadAtPass(s, step, reader);
      } else if step.Store? {
        ReadAtStore(s, step, reader);
      } else {
        ReadAtOther(s, step, reader);
      }
    }
  }

  /** No step makes the newest stored copy of a turn record older, or removes it. */
  lemma StepNeverRegresses(s: State, step: Step, id: string)
    requires Good(s) && Enabled(s, step) && !Overwrites(s, step)
    ensures Stored(Apply(s, step).disk, id) >= Stored(s.disk, id)
    ensures SeqOf(Apply(s, step).disk.summaries, id) >= SeqOf(s.disk.summaries, id)
  {
    assert GoodAt(s, id);
  }

  /** A summary file gets older in exactly one case. */
  lemma RegressesExactlyWhen(s: State, step: Step)
    requires Good(s) && Enabled(s, step)
    ensures (exists id :: SeqOf(Apply(s, step).disk.summaries, id) < SeqOf(s.disk.summaries, id)) <==>
            Overwrites(s, step) && !step.outcome.LostBefore?
  {
    if Overwrites(s, step) {
      if !step.outcome.LostBefore? {
        assert SeqOf(Apply(s, step).disk.summaries, step.id) < SeqOf(s.disk.summaries, step.id);
      }
    } else {
      forall id ensures SeqOf(Apply(s, step).disk.summaries, id) >= SeqOf(s.disk.summaries, id) {
        StepNeverRegresses(s, step, id);
      }
    }
  }
}
