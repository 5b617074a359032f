/** The phased move of the submission ledger from predecessor files into a database
    (codex/submission_migration.go:115-428).  Every write may fail before or after it takes effect, so an
    early return stands for a crash at that point: the contracts hold at every point where a run may stop. */
module SubmissionMigration {
  import opened Prelude
  import opened SubmissionRecords

  /** What a predecessor path holds: a fence that points to a database, or a ledger document. */
  datatype File = Fence(database: string) | Document(text: string)

  datatype Phase = NotStarted | Imported | Ready

  /** A predecessor as the import found it.  A digest is taken to be as good as the text; the name of a
      backup is its digest. */
  datatype Source = Source(path: string, digest: Option<string>)

  type Files = map<string, File>

  function Paths(primary: string, legacy: string): seq<string> {
    if legacy != "" && legacy != primary then [primary, legacy] else [primary]
  }

  function Rank(p: Phase): nat { match p case NotStarted => 0 case Imported => 1 case Ready => 2 }

  function DigestOf(files: Files, path: string): Option<string> {
    if path in files && files[path].Document? then Some(files[path].text) else None
  }

  function JournalOf(files: Files, paths: seq<string>): seq<Source> {
    seq(|paths|, i requires 0 <= i < |paths| => Source(paths[i], DigestOf(files, paths[i])))
  }

  /** The first predecessor that is present is the authoritative one. */
  function Chosen(files: Files, paths: seq<string>): Option<string>
    decreases |paths|
  {
    if paths == [] then None
    else if DigestOf(files, paths[0]).Some? then DigestOf(files, paths[0])
    else Chosen(files, paths[1..])
  }

  /** The records that an import takes over: none if there is no predecessor. */
  function ImportedRecords(decode: string -> Option<Records>, chosen: Option<string>): Option<Records> {
    if chosen.None? then Some(Empty) else decode(chosen.value)
  }

  predicate Fenced(files: Files, path: string) { path in files && files[path].Fence? }

  predicate Intact(backups: map<string, string>, text: string) { text in backups && backups[text] == text }

  predicate NoFences(files: Files, paths: seq<string>) { forall p :: p in paths ==> !Fenced(files, p) }

  predicate AllFenced(files: Files, paths: seq<string>, database: string) {
    forall p :: p in paths ==> p in files && files[p] == Fence(database)
  }

  predicate Grew(before: map<string, string>, after: map<string, string>) {
    forall t :: t in before ==> t in after && after[t] == before[t]
  }

  /** No overwritten predecessor is lost: what a file held is still there, or was a fence, or is backed up. */
  predicate Preserved(before: Files, after: Files, backups: map<string, string>) {
    forall p :: p in before ==>
      p in after && (after[p] == before[p] || before[p].Fence? || Intact(backups, before[p].text))
  }

  // ---------------------------------------------------------------------------------------------
  // When a run can succeed

  /** The document of a predecessor can be backed up: it is no fence, and no other text has its name. */
  predicate CanPreserve(files: Files, backups: map<string, string>, path: string) {
    path in files ==> files[path].Document? && (files[path].text in backups ==>
      backups[files[path].text] == files[path].text)
  }

  predicate CanImport(decode: string -> Option<Records>, files: Files, backups: map<string, string>, records: Records,
    paths: seq<string>) {
    && (forall i :: 0 <= i < |paths| ==> CanPreserve(files, backups, paths[i]))
    && (Chosen(files, paths).None? ==> backups == map[])
    && ImportedRecords(decode, Chosen(files, paths)).Some? && records == Empty
  }

  /** A source may be fenced: it is fenced already, or unchanged since the import, or gone with its backup intact. */
  predicate CanFence(database: string, files: Files, backups: map<string, string>, s: Source) {
    if s.path in files then
      files[s.path] == Fence(database) || DigestOf(files, s.path) == s.digest != None
    else
      s.digest.Some? ==> Intact(backups, s.digest.value)
  }

  /** In a ready database every predecessor is gone or fenced. */
  predicate CanVerify(database: string, files: Files, path: string) { path in files ==> files[path] == Fence(database) }

  predicate Names(journal: seq<Source>, paths: seq<string>) {
    |journal| == |paths| && forall i :: 0 <= i < |paths| ==> journal[i].path == paths[i]
  }

  // ---------------------------------------------------------------------------------------------
  // What an import does not notice

  lemma {:induction false} ChosenExactlyWhen(files: Files, paths: seq<string>)
    ensures Chosen(files, paths).None? <==> forall i :: 0 <= i < |paths| ==> DigestOf(files, paths[i]).None?
    decreases |paths|
  {
    if paths != [] {
      ChosenExactlyWhen(files, paths[1..]);
      assert forall i :: 0 < i < |paths| ==> paths[i] == paths[1..][i - 1];
    }
  }

  /** Backups that an interrupted run left are noticed exactly when every predecessor is gone. */
  lemma LeftoverNoticedExactlyWhen(
    decode: string -> Option<Records>, files: Files, backups: map<string, string>, paths: seq<string>)
    requires forall i :: 0 <= i < |paths| ==> CanPreserve(files, backups, paths[i])
    requires ImportedRecords(decode, Chosen(files, paths)).Some?
    ensures !CanImport(decode, files, backups, Empty, paths) <==>
            backups != map[] && forall i :: 0 <= i < |paths| ==> paths[i] !in files
  {
    ChosenExactlyWhen(files, paths);
  }

  /** So when a run stopped after backing up the primary predecessor, and that one vanished, the legacy one is imported
      without complaint, whatever the backup holds. */
  lemma VanishedPrimaryIsReplaced(
    decode: string -> Option<Records>, files: Files, backups: map<string, string>, primary: string, legacy: string)
    requires legacy != "" && legacy != primary && primary !in files && legacy in files && files[legacy].Document?
    requires decode(files[legacy].text).Some?
    requires files[legacy].text in backups ==> backups[files[legacy].text] == files[legacy].text
    ensures CanImport(decode, files, backups, Empty, Paths(primary, legacy))
    ensures ImportedRecords(decode, Chosen(files, Paths(primary, legacy))) == decode(files[legacy].text)
  {
    var paths := Paths(primary, legacy);
    assert paths[1..] == [legacy] && Chosen(files, [legacy]) == Some(files[legacy].text);
    LeftoverNoticedExactlyWhen(decode, files, backups, paths);
  }

  datatype Event =
    | Run(primary: string, legacy: string, reliable: bool)
    | Vanishes(path: string)
    | Rewrites(path: string, text: string)
    | Transacts(next: Records)

  predicate Undisturbed(events: seq<Event>) { forall i :: 0 <= i < |events| ==> !events[i].Transacts? }

  class Migration {
    const database: string
    const decode: string -> Option<Records>
    var version: int
    var phase: Phase
    var journal: seq<Source>
    var records: Records
    var files: Files
    var backups: map<string, string>
    /** The predecessor paths and files that the import found, and how often an import committed. */
    ghost var configured: seq<string>
    ghost var found: Files
    ghost var imports: nat

    /** Before the import nothing is journalled; afterwards the journal and the records are those of the
        predecessors as the import found them, and every one of them is backed up. */
    ghost predicate Safe()
      reads this
    {
      && imports == Rank(phase) - (if phase.Ready? then 1 else 0)
      && (phase.NotStarted? ==> journal == [] && records == Empty)
      && (!phase.NotStarted? ==>
            && configured != [] && journal == JournalOf(found, configured)
            && forall i :: 0 <= i < |configured| && DigestOf(found, configured[i]).Some? ==>
               Intact(backups, DigestOf(found, configured[i]).value))
      && (phase.Imported? ==> ImportedRecords(decode, Chosen(found, configured)) == Some(records))
    }

    /** Exactly when a run without failing writes brings the database into use. */
    ghost predicate Recoverable(primary: string, legacy: string)
      reads this
    {
      var paths := Paths(primary, legacy);
      && primary != database && legacy != database && (version == 0 || version == 1)
      && match phase
         case NotStarted => CanImport(decode, files, backups, records, paths)
         case Imported => Names(journal, paths) && forall i :: 0 <= i < |journal| ==>
           CanFence(database, files, backups, journal[i])
         case Ready => Names(journal, paths) && forall i :: 0 <= i < |paths| ==> CanVerify(database, files, paths[i])
    }

    constructor (database: string, decode: string -> Option<Records>, files: Files, backups: map<string, string>)
      ensures Safe() && phase.NotStarted? && this.files == files && this.backups == backups && imports == 0
    {
      this.database, this.decode, this.files, this.backups := database, decode, files, backups;
      version, phase, journal, records := 0, NotStarted, [], Empty;
      configured, found, imports := [], map[], 0;
    }

    // -------------------------------------------------------------------------------------------
    // When a run succeeds, in terms of the files

    /** The configuration is usable, and the same as that of the import. */
    ghost predicate SameSources(primary: string, legacy: string)
      reads this
    {
      && primary != database && legacy != database && 0 <= version <= 1
      && configured == if legacy == "" || legacy == primary then [primary] else [primary, legacy]
    }

    /** After an import, a run succeeds exactly when every source is gone, fenced by this database, or still
        the document that was imported. */
    lemma ResumesExactlyWhen(primary: string, legacy: string)
      requires Safe() && phase.Imported?
      ensures Recoverable(primary, legacy) <==>
              && SameSources(primary, legacy)
              && forall p :: p in configured && p in files ==>
                   files[p] == Fence(database) || (files[p].Document? && p in found && files[p] == found[p])
    {
      if SameSources(primary, legacy) {
        forall i | 0 <= i < |configured|
          ensures CanFence(database, files, backups, journal[i]) <==>
                  var p := configured[i];
                  p in files ==>
                    files[p] == Fence(database) || (files[p].Document? && p in found && files[p] == found[p])
        {
          assert journal[i] == Source(configured[i], DigestOf(found, configured[i]));
        }
      } else if Names(journal, Paths(primary, legacy)) {
        assert forall i :: 0 <= i < |configured| ==> journal[i].path == configured[i];
        assert configured == Paths(primary, legacy);
      }
    }

    /** Once the database is ready, a run succeeds exactly when every source is gone or fenced by it. */
    lemma ReopensExactlyWhen(primary: string, legacy: string)
      requires Safe() && phase.Ready?
      ensures Recoverable(primary, legacy) <==>
              SameSources(primary, legacy) && forall p :: p in configured && p in files ==> files[p] == Fence(database)
    {
      if Names(journal, Paths(primary, legacy)) {
        assert forall i :: 0 <= i < |configured| ==> journal[i].path == configured[i];
        assert configured == Paths(primary, legacy);
      }
    }

    /** The contents that the first run takes over: those of the primary predecessor if there is one, else those of the
        legacy one, else nothing. */
    function FirstContents(primary: string, legacy: string): Option<Records>
      reads this
    {
      if primary in files then if files[primary].Document? then decode(files[primary].text) else None
      else if legacy != "" && legacy in files then if files[legacy].Document? then decode(files[legacy].text) else None
      else Some(Empty)
    }

    /** The document may be backed up: no backup of that name holds another text. */
    predicate Backable(path: string)
      reads this
    {
      path in files ==>
        files[path].Document? && (files[path].text !in backups || backups[files[path].text] == files[path].text)
    }

    /** The first run succeeds exactly when every predecessor is a document that may be backed up, the first
        of them can be read, and nothing is left of an earlier run if there is none. */
    lemma StartsExactlyWhen(primary: string, legacy: string)
      requires Safe() && phase.NotStarted?
      ensures Recoverable(primary, legacy) <==>
              && primary != database && legacy != database && 0 <= version <= 1
              && Backable(primary) && (legacy != "" ==> Backable(legacy)) && FirstContents(primary, legacy).Some?
              && (primary !in files && (legacy == "" || legacy !in files) ==> backups == map[])
      ensures Recoverable(primary, legacy) ==>
              ImportedRecords(decode, Chosen(files, Paths(primary, legacy))) == FirstContents(primary, legacy)
    {
      var paths := Paths(primary, legacy);
      assert paths[0] == primary && Chosen(files, []) == None;
      if |paths| == 2 {
        assert paths[1] == legacy && paths[1..] == [legacy] && [legacy][1..] == [];
        assert Chosen(files, [legacy]) == DigestOf(files, legacy);
      } else {
        assert paths[1..] == [] && Chosen(files, paths) == DigestOf(files, primary);
      }
      assert (forall i :: 0 <= i < |paths| ==> CanPreserve(files, backups, paths[i])) <==>
             Backable(primary) && (legacy != "" ==> Backable(legacy));
    }

    // -------------------------------------------------------------------------------------------
    // Writes that may fail

    method PutFile(path: string, file: File, reliable: bool) returns (ok: bool)
      modifies this`files
      ensures files == old(files) || files == old(files)[path := file]
      ensures ok ==> files == old(files)[path := file]
      ensures reliable ==> ok
    {
      ok := reliable;
      if * { ok := true; }
      if ok { files := files[path := file]; } else if * { files := files[path := file]; }
    }

    method PreserveBackup(text: string, reliable: bool) returns (ok: bool)
      modifies this`backups
      ensures backups == old(backups) || (text !in old(backups) && backups == old(backups)[text := text])
      ensures ok ==> Intact(backups, text)
      ensures reliable ==> ok == (text in old(backups) ==> old(backups)[text] == text)
    {
      if text in backups { return backups[text] == text; }
      ok := reliable;
      if * { ok := true; }
      if ok { backups := backups[text := text]; } else if * { backups := backups[text := text]; }
    }

    // -------------------------------------------------------------------------------------------
    // Phases

    /** Back up every predecessor that is present, and choose the first of them. */
    method Collect(paths: seq<string>, reliable: bool) returns (ok: bool, sources: seq<Source>, chosen: Option<string>)
      modifies this`backups
      ensures ok ==> sources == JournalOf(files, paths) && chosen == Chosen(files, paths) && NoFences(files, paths)
      ensures ok ==> forall i :: 0 <= i < |paths| && DigestOf(files, paths[i]).Some? ==>
              Intact(backups, DigestOf(files, paths[i]).value)
      ensures Grew(old(backups), backups)
      ensures ok && chosen.None? ==> backups == old(backups)
      ensures reliable ==> ok == (forall i :: 0 <= i < |paths| ==> CanPreserve(files, old(backups), paths[i]))
    {
      sources, chosen := [], None;
      var i := 0;
      while i < |paths|
        invariant 0 <= i <= |paths|
        invariant sources == JournalOf(files, paths[..i]) && NoFences(files, paths[..i])
        invariant Chosen(files, paths) == if chosen.Some? then chosen else Chosen(files, paths[i..])
        invariant forall j :: 0 <= j < i && DigestOf(files, paths[j]).Some? ==>
                  Intact(backups, DigestOf(files, paths[j]).value)
        invariant Grew(old(backups), backups)
        invariant forall t :: t in backups && t !in old(backups) ==> backups[t] == t
        invariant chosen.None? ==> backups == old(backups)
        invariant reliable ==> forall j :: 0 <= j < i ==> CanPreserve(files, old(backups), paths[j])
      {
        var path := paths[i];
        if path in files {
          if files[path].Fence? {
            assert !CanPreserve(files, old(backups), paths[i]);
            return false, sources, chosen;
          }
          var text := files[path].text;
          ok := PreserveBackup(text, reliable);
          if !ok {
            assert reliable ==> !CanPreserve(files, old(backups), paths[i]);
            return;
          }
          if chosen.None? { chosen := Some(text); }
        }
        sources := sources + [Source(path, DigestOf(files, path))];
        i := i + 1;
        assert paths[..i] == paths[..i - 1] + [path];
      }
      assert paths[..i] == paths;
      ok := true;
    }

    /** Take over the chosen predecessor: its records, the journal of all sources and the new phase become
        durable together or not at all. */
    method Import(paths: seq<string>, reliable: bool) returns (ok: bool)
      requires Safe() && phase.NotStarted? && paths != []
      modifies this`backups, this`records, this`journal, this`phase, this`configured, this`found, this`imports
      ensures Safe() && (ok ==> phase.Imported?) && !phase.Ready?
      ensures ok ==> NoFences(files, paths)
      ensures phase.Imported? ==> configured == paths && found == files
      ensures phase.Imported? ==> ImportedRecords(decode, Chosen(files, paths)) == Some(records)
      ensures reliable ==> ok == CanImport(decode, files, old(backups), old(records), paths)
      ensures Grew(old(backups), backups)
    {
      var sources, chosen;
      ok, sources, chosen := Collect(paths, reliable);
      if !ok || (chosen.None? && backups != map[]) { return false; }
      var taken := ImportedRecords(decode, chosen);
      if taken.None? || records != Empty { return false; }
      ok := reliable;
      if * { ok := true; }
      var committed := ok;
      if * { committed := true; }
      if committed {
        records, journal, phase := taken.value, sources, Imported;
        configured, found, imports := paths, files, imports + 1;
      }
    }

    /** Put a fence over every source that is still what the import took over. */
    method FenceSources(paths: seq<string>, reliable: bool) returns (ok: bool)
      requires Safe() && phase.Imported? && Distinct(paths)
      modifies this`files
      ensures Safe() && Preserved(old(files), files, backups)
      ensures ok ==> AllFenced(files, paths, database)
      ensures reliable ==> ok == (Names(journal, paths) && forall i :: 0 <= i < |journal| ==>
              CanFence(database, old(files), backups, journal[i]))
    {
      if |journal| != |paths| { return false; }
      var i := 0;
      while i < |paths|
        invariant 0 <= i <= |paths|
        invariant Safe() && Preserved(old(files), files, backups)
        invariant AllFenced(files, paths[..i], database)
        invariant SameElsewhere(old(files), files, paths[..i])
        invariant reliable ==> forall j :: 0 <= j < i ==>
                  journal[j].path == paths[j] && CanFence(database, old(files), backups, journal[j])
      {
        if journal[i].path != paths[i] { return false; }
        ghost var before := files;
        assert SameAt(old(files), before, paths[i]);
        ok := FenceSource(i, reliable);
        Chained(old(files), before, files, backups, backups);
        if !ok { return; }
        FencedOneMore(old(files), before, files, paths[..i], paths[i], database);
        assert paths[..i + 1] == paths[..i] + [paths[i]];
        i := i + 1;
      }
      assert paths[..i] == paths;
      ok := true;
    }

    method FenceSource(i: nat, reliable: bool) returns (ok: bool)
      requires Safe() && phase.Imported? && i < |journal|
      modifies this`files
      ensures Safe() && Preserved(old(files), files, backups)
      ensures ok ==> journal[i].path in files && files[journal[i].path] == Fence(database)
      ensures SameElsewhere(old(files), files, [journal[i].path])
      ensures reliable ==> ok == CanFence(database, old(files), backups, journal[i])
    {
      var path := journal[i].path;
      if !CanFence(database, files, backups, journal[i]) { return false; }
      if path in files && files[path] == Fence(database) { return true; }
      Overwrites(path, i);
      ok := PutFile(path, Fence(database), reliable);
    }

    /** Only what is backed up is overwritten. */
    lemma Overwrites(path: string, i: int)
      requires Safe() && phase.Imported? && 0 <= i < |journal| && path == journal[i].path
      requires CanFence(database, files, backups, journal[i]) && !(path in files && files[path] == Fence(database))
      ensures path in files ==> files[path].Document? && Intact(backups, files[path].text)
    {
      assert journal[i].digest == DigestOf(found, configured[i]);
    }

    /** A ready database restores fences that are gone, once every one that is left was checked. */
    method VerifyFences(paths: seq<string>, reliable: bool) returns (ok: bool)
      requires Safe() && phase.Ready?
      modifies this`files
      ensures Safe() && Preserved(old(files), files, backups)
      ensures forall p :: p in old(files) ==> p in files && files[p] == old(files)[p]
      ensures ok ==> AllFenced(files, paths, database)
      ensures reliable ==> ok == (Names(journal, paths) && forall i :: 0 <= i < |paths| ==>
              CanVerify(database, old(files), paths[i]))
    {
      if |journal| != |paths| { return false; }
      var missing: seq<string>, i := [], 0;
      while i < |paths|
        invariant 0 <= i <= |paths|
        invariant forall j :: 0 <= j < i ==> journal[j].path == paths[j] && CanVerify(database, files, paths[j])
        invariant forall j :: 0 <= j < i && paths[j] !in files ==> paths[j] in missing
        invariant forall p :: p in missing ==> p !in files
      {
        if journal[i].path != paths[i] || !CanVerify(database, files, paths[i]) { return false; }
        if paths[i] !in files { missing := missing + [paths[i]]; }
        i := i + 1;
      }
      var k := 0;
      while k < |missing|
        invariant 0 <= k <= |missing|
        invariant forall p :: p in old(files) ==> p in files && files[p] == old(files)[p]
        invariant forall p :: p in files && p !in old(files) ==> files[p] == Fence(database)
        invariant forall j :: 0 <= j < k ==> missing[j] in files
      {
        ok := PutFile(missing[k], Fence(database), reliable);
        if !ok { return; }
        k := k + 1;
      }
      ok := true;
    }

    /** Bring the database into use.  Whatever write fails, and wherever the run stops: the phase never goes
        back, a predecessor is overwritten only by a fence, only once the import is committed, and only when
        it is backed up; and the import happens once, with the contents of the first predecessor. */
    method Initialize(primary: string, legacy: string, reliable: bool) returns (ok: bool)
      requires Safe()
      modifies this
      ensures Safe() && Rank(old(phase)) <= Rank(phase)
      ensures phase.NotStarted? ==> files == old(files)
      ensures Preserved(old(files), files, backups) && Grew(old(backups), backups)
      ensures old(phase).NotStarted? && !phase.NotStarted? ==>
                found == old(files) && configured == Paths(primary, legacy)
                  && ImportedRecords(decode, Chosen(old(files), configured)) == Some(records)
      ensures !old(phase).NotStarted? ==> records == old(records) && journal == old(journal) && imports == old(imports)
      ensures !old(phase).NotStarted? ==> found == old(found) && configured == old(configured)
      ensures phase.Ready? && !old(phase).Ready? ==> ImportedRecords(decode, Chosen(found, configured)) == Some(records)
      ensures ok ==> phase.Ready? && AllFenced(files, Paths(primary, legacy), database)
      ensures reliable ==> ok == old(Recoverable(primary, legacy))
    {
      if primary == database || legacy == database || (version != 0 && version != 1) { return false; }
      if version == 0 {
        ok := reliable;
        if * { ok := true; }
        if * { version := 1; }
        if !ok { return; }
        version := 1;
      }
      var paths := Paths(primary, legacy);
      if phase.Ready? {
        ok := VerifyFences(paths, reliable);
        return;
      }
      ok := Migrate(paths, reliable);
    }

    method Migrate(paths: seq<string>, reliable: bool) returns (ok: bool)
      requires Safe() && !phase.Ready? && Distinct(paths) && paths != []
      modifies this`files, this`backups, this`records, this`journal, this`phase, this`configured, this`found,
        this`imports
      ensures Safe() && Rank(old(phase)) <= Rank(phase)
      ensures phase.NotStarted? ==> files == old(files)
      ensures Preserved(old(files), files, backups) && Grew(old(backups), backups)
      ensures old(phase).NotStarted? && !phase.NotStarted? ==> found == old(files) && configured == paths
      ensures !old(phase).NotStarted? ==>
              records == old(records) && journal == old(journal) && imports == old(imports) && found == old(found)
                && configured == old(configured)
      ensures !phase.NotStarted? ==> ImportedRecords(decode, Chosen(found, configured)) == Some(records)
      ensures ok ==> phase.Ready? && AllFenced(files, paths, database)
      ensures reliable ==> ok == if old(phase).NotStarted?
              then CanImport(decode, old(files), old(backups), old(records), paths)
                                 else Names(old(journal), paths) && forall i :: 0 <= i < |old(journal)| ==>
                                   CanFence(database, old(files), old(backups), old(journal)[i])
    {
      if phase.NotStarted? {
        ok := Import(paths, reliable);
        if !ok { return; }
        JustImported(paths);
      }
      ok := FenceSources(paths, reliable);
      if !ok { return; }
      ok := reliable;
      if * { ok := true; }
      if ok { phase := Ready; } else if * { phase := Ready; }
    }

    // -------------------------------------------------------------------------------------------
    // What happens between runs

    /** A volatile predecessor is gone after a reboot. */
    method Vanish(path: string)
      requires Safe()
      modifies this`files
      ensures Safe() && files == old(files) - {path}
    {
      files := files - {path};
    }

    /** A client that still uses the predecessor writes it, unless it finds a fence. */
    method Rewrite(path: string, text: string)
      requires Safe()
      modifies this`files
      ensures Safe() && files == if Fenced(old(files), path) then old(files) else old(files)[path := Document(text)]
    {
      if !Fenced(files, path) { files := files[path := Document(text)]; }
    }

    /** A client of the database commits a transaction; it opens the database only when it is ready. */
    method Transact(next: Records)
      requires Safe()
      modifies this`records
      ensures Safe() && records == if phase.Ready? then next else old(records)
    {
      if phase.Ready? { records := next; }
    }

    /** Any sequence of runs, each of which may stop anywhere, with anything in between. */
    method Live(events: seq<Event>)
      requires Safe() && phase.NotStarted?
      modifies this
      ensures Safe() && imports <= 1
      ensures !phase.NotStarted? && Undisturbed(events) ==>
              ImportedRecords(decode, Chosen(found, configured)) == Some(records)
      ensures (forall i :: 0 <= i < |events| ==> events[i].Run?) ==> Preserved(old(files), files, backups)
      ensures (forall i :: 0 <= i < |events| ==> events[i].Run?) && !phase.NotStarted? ==> found == old(files)
    {
      var i := 0;
      while i < |events|
        invariant 0 <= i <= |events| && Safe()
        invariant !phase.NotStarted? && Undisturbed(events[..i]) ==>
                  ImportedRecords(decode, Chosen(found, configured)) == Some(records)
        invariant (forall j :: 0 <= j < i ==> events[j].Run?) ==> Preserved(old(files), files, backups)
        invariant (forall j :: 0 <= j < i ==> events[j].Run?) ==>
                  if phase.NotStarted? then files == old(files) else found == old(files)
      {
        ghost var before, saved := files, backups;
        match events[i] {
        case Run(primary, legacy, reliable) =>
          var _ := Initialize(primary, legacy, reliable);
          if forall j :: 0 <= j < i ==> events[j].Run? { Chained(old(files), before, files, saved, backups); }
        case Vanishes(path) => Vanish(path);
        case Rewrites(path, text) => Rewrite(path, text);
        case Transacts(next) => Transact(next);
        }
        assert Undisturbed(events[..i + 1]) ==> Undisturbed(events[..i]) && !events[i].Transacts? by {
          assert events[..i + 1][i] == events[i];
          assert forall j :: 0 <= j < i ==> events[..i][j] == events[..i + 1][j];
        }
        i := i + 1;
      }
      assert events[..i] == events;
    }

    /** Right after an import every source can be fenced. */
    lemma JustImported(paths: seq<string>)
      requires Safe() && phase.Imported? && configured == paths && found == files
      requires NoFences(files, paths)
      ensures Names(journal, paths) && forall i :: 0 <= i < |journal| ==> CanFence(database, files, backups, journal[i])
    {
      forall i | 0 <= i < |journal| ensures CanFence(database, files, backups, journal[i]) {
        assert !Fenced(files, paths[i]);
      }
    }
  }

  lemma Chained(first: Files, second: Files, third: Files, backups: map<string, string>, more: map<string, string>)
    requires Preserved(first, second, backups) && Preserved(second, third, more) && Grew(backups, more)
    ensures Preserved(first, third, more)
  {
  }

  predicate SameAt(before: Files, after: Files, path: string) {
    if path in before then path in after && after[path] == before[path] else path !in after
  }

  ghost predicate SameElsewhere(before: Files, after: Files, paths: seq<string>) {
    forall p :: p in paths || SameAt(before, after, p)
  }

  lemma FencedOneMore(start: Files, before: Files, after: Files, paths: seq<string>, path: string, database: string)
    requires AllFenced(before, paths, database) && SameElsewhere(start, before, paths)
    requires SameElsewhere(before, after, [path]) && path in after && after[path] == Fence(database)
    ensures AllFenced(after, paths + [path], database) && SameElsewhere(start, after, paths + [path])
  {
    forall p | p in paths + [path] ensures p in after && after[p] == Fence(database) {
      assert p == path || SameAt(before, after, p);
    }
    forall p ensures p in paths + [path] || SameAt(start, after, p) {
      assert p == path || SameAt(before, after, p);
      assert p in paths || SameAt(start, before, p);
    }
  }

  predicate Distinct(paths: seq<string>) { forall i, j :: 0 <= i < j < |paths| ==> paths[i] != paths[j] }
}
