/** Runs of a resume (claude-agent-sdk/src/session_store.rs:976-1080): one that meets no file it can
    not read succeeds; and two that succeed and yet lose what was written last for a subagent. In
    both a third root holds an older copy. In one the profile's newer copy equals canonical, so it
    is never brought in, and is then removed; in the other it is brought in, but the third root's
    copy carries a date after the resume's own writes. They are the two ways in which the exact
    condition of module ResumeOutcome can fail. */
module ResumeWitness {
  import opened Common
  import opened Text
  import opened SessionPaths
  import opened SessionDisk
  import opened Reconcile
  import opened Materialize
  import opened ResumeOutcome

  // ---- A resume that can read everything succeeds ----

  /** The job is about a session, be the store the profile itself or not. */
  predicate NamesASession(job: Job) {
    KeyNames(job.main).Ok? && job.main.subpath.None?
  }

  ghost predicate AllReadable(job: Job, d: Disk) {
    forall k, r :: OfSession(job, k) ==> ReadEntriesAt(d, r, k).Ok?
  }

  /** All listed subpaths can be used. */
  predicate Usable(job: Job, todo: seq<string>) {
    forall i :: 0 <= i < |todo| ==> KeyNames(Subkey(job.main, todo[i])).Ok?
  }

  lemma ReadableAfterPut(job: Job, d: Disk, root: Root, key: SessionKey, cell: Cell)
    requires AllReadable(job, d) && KeyNames(key).Ok? && (key.subpath.None? ==> cell.sidecar.None?) && ReadCell(cell).Ok?
    ensures AllReadable(job, PutCell(d, root, key, cell))
  {
    forall k, r | OfSession(job, k)
      ensures ReadEntriesAt(PutCell(d, root, key, cell), r, k).Ok?
    {
      CellAfterPut(d, root, key, cell, r, k);
      assert ReadEntriesAt(d, r, k).Ok?;
    }
  }

  lemma ReadableAfterRemove(job: Job, d: Disk)
    requires AllReadable(job, d)
    ensures AllReadable(job, RemoveDir(d, job.target, SessionDir(job.main)))
  {
    var d1 := RemoveDir(d, job.target, SessionDir(job.main));
    forall k, r | OfSession(job, k)
      ensures ReadEntriesAt(d1, r, k).Ok?
    {
      CellAfterRemoveDir(d, job.target, job.main, r, k);
      assert ReadEntriesAt(d, r, k).Ok?;
    }
  }

  lemma PromotedIsReadable(job: Job, d: Disk, key: SessionKey, entries: seq<Value>, now: nat)
    requires AllReadable(job, d) && OfSession(job, key)
    ensures AllReadable(job, PutCell(d, job.root, key, ReplaceCell(key, entries, now)))
  {
    ReplaceHolds(key, entries, now);
    ReadHeld(key, ReplaceCell(key, entries, now), entries);
    ReadableAfterPut(job, d, job.root, key, ReplaceCell(key, entries, now));
  }

  lemma ReadableDecides(job: Job, d: Disk, key: SessionKey)
    requires AllReadable(job, d) && OfSession(job, key)
    ensures !Decide(d, job.root, job.legacy, key).Fail?
  {
    if Winner(d, job.root, job.legacy, key).Some? {
      assert ReadEntriesAt(d, Winner(d, job.root, job.legacy, key).value.root, key).Ok?;
    }
  }

  lemma ReadableAfterReconcile(job: Job, d: Disk, key: SessionKey, now: nat)
    requires AllReadable(job, d) && OfSession(job, key)
    ensures var (outcome, d1) := ReconcileOn(d, job.root, job.legacy, key, now); outcome.Ok? && AllReadable(job, d1)
  {
    ReadableDecides(job, d, key);
    var decision := Decide(d, job.root, job.legacy, key);
    if decision.Promote? { PromotedIsReadable(job, d, key, decision.entries, now); }
  }

  lemma ReadableAfterLoad(job: Job, d: Disk, key: SessionKey, now: nat)
    requires AllReadable(job, d) && OfSession(job, key)
    ensures var (loaded, d1) := LoadOn(d, job.root, job.legacy, key, now); loaded.Ok? && AllReadable(job, d1)
  {
    ReadableAfterReconcile(job, d, key, now);
    var d1 := ReconcileOn(d, job.root, job.legacy, key, now).1;
    assert ReadEntriesAt(d1, job.root, key).Ok?;
  }

  lemma TextReads(entries: seq<Value>, sidecar: Option<File>, now: nat)
    requires sidecar.Some? ==> sidecar.value.whole.Some? && sidecar.value.whole.value.Object?
    ensures ReadCell(Cell(Some(TextFile(JsonLines(entries), now)), sidecar)).Ok?
  {
    ParseJsonLines(entries, 0);
  }

  /** The session was written. */
  predicate MainWritten(job: Job, d: Disk) {
    && KeyNames(job.main).Ok?
    && var last := LastWritten(d, job.root, job.legacy, job.main); last.Ok? && last.value.Some?
  }

  /** On its way to success. */
  ghost predicate Going(job: Job, s: State) {
    AllReadable(job, s.disk) &&
    match s.phase
    case LoadMain => MainWritten(job, s.disk)
    case Listing(_, todo) => Usable(job, todo)
    case WriteMain(_) => true
    case RemoveSessionDir => true
    case LoadSub(todo) => Usable(job, todo)
    case WriteTranscript(key, _, todo) => OfSession(job, key) && IsSubkeyOf(key, job.main) && Usable(job, todo)
    case WriteMetadata(key, _, todo) => OfSession(job, key) && IsSubkeyOf(key, job.main) && Usable(job, todo)
    case Finished(result) => result == Ok(true)
  }

  lemma UsableRest(job: Job, todo: seq<string>)
    requires Usable(job, todo) && todo != []
    ensures Usable(job, todo[1..])
    ensures OfSession(job, Subkey(job.main, todo[0])) && IsSubkeyOf(Subkey(job.main, todo[0]), job.main)
  {
    assert forall i :: 0 <= i < |todo[1..]| ==> todo[1..][i] == todo[i + 1];
  }

  lemma LoadMainGoes(job: Job, d: Disk, now: nat)
    requires NamesASession(job) && Usable(job, job.listing) && Going(job, State(d, LoadMain))
    ensures Going(job, StepLoadMain(job, d, now))
  {
    ReadableAfterLoad(job, d, job.main, now);
    LoadIsLastWritten(d, job.root, job.legacy, job.main, now);
  }

  lemma ListingGoes(job: Job, d: Disk, entries: seq<Value>, todo: seq<string>, now: nat)
    requires NamesASession(job) && Going(job, State(d, Listing(entries, todo)))
    ensures Going(job, StepListing(job, d, entries, todo, now))
  {
    if todo != [] {
      UsableRest(job, todo);
      ReadableAfterReconcile(job, d, Subkey(job.main, todo[0]), now);
    }
  }

  lemma LoadSubGoes(job: Job, d: Disk, todo: seq<string>, now: nat)
    requires NamesASession(job) && Going(job, State(d, LoadSub(todo)))
    ensures Going(job, StepLoadSub(job, d, todo, now))
  {
    if todo != [] {
      UsableRest(job, todo);
      ReadableAfterLoad(job, d, Subkey(job.main, todo[0]), now);
    }
  }

  lemma WriteTranscriptGoes(job: Job, s: State, now: nat)
    requires NamesASession(job) && Going(job, s) && s.phase.WriteTranscript?
    ensures Going(job, Step(job)(s, now))
  {
    var key, entries := s.phase.key, s.phase.entries;
    var cell := CellAt(s.disk, job.target, key);
    assert ReadEntriesAt(s.disk, job.target, key).Ok?;
    TextReads(Kept(key, entries), cell.sidecar, now);
    ReadableAfterPut(job, s.disk, job.target, key, TranscriptCell(cell, key, entries, now));
  }

  lemma WriteMetadataGoes(job: Job, s: State, now: nat)
    requires NamesASession(job) && Going(job, s) && s.phase.WriteMetadata?
    ensures Going(job, Step(job)(s, now))
  {
    var key, entries := s.phase.key, s.phase.entries;
    var cell := CellAt(s.disk, job.target, key);
    assert ReadEntriesAt(s.disk, job.target, key).Ok?;
    if Meta(key, entries).Some? {
      OneJson(DropType(Meta(key, entries).value));
    }
    ReadableAfterPut(job, s.disk, job.target, key, MetadataCell(cell, key, entries, now));
  }

  lemma StepGoes(job: Job, s: State, now: nat)
    requires NamesASession(job) && Usable(job, job.listing) && Going(job, s)
    ensures Going(job, Step(job)(s, now))
  {
    match s.phase
    case LoadMain => LoadMainGoes(job, s.disk, now);
    case Listing(entries, todo) => ListingGoes(job, s.disk, entries, todo, now);
    case WriteMain(entries) =>
      TextReads(entries, None, now);
      ReadableAfterPut(job, s.disk, job.target, job.main, Cell(Some(TextFile(JsonLines(entries), now)), None));
    case RemoveSessionDir => ReadableAfterRemove(job, s.disk);
    case LoadSub(todo) => LoadSubGoes(job, s.disk, todo, now);
    case WriteTranscript(_, _, _) => WriteTranscriptGoes(job, s, now);
    case WriteMetadata(_, _, _) => WriteMetadataGoes(job, s, now);
    case Finished(_) =>
  }

  lemma {:induction false} RunGoes(job: Job, s: State, times: seq<nat>)
    requires NamesASession(job) && Usable(job, job.listing) && Going(job, s)
    ensures Going(job, Exec(Step(job), s, times))
    decreases times
  {
    if times != [] {
      StepGoes(job, s, times[0]);
      RunGoes(job, Step(job)(s, times[0]), times[1..]);
    }
  }

  /** A resume of a session that is there, whose files can all be read and whose listed subpaths
      can be used, succeeds when it is not interrupted. */
  lemma ReadableResumeSucceeds(job: Job, d0: Disk, times: seq<nat>)
    requires NamesASession(job) && ValidSessionId(job.main.sessionId) && AllReadable(job, d0) && Usable(job, job.listing)
    requires MainWritten(job, d0)
    requires |times| >= StepsLeft(job, LoadMain)
    ensures Exec(Step(job), Begin(job, d0), times).phase == Finished(Ok(true))
  {
    RunGoes(job, Begin(job, d0), times);
    ResumeFinishes(job, Begin(job, d0), times);
  }

  // ---- What a resume leaves undone ----

  lemma UnwrittenChangesNothing(job: Job, d: Disk, now: nat)
    requires KeyNames(job.main).Ok?
    requires var last := LastWritten(d, job.root, job.legacy, job.main); last.Err? || last == Ok(None)
    ensures LoadOn(d, job.root, job.legacy, job.main, now) == (LastWritten(d, job.root, job.legacy, job.main), d)
  {
    DecisionIsLastWritten(d, job.root, job.legacy, job.main);
  }

  lemma {:induction false} FinishedStays(job: Job, s: State, times: seq<nat>)
    requires KeyNames(job.main).Ok? && s.phase.Finished?
    ensures Exec(Step(job), s, times) == s
    decreases times
  {
    if times != [] {
      assert Step(job)(s, times[0]) == s;
      FinishedStays(job, s, times[1..]);
    }
  }

  /** A session that can not be resumed: with an identifier that is none, or when no root holds
      anything of it, the resume says so, and when what was written last can not be read it fails
      with that error; the disk stays as it was. */
  lemma NothingToResume(job: Job, d0: Disk, times: seq<nat>)
    requires NamesASession(job) && times != []
    ensures var last := LastWritten(d0, job.root, job.legacy, job.main);
            var s := Exec(Step(job), Begin(job, d0), times);
            && (!ValidSessionId(job.main.sessionId) || last == Ok(None) ==> s == State(d0, Finished(Ok(false))))
            && (ValidSessionId(job.main.sessionId) && last.Err? ==> s == State(d0, Finished(Err(last.error))))
  {
    var last := LastWritten(d0, job.root, job.legacy, job.main);
    if !ValidSessionId(job.main.sessionId) {
      FinishedStays(job, Begin(job, d0), times);
    } else if last.Err? || last == Ok(None) {
      UnwrittenChangesNothing(job, d0, times[0]);
      FinishedStays(job, Step(job)(Begin(job, d0), times[0]), times[1..]);
    }
  }

  /** Still where nothing is written to the profile. */
  ghost predicate InPlace(job: Job, d0: Disk, s: State) {
    && (s.phase.LoadMain? || s.phase.Listing? || s.phase.Finished?)
    && forall l: Loc :: l.root != job.root ==> Lookup(s.disk, l) == Lookup(d0, l)
  }

  lemma StepInPlace(job: Job, d0: Disk, s: State, now: nat)
    requires NamesASession(job) && job.root == job.target && InPlace(job, d0, s)
    ensures InPlace(job, d0, Step(job)(s, now))
  {
    forall l: Loc | l.root != job.root
      ensures Lookup(Step(job)(s, now).disk, l) == Lookup(d0, l)
    {
      match s.phase
      case LoadMain => LegacyUntouched(s.disk, job.root, job.legacy, job.main, now, l);
      case Listing(_, todo) =>
        if todo != [] { LegacyUntouched(s.disk, job.root, job.legacy, Subkey(job.main, todo[0]), now, l); }
      case Finished(_) =>
    }
  }

  /** A store that is the profile itself is only brought up to date: whatever happens, the resume
      removes no directory and writes to no root but canonical. */
  lemma {:induction false} ResumeInPlace(job: Job, d0: Disk, s: State, times: seq<nat>)
    requires NamesASession(job) && job.root == job.target && InPlace(job, d0, s)
    ensures InPlace(job, d0, Exec(Step(job), s, times))
    decreases times
  {
    if times != [] {
      StepInPlace(job, d0, s, times[0]);
      ResumeInPlace(job, d0, Step(job)(s, times[0]), times[1..]);
    }
  }

  // ---- The setting of the two runs ----

  /** A profile and a third root beside canonical, and one subagent `k`. */
  predicate Setting(job: Job, third: Root, k: SessionKey) {
    && Writes(job) && ValidSessionId(job.main.sessionId) && job.legacy == [third, job.target]
    && third != job.root && third != job.target
    && KeyNames(k).Ok? && IsSubkeyOf(k, job.main)
    && job.listing == [Join(KeyNames(k).value[2..], '/')]
  }

  /** The session's transcript in canonical, and three copies of the subagent. */
  function ThreeCopiesAndMain(job: Job, third: Root, k: SessionKey, m: Value,
                              here: seq<Value>, kept: seq<Value>, older: seq<Value>): Disk
    requires Setting(job, third, k)
  {
    PutCell(ThreeCopies(job.root, job.target, third, k, here, kept, older), job.root, job.main,
            ReplaceCell(job.main, [m], 0))
  }

  lemma MainIsText(main: SessionKey, m: Value)
    requires main.subpath.None?
    ensures ReplaceCell(main, [m], 0) == Cell(Some(TextFile(JsonLines([m]), 0)), None)
  {
  }

  lemma CopiesHold(job: Job, third: Root, k: SessionKey, m: Value, here: seq<Value>, kept: seq<Value>, older: seq<Value>)
    requires Setting(job, third, k)
    ensures var d := ThreeCopiesAndMain(job, third, k, m, here, kept, older);
            && CellAt(d, job.root, k) == ReplaceCell(k, here, 1)
            && CellAt(d, job.target, k) == ReplaceCell(k, kept, 5)
            && CellAt(d, third, k) == ReplaceCell(k, older, 3)
            && CellAt(d, job.root, job.main) == ReplaceCell(job.main, [m], 0)
  {
    var d := ThreeCopies(job.root, job.target, third, k, here, kept, older);
    var cell := ReplaceCell(job.main, [m], 0);
    ThreeCopiesCells(job.root, job.target, third, k, here, kept, older);
    MainIsText(job.main, m);
    KeyNamesArePlain(k);
    CellAfterPut(d, job.root, job.main, cell, job.root, k);
    CellAfterPut(d, job.root, job.main, cell, job.target, k);
    CellAfterPut(d, job.root, job.main, cell, third, k);
    CellAfterPut(d, job.root, job.main, cell, job.root, job.main);
  }

  lemma ReplacedIsReadable(k: SessionKey, entries: seq<Value>, now: nat)
    ensures ReadCell(ReplaceCell(k, entries, now)).Ok?
    ensures k.subpath.None? ==> ReplaceCell(k, entries, now).sidecar.None?
  {
    ReplaceHolds(k, entries, now);
    ReadHeld(k, ReplaceCell(k, entries, now), entries);
  }

  lemma CopiesAreReadable(job: Job, third: Root, k: SessionKey, m: Value, here: seq<Value>, kept: seq<Value>, older: seq<Value>)
    requires Setting(job, third, k)
    ensures AllReadable(job, ThreeCopiesAndMain(job, third, k, m, here, kept, older))
  {
    var d1 := PutCell(map[], job.root, k, ReplaceCell(k, here, 1));
    var d2 := PutCell(d1, job.target, k, ReplaceCell(k, kept, 5));
    var d3 := PutCell(d2, third, k, ReplaceCell(k, older, 3));
    ReplacedIsReadable(k, here, 1);
    ReplacedIsReadable(k, kept, 5);
    ReplacedIsReadable(k, older, 3);
    ReplacedIsReadable(job.main, [m], 0);
    ReadableAfterPut(job, map[], job.root, k, ReplaceCell(k, here, 1));
    ReadableAfterPut(job, d1, job.target, k, ReplaceCell(k, kept, 5));
    ReadableAfterPut(job, d2, third, k, ReplaceCell(k, older, 3));
    ReadableAfterPut(job, d3, job.root, job.main, ReplaceCell(job.main, [m], 0));
  }

  /** A file of these copies is the session's transcript or a file of the subagent. */
  lemma FilesOfCopies(job: Job, third: Root, k: SessionKey, m: Value, here: seq<Value>, kept: seq<Value>, older: seq<Value>, l: Loc)
    requires Setting(job, third, k) && l in ThreeCopiesAndMain(job, third, k, m, here, kept, older)
    ensures || l.path == PathForKey(job.main).value
            || l.path == WithSuffix(KeyNames(k).value, JSONL) || l.path == WithSuffix(KeyNames(k).value, META)
  {
    var d1 := PutCell(map[], job.root, k, ReplaceCell(k, here, 1));
    var d2 := PutCell(d1, job.target, k, ReplaceCell(k, kept, 5));
    var d3 := PutCell(d2, third, k, ReplaceCell(k, older, 3));
    if l.path != PathForKey(job.main).value && l.path != WithSuffix(KeyNames(k).value, JSONL)
       && l.path != WithSuffix(KeyNames(k).value, META) {
      PutElsewhere(map[], job.root, k, ReplaceCell(k, here, 1), l);
      PutElsewhere(d1, job.target, k, ReplaceCell(k, kept, 5), l);
      PutElsewhere(d2, third, k, ReplaceCell(k, older, 3), l);
      PutElsewhere(d3, job.root, job.main, ReplaceCell(job.main, [m], 0), l);
    }
  }

  /** The listing names exactly the one subagent. */
  lemma CopiesAreListed(job: Job, third: Root, k: SessionKey, m: Value, here: seq<Value>, kept: seq<Value>, older: seq<Value>)
    requires Setting(job, third, k)
    ensures Lists(job, ThreeCopiesAndMain(job, third, k, m, here, kept, older))
  {
    var d := ThreeCopiesAndMain(job, third, k, m, here, kept, older);
    var names := KeyNames(k).value;
    var name := Join(names[2..], '/');
    var file := Loc(job.root, WithSuffix(names, JSONL));
    KeyNamesArePlain(k);
    FilesAreListed(k, JSONL);
    FilesAreListed(k, META);
    CopiesHold(job, third, k, m, here, kept, older);
    assert file in d && Below(file.path, SessionDir(job.main));
    forall s
      ensures s in job.listing <==>
              exists l :: l in d && (l.root == job.root || l.root in job.legacy)
                          && Below(l.path, SessionDir(job.main)) && ListedAs(l.path) == Some(s)
    {
      if l :| l in d && Below(l.path, SessionDir(job.main)) && ListedAs(l.path) == Some(s) {
        FilesOfCopies(job, third, k, m, here, kept, older, l);
      }
    }
  }

  lemma ListedKey(job: Job, third: Root, k: SessionKey)
    requires Setting(job, third, k)
    ensures Usable(job, job.listing) && OfSession(job, k) && Apart(job) && Others(job) == [third]
  {
    NormalSubkey(job, k);
    assert [job.target][1..] == [] && Without([job.target], job.target) == [];
    assert job.legacy[1..] == [job.target];
  }

  lemma MainIsThere(job: Job, third: Root, k: SessionKey, m: Value, here: seq<Value>, kept: seq<Value>, older: seq<Value>)
    requires Setting(job, third, k)
    ensures MainWritten(job, ThreeCopiesAndMain(job, third, k, m, here, kept, older))
  {
    var d := ThreeCopiesAndMain(job, third, k, m, here, kept, older);
    CopiesHold(job, third, k, m, here, kept, older);
    ReplacedReading(d, job.root, job.main, [m], 0);
    forall r | r in job.legacy
      ensures CellAt(d, r, job.main) == NOTHING
    {
      OnlyInCanonical(job, third, k, m, here, kept, older, r);
    }
    NoLegacyCopies(d, job.legacy, job.main);
    OneCopyWins(d, job.root, job.legacy, job.main, [m], 0);
  }

  lemma OneCopyWins(d: Disk, root: Root, legacy: seq<Root>, key: SessionKey, entries: seq<Value>, now: nat)
    requires KeyNames(key).Ok? && LegacyCandidates(d, legacy, key) == []
    requires CellAt(d, root, key) == ReplaceCell(key, entries, now) && entries != []
    ensures LastWritten(d, root, legacy, key) == Ok(Some(Arranged(key, entries)))
  {
    ReplacedReading(d, root, key, entries, now);
  }

  lemma OnlyInCanonical(job: Job, third: Root, k: SessionKey, m: Value, here: seq<Value>, kept: seq<Value>, older: seq<Value>, r: Root)
    requires Setting(job, third, k) && r != job.root
    ensures CellAt(ThreeCopiesAndMain(job, third, k, m, here, kept, older), r, job.main) == NOTHING
  {
    var d1 := PutCell(map[], job.root, k, ReplaceCell(k, here, 1));
    var d2 := PutCell(d1, job.target, k, ReplaceCell(k, kept, 5));
    var d3 := PutCell(d2, third, k, ReplaceCell(k, older, 3));
    KeyNamesArePlain(k);
    MainIsText(job.main, m);
    CellAfterPut(map[], job.root, k, ReplaceCell(k, here, 1), r, job.main);
    CellAfterPut(d1, job.target, k, ReplaceCell(k, kept, 5), r, job.main);
    CellAfterPut(d2, third, k, ReplaceCell(k, older, 3), r, job.main);
    CellAfterPut(d3, job.root, job.main, ReplaceCell(job.main, [m], 0), r, job.main);
  }

  lemma {:induction false} NoLegacyCopies(d: Disk, legacy: seq<Root>, key: SessionKey)
    requires KeyNames(key).Ok? && forall r :: r in legacy ==> CellAt(d, r, key) == NOTHING
    ensures LegacyCandidates(d, legacy, key) == []
  {
    if legacy != [] {
      assert CellAt(d, legacy[|legacy| - 1], key) == NOTHING;
      NoLegacyCopies(d, legacy[..|legacy| - 1], key);
    }
  }

  // ---- The two runs ----

  /** Who wins: the profile's copy, and without it the third root's. */
  lemma CopiesCompete(job: Job, third: Root, k: SessionKey, m: Value, here: seq<Value>, kept: seq<Value>, older: seq<Value>)
    requires Setting(job, third, k) && here != [] && kept != [] && older != []
    ensures var d := ThreeCopiesAndMain(job, third, k, m, here, kept, older);
            && Winner(d, job.root, job.legacy, k) == Some(Candidate(job.target, 5, false))
            && Winner(d, job.root, [third], k) == Some(Candidate(third, 3, false)) == Best(LegacyCandidates(d, [third], k))
            && ReadEntriesAt(d, job.root, k) == Ok(Some(Arranged(k, here)))
            && ReadEntriesAt(d, job.target, k) == Ok(Some(Arranged(k, kept)))
            && ReadEntriesAt(d, third, k) == Ok(Some(Arranged(k, older)))
  {
    var d := ThreeCopiesAndMain(job, third, k, m, here, kept, older);
    CopiesHold(job, third, k, m, here, kept, older);
    ReplacedReading(d, job.root, k, here, 1);
    ReplacedReading(d, job.target, k, kept, 5);
    ReplacedReading(d, third, k, older, 3);
    TwoCandidates(d, job.root, third, k);
    ThreeCandidates(d, job.root, third, job.target, k);
    BestIsTheMaximum([Candidate(third, 3, false)], Candidate(third, 3, false));
  }

  lemma DatesOfCopies(job: Job, third: Root, k: SessionKey, m: Value, here: seq<Value>, kept: seq<Value>, older: seq<Value>, l: Loc)
    requires Setting(job, third, k) && l.root == third && l in ThreeCopiesAndMain(job, third, k, m, here, kept, older)
    ensures ThreeCopiesAndMain(job, third, k, m, here, kept, older)[l].mtime == 3
  {
    var d := ThreeCopiesAndMain(job, third, k, m, here, kept, older);
    CopiesHold(job, third, k, m, here, kept, older);
    OnlyInCanonical(job, third, k, m, here, kept, older, third);
    FilesOfCopies(job, third, k, m, here, kept, older, l);
    assert Lookup(d, l).Some?;
  }

  /** Every write of the run is dated `now`. */
  function AllAt(now: nat, n: nat): seq<nat> {
    seq(n, _ => now)
  }

  /** Where the run ends when every write is dated `now`. */
  function EndOf(job: Job, d0: Disk, now: nat): State {
    Exec(Step(job), Begin(job, d0), AllAt(now, StepsLeft(job, LoadMain)))
  }

  lemma RunEndsWell(job: Job, third: Root, k: SessionKey, m: Value, here: seq<Value>, kept: seq<Value>, older: seq<Value>, now: nat)
    requires Setting(job, third, k)
    ensures var d := ThreeCopiesAndMain(job, third, k, m, here, kept, older);
            EndOf(job, d, now).phase == Finished(Ok(true))
  {
    var d := ThreeCopiesAndMain(job, third, k, m, here, kept, older);
    ListedKey(job, third, k);
    CopiesAreReadable(job, third, k, m, here, kept, older);
    MainIsThere(job, third, k, m, here, kept, older);
    ReadableResumeSucceeds(job, d, AllAt(now, StepsLeft(job, LoadMain)));
  }

  lemma CopiesAreSided(job: Job, third: Root, k: SessionKey, m: Value, here: seq<Value>, kept: seq<Value>, older: seq<Value>, now: nat)
    requires Setting(job, third, k)
    ensures Sided(job, Origin(ThreeCopiesAndMain(job, third, k, m, here, kept, older), now), now)
  {
    var d := ThreeCopiesAndMain(job, third, k, m, here, kept, older);
    ListedKey(job, third, k);
    forall l | l in d && l.root in Others(job)
      ensures d[l].mtime <= now || d[l].mtime > now
    {
      DatesOfCopies(job, third, k, m, here, kept, older, l);
    }
  }

  lemma CopiesDecide(job: Job, third: Root, k: SessionKey, m: Value, here: seq<Value>, kept: seq<Value>, older: seq<Value>)
    requires Setting(job, third, k) && here != [] && kept != [] && older != []
    ensures var d := ThreeCopiesAndMain(job, third, k, m, here, kept, older);
            && LastWritten(d, job.root, job.legacy, k) == Ok(Some(Arranged(k, kept)))
            && LastWritten(d, job.root, [third], k) == Ok(Some(Arranged(k, older)))
            && Decide(d, job.root, job.legacy, k)
               == if Arranged(k, here) == Arranged(k, kept) then Keep(Unchanged) else Promote(Arranged(k, kept))
  {
    CopiesCompete(job, third, k, m, here, kept, older);
  }

  /** The condition fails when the last written entries are not brought in and the other roots say
      otherwise, or when they are and another root has a different copy from the future. */
  lemma ConditionFails(job: Job, o: Origin, k: SessionKey, third: Root, other: Reading)
    requires OfSession(job, k) && k.subpath.Some? && LastOfOthers(job, o.disk, k) == other != Last(job, o.disk, k)
    requires Leader(job, o.disk, k) == Some(Candidate(third, 3, false))
    requires ReadEntriesAt(o.disk, third, k) != Ok(None) && ArrangedReading(k, ReadEntriesAt(o.disk, third, k)) == other
    requires var decision := Decide(o.disk, job.root, job.legacy, k);
             decision.Keep? || (decision.Promote? && o.pivot < 3)
    ensures !LeavesLastWritten(job, o, k)
  {
  }

  /** A reading of arranged entries stays as it is when arranged again. */
  lemma ArrangedReadingTwice(k: SessionKey, entries: seq<Value>)
    ensures ArrangedReading(k, Ok(Some(Arranged(k, entries)))) == Ok(Some(Arranged(k, entries)))
  {
    ArrangedTwice(k, entries);
  }

  /** The profile's copy equals canonical's, or it is brought in and the third root's is from the
      future. */
  lemma CopiesLose(job: Job, third: Root, k: SessionKey, m: Value, here: seq<Value>, kept: seq<Value>, older: seq<Value>, now: nat)
    requires Setting(job, third, k) && here != [] && kept != [] && older != []
    requires Arranged(k, kept) != Arranged(k, older) && (Arranged(k, here) == Arranged(k, kept) || now < 3)
    ensures var o := Origin(ThreeCopiesAndMain(job, third, k, m, here, kept, older), now);
            OfSession(job, k) && Last(job, o.disk, k) == Ok(Some(Arranged(k, kept))) && !LeavesLastWritten(job, o, k)
  {
    var o := Origin(ThreeCopiesAndMain(job, third, k, m, here, kept, older), now);
    ListedKey(job, third, k);
    CopiesCompete(job, third, k, m, here, kept, older);
    CopiesDecide(job, third, k, m, here, kept, older);
    ArrangedReadingTwice(k, kept);
    ArrangedReadingTwice(k, older);
    ConditionFails(job, o, k, third, Ok(Some(Arranged(k, older))));
  }

  lemma LosesWhenItFails(job: Job, o: Origin, k: SessionKey, now: nat)
    requires Apart(job) && OfSession(job, k) && Lists(job, o.disk) && !LeavesLastWritten(job, o, k)
    requires Sided(job, o, now) && EndOf(job, o.disk, now).phase == Finished(Ok(true))
    ensures var d := EndOf(job, o.disk, now).disk;
            ReadEntriesAt(d, job.target, k) == ArrangedReading(k, ReadEntriesAt(d, job.root, k)) != Last(job, o.disk, k)
  {
    ResumeWithAnyRoots(job, o, k, AllAt(now, StepsLeft(job, LoadMain)));
  }

  /** A resume that succeeds can lose what was written last: canonical holds `here` since 1, the
      profile `kept` since 5, and a third root `older` since 3. If canonical holds the same as the
      profile, whatever the date of the resume's writes, or if they are dated before 3, the resume
      succeeds and leaves something else than `kept` in canonical and in the profile. */
  lemma ResumeCanLose(job: Job, third: Root, k: SessionKey, m: Value, here: seq<Value>, kept: seq<Value>, older: seq<Value>, now: nat)
    requires Setting(job, third, k) && here != [] && kept != [] && older != []
    requires Arranged(k, kept) != Arranged(k, older) && (Arranged(k, here) == Arranged(k, kept) || now < 3)
    ensures var d0 := ThreeCopiesAndMain(job, third, k, m, here, kept, older);
            var s := EndOf(job, d0, now);
            && OfSession(job, k) && Last(job, d0, k) == Ok(Some(Arranged(k, kept)))
            && s.phase == Finished(Ok(true))
            && ReadEntriesAt(s.disk, job.target, k) == ArrangedReading(k, ReadEntriesAt(s.disk, job.root, k)) != Last(job, d0, k)
  {
    var d0 := ThreeCopiesAndMain(job, third, k, m, here, kept, older);
    ListedKey(job, third, k);
    RunEndsWell(job, third, k, m, here, kept, older, now);
    CopiesAreListed(job, third, k, m, here, kept, older);
    CopiesAreSided(job, third, k, m, here, kept, older, now);
    CopiesLose(job, third, k, m, here, kept, older, now);
    LosesWhenItFails(job, Origin(d0, now), k, now);
  }

  /** An identifier of zeros. */
  const SESSION: string := seq(36, i => if i in {8, 13, 18, 23} then '-' else '0')
  const CANONICAL: Root := [Normal("canonical")]
  const PROFILE: Root := [Normal("profile")]
  const THIRD: Root := [Normal("third")]
  const RESUME := Job(CANONICAL, [THIRD, PROFILE], PROFILE, SessionKey("project", SESSION, None), ["agent"])
  const AGENT := SessionKey("project", SESSION, Some("agent"))

  lemma SessionIsPlain()
    ensures ValidSessionId(SESSION) && ValidSegment(SESSION)
  {
    assert SESSION[0] == '0';
  }

  lemma AgentIsPlain()
    ensures NormalizedSubpath("agent") == Ok(["agent"])
  {
    var name := ["agent"];
    assert name[0][0] == 'a';
    NormalizedJoin(name);
  }

  lemma ProjectIsPlain()
    ensures ValidSegment("project")
  {
    var project := "project";
    assert project[0] == 'p';
  }

  lemma AgentHasNames()
    ensures KeyNames(RESUME.main) == Ok(["project", SESSION]) && KeyNames(AGENT) == Ok(["project", SESSION] + ["agent"])
  {
    SessionIsPlain();
    AgentIsPlain();
    ProjectIsPlain();
  }

  lemma RootsDiffer()
    ensures CANONICAL != PROFILE && PROFILE != THIRD && THIRD != CANONICAL
  {
    assert CANONICAL[0].name[0] == 'c' && PROFILE[0].name[0] == 'p' && THIRD[0].name[0] == 't';
  }

  /** There is such a resume. */
  lemma SettingIsReal()
    ensures Setting(RESUME, THIRD, AGENT)
  {
    SessionIsPlain();
    AgentHasNames();
    RootsDiffer();
    assert KeyNames(AGENT).value[2..] == ["agent"];
  }

  lemma PlainEntry(k: SessionKey, v: Value)
    requires !IsMetadata(v)
    ensures Arranged(k, [v]) == [v]
  {
    OneEntry(v);
  }

  /** The resume of a session whose subagent's newest copy, in the profile, equals canonical's: it
      succeeds, and the older copy of a third root is left everywhere. */
  lemma ResumeLosesTheNewest(now: nat)
    ensures Setting(RESUME, THIRD, AGENT)
    ensures var d0 := ThreeCopiesAndMain(RESUME, THIRD, AGENT, Text("start"), [Text("new")], [Text("new")], [Text("old")]);
            && OfSession(RESUME, AGENT) && Last(RESUME, d0, AGENT) == Ok(Some([Text("new")]))
            && EndOf(RESUME, d0, now).phase == Finished(Ok(true))
            && ReadEntriesAt(EndOf(RESUME, d0, now).disk, PROFILE, AGENT) != Ok(Some([Text("new")]))
  {
    SettingIsReal();
    PlainEntry(AGENT, Text("new"));
    PlainEntry(AGENT, Text("old"));
    ResumeCanLose(RESUME, THIRD, AGENT, Text("start"), [Text("new")], [Text("new")], [Text("old")], now);
  }
}
