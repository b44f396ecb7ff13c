/** What a resume leaves (claude-agent-sdk/src/session_store.rs:515-569, 976-1080): wherever it
    stops, what is still there; when it succeeds, what the profile holds; and exactly when that
    is what was written last.

    The profile may be the store's only legacy root, one of many, or none of them. One invariant
    follows one key of the session through all phases: until the profile is written no legacy
    root has changed, and canonical only to hold what was written last; from then on canonical
    and the roots besides the profile lead to the same entries, and the profile holds these as
    soon as it holds anything complete. */
module ResumeOutcome {
  import opened Common
  import opened SessionPaths
  import opened SessionDisk
  import opened Reconcile
  import opened Materialize

  predicate Apart(job: Job) {
    Writes(job) && job.root !in job.legacy
  }

  /** The legacy roots besides the profile. */
  function Others(job: Job): seq<Root> {
    Without(job.legacy, job.target)
  }

  /** Where a resume starts: the disk, and a date that tells the files of the other legacy roots
      that are older than the resume from those dated in its future. */
  datatype Origin = Origin(disk: Disk, pivot: nat)

  /** A write at `now` is not before the pivot, and no file of these roots is dated between. */
  ghost predicate Sided(job: Job, o: Origin, now: nat) {
    o.pivot <= now
    && forall l :: l in o.disk && l.root in Others(job) ==> o.disk[l].mtime <= o.pivot || o.disk[l].mtime > now
  }

  /** What was written last, the profile aside. */
  function LastOfOthers(job: Job, d: Disk, k: SessionKey): Reading
    requires OfSession(job, k)
  {
    ArrangedReading(k, LastWritten(d, job.root, Others(job), k))
  }

  /** The best copy of the other legacy roots. */
  function Leader(job: Job, d: Disk, k: SessionKey): Option<Candidate>
    requires OfSession(job, k)
  {
    Best(LegacyCandidates(d, Others(job), k))
  }

  /** The best of these copies holds something and is dated in the resume's future. */
  predicate FutureCopy(job: Job, o: Origin, k: SessionKey)
    requires OfSession(job, k)
  {
    var v := Leader(job, o.disk, k);
    v.Some? && v.value.modified > o.pivot && ReadEntriesAt(o.disk, v.value.root, k) != Ok(None)
  }

  function FutureReading(job: Job, o: Origin, k: SessionKey): Reading
    requires OfSession(job, k) && FutureCopy(job, o, k)
  {
    ArrangedReading(k, ReadEntriesAt(o.disk, Leader(job, o.disk, k).value.root, k))
  }

  /** What a resume leaves: what was written last, when the key is the main transcript, or when it
      was brought into canonical and no copy from the future wins over it there; what was written
      last in the roots that stay, when it was not brought into canonical. */
  function Expected(job: Job, o: Origin, k: SessionKey): Reading
    requires OfSession(job, k)
  {
    if k.subpath.None? then Last(job, o.disk, k)
    else if !Decide(o.disk, job.root, job.legacy, k).Promote? then LastOfOthers(job, o.disk, k)
    else if FutureCopy(job, o, k) then FutureReading(job, o, k)
    else Last(job, o.disk, k)
  }

  /** What was written last when the resume began is what it is expected to leave: it is brought
      into canonical and no copy of another root from the future says otherwise, or it is not
      brought in and the roots that stay agree on it. */
  predicate LeavesLastWritten(job: Job, o: Origin, k: SessionKey)
    requires OfSession(job, k)
  {
    k.subpath.None? ||
    match Decide(o.disk, job.root, job.legacy, k)
    case Fail(_) => true
    case Keep(_) => LastOfOthers(job, o.disk, k) == Last(job, o.disk, k)
    case Promote(_) => FutureCopy(job, o, k) ==> FutureReading(job, o, k) == Last(job, o.disk, k)
  }

  /** Some root of the store still holds what was written last. */
  ghost predicate Held(job: Job, o: Origin, d: Disk, k: SessionKey)
    requires OfSession(job, k)
  {
    exists r :: (r == job.root || r in job.legacy) && HeldIn(job, o, d, k, r)
  }

  predicate HeldIn(job: Job, o: Origin, d: Disk, k: SessionKey, r: Root)
    requires OfSession(job, k)
  {
    ArrangedReading(k, ReadEntriesAt(d, r, k)) == Last(job, o.disk, k)
  }

  ghost predicate Survives(job: Job, o: Origin, d: Disk, k: SessionKey)
    requires OfSession(job, k)
  {
    LeavesLastWritten(job, o, k) ==> Held(job, o, d, k)
  }

  // ---- Frames ----

  ghost predicate SameLegacy(d: Disk, e: Disk, legacy: seq<Root>, k: SessionKey)
    requires KeyNames(k).Ok?
  {
    forall r :: r in legacy ==> CellAt(e, r, k) == CellAt(d, r, k)
  }

  lemma LastFrame(d: Disk, e: Disk, root: Root, legacy: seq<Root>, k: SessionKey)
    requires KeyNames(k).Ok? && CellAt(e, root, k) == CellAt(d, root, k) && SameLegacy(d, e, legacy, k)
    ensures Decide(e, root, legacy, k) == Decide(d, root, legacy, k)
    ensures LastWritten(e, root, legacy, k) == LastWritten(d, root, legacy, k)
  {
    LegacyCandidatesFrame(d, e, legacy, k);
    assert CandidateAt(e, root, k, true) == CandidateAt(d, root, k, true);
    if Winner(d, root, legacy, k).Some? {
      WinnerIsACopy(d, root, legacy, k);
    }
  }

  lemma DatesAt(job: Job, o: Origin, r: Root, k: SessionKey, now: nat)
    requires KeyNames(k).Ok? && Sided(job, o, now) && r in Others(job) && CandidateAt(o.disk, r, k, false).Some?
    ensures var m := CandidateAt(o.disk, r, k, false).value.modified; m <= o.pivot || m > now
  {
  }

  /** Copies that are as they were are dated on one side of `now` and the pivot. */
  lemma SidedLeader(job: Job, o: Origin, d: Disk, k: SessionKey, now: nat)
    requires OfSession(job, k) && SameLegacy(o.disk, d, Others(job), k) && Sided(job, o, now)
    ensures Leader(job, d, k) == Leader(job, o.disk, k)
    ensures var v := Leader(job, d, k);
            v.Some? ==>
              && v.value.root in Others(job) && !v.value.canonical
              && ReadEntriesAt(d, v.value.root, k) == ReadEntriesAt(o.disk, v.value.root, k)
              && (v.value.modified > now <==> v.value.modified > o.pivot)
  {
    LegacyCandidatesFrame(o.disk, d, Others(job), k);
    var v := Leader(job, d, k);
    if v.Some? {
      BestIsTheMaximum(LegacyCandidates(o.disk, Others(job), k), v.value);
      assert CellAt(d, v.value.root, k) == CellAt(o.disk, v.value.root, k);
      DatesAt(job, o, v.value.root, k, now);
    }
  }

  /** Against a canonical copy written at `now` the best of the others wins exactly when it is
      dated later. */
  lemma WinnerAt(job: Job, d: Disk, k: SessionKey, entries: seq<Value>, now: nat)
    requires OfSession(job, k) && CellAt(d, job.root, k) == ReplaceCell(k, entries, now)
    ensures var v := Leader(job, d, k);
            Winner(d, job.root, Others(job), k)
            == if v.Some? && v.value.modified > now then v else Some(Candidate(job.root, now, true))
  {
    var mine, copies := Candidate(job.root, now, true), LegacyCandidates(d, Others(job), k);
    assert CandidateAt(d, job.root, k, true) == Some(mine);
    if copies == [] {
      assert Candidates(d, job.root, Others(job), k) == [mine];
    } else {
      var v := Leader(job, d, k).value;
      BestIsTheMaximum(copies, v);
      BestAgainstCanonical(copies, copies, v, mine);
    }
  }

  lemma LastAt(job: Job, d: Disk, k: SessionKey, entries: seq<Value>, now: nat)
    requires OfSession(job, k) && entries != [] && CellAt(d, job.root, k) == ReplaceCell(k, entries, now)
    ensures ReadEntriesAt(d, job.root, k) == Ok(Some(Arranged(k, entries)))
    ensures var v := Leader(job, d, k);
            LastWritten(d, job.root, Others(job), k)
            == if v.Some? && v.value.modified > now && ReadEntriesAt(d, v.value.root, k) != Ok(None)
               then ReadEntriesAt(d, v.value.root, k) else Ok(Some(Arranged(k, entries)))
  {
    WinnerAt(job, d, k, entries, now);
    ReplaceHolds(k, entries, now);
    ReadHeld(k, ReplaceCell(k, entries, now), entries);
  }

  // ---- Until the profile is written ----

  /** Canonical was brought up to date from a legacy root. */
  ghost predicate Brought(job: Job, o: Origin, d: Disk, k: SessionKey)
    requires OfSession(job, k)
  {
    var decision := Decide(o.disk, job.root, job.legacy, k);
    decision.Promote?
    && exists now :: Sided(job, o, now) && CellAt(d, job.root, k) == ReplaceCell(k, decision.entries, now)
  }

  ghost predicate Early(job: Job, o: Origin, d: Disk, k: SessionKey)
    requires OfSession(job, k)
  {
    SameLegacy(o.disk, d, job.legacy, k) && (CellAt(d, job.root, k) == CellAt(o.disk, job.root, k) || Brought(job, o, d, k))
  }

  ghost predicate Settled(job: Job, o: Origin, d: Disk, k: SessionKey)
    requires OfSession(job, k)
  {
    match Decide(o.disk, job.root, job.legacy, k)
    case Fail(_) => false
    case Keep(_) => CellAt(d, job.root, k) == CellAt(o.disk, job.root, k)
    case Promote(_) => Brought(job, o, d, k)
  }

  lemma BroughtReads(job: Job, o: Origin, d: Disk, k: SessionKey)
    requires OfSession(job, k) && Brought(job, o, d, k)
    ensures var entries := Decide(o.disk, job.root, job.legacy, k).entries;
            && Last(job, o.disk, k) == Ok(Some(Arranged(k, entries)))
            && ReadEntriesAt(d, job.root, k) == Ok(Some(Arranged(k, entries)))
    ensures ArrangedReading(k, ReadEntriesAt(d, job.root, k)) == Last(job, o.disk, k)
  {
    var entries := Decide(o.disk, job.root, job.legacy, k).entries;
    var now :| Sided(job, o, now) && CellAt(d, job.root, k) == ReplaceCell(k, entries, now);
    var w := PromoteMeans(o.disk, job.root, job.legacy, k);
    DecisionIsLastWritten(o.disk, job.root, job.legacy, k);
    ReplaceHolds(k, entries, now);
    ReadHeld(k, ReplaceCell(k, entries, now), entries);
    ArrangedTwice(k, entries);
  }

  /** The copy brought in leads to what is expected, in the roots that stay. */
  lemma BroughtLeads(job: Job, o: Origin, d: Disk, k: SessionKey)
    requires OfSession(job, k) && k.subpath.Some? && Brought(job, o, d, k) && SameLegacy(o.disk, d, Others(job), k)
    ensures LastOfOthers(job, d, k) == Expected(job, o, k)
  {
    var entries := Decide(o.disk, job.root, job.legacy, k).entries;
    var now :| Sided(job, o, now) && CellAt(d, job.root, k) == ReplaceCell(k, entries, now);
    var w := PromoteMeans(o.disk, job.root, job.legacy, k);
    BroughtReads(job, o, d, k);
    SidedLeader(job, o, d, k, now);
    LastAt(job, d, k, entries, now);
    ArrangedTwice(k, entries);
  }

  /** Reconciling after that changes nothing, or brings the same entries in again. */
  lemma DecideBrought(job: Job, o: Origin, d: Disk, k: SessionKey)
    requires Apart(job) && OfSession(job, k) && Brought(job, o, d, k) && SameLegacy(o.disk, d, job.legacy, k)
    ensures Decide(d, job.root, job.legacy, k) in {Keep(Unchanged), Decide(o.disk, job.root, job.legacy, k)}
  {
    var entries := Decide(o.disk, job.root, job.legacy, k).entries;
    var now :| Sided(job, o, now) && CellAt(d, job.root, k) == ReplaceCell(k, entries, now);
    var w := PromoteMeans(o.disk, job.root, job.legacy, k);
    WinnerIsACopy(o.disk, job.root, job.legacy, k);
    BroughtReads(job, o, d, k);
    LegacyCandidatesFrame(o.disk, d, job.legacy, k);
    var mine := Candidate(job.root, now, true);
    assert CandidateAt(d, job.root, k, true) == Some(mine);
    BestAgainstCanonical(LegacyCandidates(d, job.legacy, k), Candidates(o.disk, job.root, job.legacy, k), w, mine);
    assert CellAt(d, w.root, k) == CellAt(o.disk, w.root, k);
    DecideAgain(d, job.root, job.legacy, k, w, entries, now);
  }

  lemma BringIn(job: Job, o: Origin, d: Disk, k: SessionKey, now: nat)
    requires Apart(job) && OfSession(job, k) && SameLegacy(o.disk, d, job.legacy, k) && Sided(job, o, now)
    requires Decide(o.disk, job.root, job.legacy, k).Promote?
    ensures var d1 := PutCell(d, job.root, k, ReplaceCell(k, Decide(o.disk, job.root, job.legacy, k).entries, now));
            SameLegacy(o.disk, d1, job.legacy, k) && Brought(job, o, d1, k)
  {
    var cell := ReplaceCell(k, Decide(o.disk, job.root, job.legacy, k).entries, now);
    CellAfterPut(d, job.root, k, cell, job.root, k);
    forall r | r in job.legacy
      ensures CellAt(PutCell(d, job.root, k, cell), r, k) == CellAt(d, r, k)
    {
      CellAfterPut(d, job.root, k, cell, r, k);
    }
  }

  lemma ReconcileEarly(job: Job, o: Origin, d: Disk, k: SessionKey, now: nat)
    requires Apart(job) && OfSession(job, k) && Early(job, o, d, k) && Sided(job, o, now)
    ensures var (outcome, d1) := ReconcileOn(d, job.root, job.legacy, k, now);
            Early(job, o, d1, k) && (outcome.Ok? ==> Settled(job, o, d1, k))
  {
    if CellAt(d, job.root, k) == CellAt(o.disk, job.root, k) {
      LastFrame(o.disk, d, job.root, job.legacy, k);
    } else {
      DecideBrought(job, o, d, k);
    }
    if Decide(d, job.root, job.legacy, k).Promote? {
      BringIn(job, o, d, k, now);
    }
  }

  lemma OthersAreLegacy(job: Job, d: Disk, e: Disk, k: SessionKey)
    requires KeyNames(k).Ok? && SameLegacy(d, e, job.legacy, k)
    ensures SameLegacy(d, e, Others(job), k)
  {
    forall r | r in Others(job)
      ensures r in job.legacy
    {
      WithoutIn(job.legacy, job.target, r);
    }
  }

  /** Once settled, canonical holds what was written last, and the roots that stay agree on what
      is expected. */
  lemma SettledMeans(job: Job, o: Origin, d: Disk, k: SessionKey)
    requires OfSession(job, k) && Settled(job, o, d, k) && SameLegacy(o.disk, d, job.legacy, k)
    ensures ArrangedReading(k, ReadEntriesAt(d, job.root, k)) == Last(job, o.disk, k)
    ensures k.subpath.Some? ==> LastOfOthers(job, d, k) == Expected(job, o, k)
  {
    OthersAreLegacy(job, o.disk, d, k);
    if Decide(o.disk, job.root, job.legacy, k).Promote? {
      BroughtReads(job, o, d, k);
      if k.subpath.Some? {
        BroughtLeads(job, o, d, k);
      }
    } else {
      DecisionIsLastWritten(o.disk, job.root, job.legacy, k);
      LastFrame(o.disk, d, job.root, Others(job), k);
    }
  }

  lemma LastIsSomewhere(d: Disk, root: Root, legacy: seq<Root>, k: SessionKey) returns (r: Root)
    requires KeyNames(k).Ok?
    ensures (r == root || r in legacy) && LastWritten(d, root, legacy, k) == ReadEntriesAt(d, r, k)
  {
    r := root;
    if Winner(d, root, legacy, k).Some? {
      WinnerIsACopy(d, root, legacy, k);
      var w := Winner(d, root, legacy, k).value;
      if ReadEntriesAt(d, w.root, k) != Ok(None) {
        r := w.root;
      }
    } else {
      NoCopyReadsNothing(d, root, legacy, k);
    }
  }

  /** Before the profile is written nothing is lost: no legacy root has changed, and canonical
      only to hold what was written last. */
  lemma EarlyHolds(job: Job, o: Origin, d: Disk, k: SessionKey)
    requires OfSession(job, k) && Early(job, o, d, k)
    ensures Held(job, o, d, k)
  {
    if CellAt(d, job.root, k) == CellAt(o.disk, job.root, k) {
      var r := LastIsSomewhere(o.disk, job.root, job.legacy, k);
      assert CellAt(d, r, k) == CellAt(o.disk, r, k);
      assert HeldIn(job, o, d, k, r);
    } else {
      BroughtReads(job, o, d, k);
      assert HeldIn(job, o, d, k, job.root);
    }
  }

  // ---- While the profile is written ----

  ghost predicate Complete(job: Job, o: Origin, d: Disk, k: SessionKey)
    requires OfSession(job, k)
  {
    Decided(job, o, k) && Done(job, d, k) && ArrangedReading(k, ReadEntriesAt(d, job.root, k)) == Expected(job, o, k)
  }

  predicate Decided(job: Job, o: Origin, k: SessionKey)
    requires OfSession(job, k)
  {
    !Decide(o.disk, job.root, job.legacy, k).Fail?
  }

  /** The roots that stay lead to what is expected. */
  ghost predicate Steady(job: Job, o: Origin, d: Disk, k: SessionKey)
    requires OfSession(job, k)
  {
    Decided(job, o, k) && SameLegacy(o.disk, d, Others(job), k) && LastOfOthers(job, d, k) == Expected(job, o, k)
    && DatedCell(job, o, CellAt(d, job.target, k))
  }

  /** The files were written by the resume, as far as the dates of the other roots can tell. */
  ghost predicate DatedCell(job: Job, o: Origin, cell: Cell) {
    && (cell.transcript.Some? ==> Sided(job, o, cell.transcript.value.mtime))
    && (cell.sidecar.Some? ==> Sided(job, o, cell.sidecar.value.mtime))
  }

  /** As long as the roots that stay lead to what was written last, one of them holds it. */
  lemma SteadySurvives(job: Job, o: Origin, d: Disk, k: SessionKey)
    requires OfSession(job, k) && Steady(job, o, d, k)
    ensures Survives(job, o, d, k)
  {
    if LeavesLastWritten(job, o, k) {
      var r := LastIsSomewhere(d, job.root, Others(job), k);
      WithoutIn(job.legacy, job.target, r);
      assert HeldIn(job, o, d, k, r);
    }
  }

  lemma CompleteSurvives(job: Job, o: Origin, d: Disk, k: SessionKey)
    requires OfSession(job, k) && Complete(job, o, d, k)
    ensures Survives(job, o, d, k)
  {
    if LeavesLastWritten(job, o, k) {
      assert HeldIn(job, o, d, k, job.root);
    }
  }

  ghost predicate Late(job: Job, o: Origin, d: Disk, todo: seq<string>, k: SessionKey)
    requires OfSession(job, k)
  {
    if k.subpath.None? then Complete(job, o, d, k)
    else
      Steady(job, o, d, k)
      && (Complete(job, o, d, k) || (CellAt(d, job.target, k) == NOTHING && Mentions(job, todo, k)))
  }

  ghost predicate Writing(job: Job, o: Origin, d: Disk, k: SessionKey, entries: seq<Value>)
    requires OfSession(job, k)
  {
    k.subpath.Some? && Steady(job, o, d, k)
    && ReadEntriesAt(d, job.root, k) == Ok(Some(entries)) && Ok(Some(Arranged(k, entries))) == Expected(job, o, k)
    && Fits(k, CellAt(d, job.target, k), entries)
  }

  ghost predicate Sound(job: Job, o: Origin, s: State, k: SessionKey)
    requires OfSession(job, k)
  {
    var d := s.disk;
    match s.phase
    case LoadMain => Early(job, o, d, k)
    case Listing(entries, todo) =>
      Early(job, o, d, k)
      && if k.subpath.None? then Settled(job, o, d, k) && ReadEntriesAt(d, job.root, k) == Ok(Some(entries))
         else Mentions(job, todo, k) || Settled(job, o, d, k)
    case WriteMain(entries) =>
      Early(job, o, d, k) && Settled(job, o, d, k)
      && (k.subpath.None? ==> ReadEntriesAt(d, job.root, k) == Ok(Some(entries)))
    case RemoveSessionDir =>
      if k.subpath.None? then Complete(job, o, d, k) else Early(job, o, d, k) && Settled(job, o, d, k)
    case LoadSub(todo) => Late(job, o, d, todo, k)
    case WriteTranscript(key, entries, todo) =>
      KeyNames(key).Ok? && IsSubkeyOf(key, job.main)
      && if SameFiles(key, k) then Writing(job, o, d, k, entries) else Late(job, o, d, todo, k)
    case WriteMetadata(key, entries, todo) =>
      KeyNames(key).Ok? && IsSubkeyOf(key, job.main)
      && if SameFiles(key, k) then
           Writing(job, o, d, k, entries)
           && (Kept(k, entries) != [] ==> CellAt(d, job.target, k).transcript.Some?)
         else Late(job, o, d, todo, k)
    case Finished(result) => if result == Ok(true) then Complete(job, o, d, k) else Survives(job, o, d, k)
  }

  ghost predicate SameCells(job: Job, d: Disk, e: Disk, k: SessionKey)
    requires KeyNames(k).Ok?
  {
    && CellAt(e, job.root, k) == CellAt(d, job.root, k)
    && CellAt(e, job.target, k) == CellAt(d, job.target, k)
    && SameLegacy(d, e, job.legacy, k)
  }

  lemma EarlyFrame(job: Job, o: Origin, d: Disk, e: Disk, k: SessionKey)
    requires OfSession(job, k) && SameCells(job, d, e, k)
    ensures Early(job, o, d, k) ==> Early(job, o, e, k)
    ensures Settled(job, o, d, k) ==> Settled(job, o, e, k)
  {
  }

  lemma CompleteFrame(job: Job, o: Origin, d: Disk, e: Disk, k: SessionKey)
    requires OfSession(job, k) && SameCells(job, d, e, k)
    ensures Complete(job, o, e, k) == Complete(job, o, d, k)
  {
    KeepCells(job, d, e, k);
  }

  lemma SteadyFrame(job: Job, o: Origin, d: Disk, e: Disk, k: SessionKey)
    requires OfSession(job, k) && Steady(job, o, d, k)
    requires CellAt(e, job.root, k) == CellAt(d, job.root, k) && SameLegacy(d, e, Others(job), k)
    requires CellAt(e, job.target, k) == CellAt(d, job.target, k)
    ensures Steady(job, o, e, k)
  {
    LastFrame(d, e, job.root, Others(job), k);
  }

  lemma LateFrame(job: Job, o: Origin, d: Disk, e: Disk, todo: seq<string>, k: SessionKey)
    requires OfSession(job, k) && SameCells(job, d, e, k) && Late(job, o, d, todo, k)
    ensures Late(job, o, e, todo, k)
  {
    CompleteFrame(job, o, d, e, k);
    if k.subpath.Some? {
      OthersAreLegacy(job, d, e, k);
      SteadyFrame(job, o, d, e, k);
    }
  }

  lemma OtherKey(job: Job, d: Disk, key: SessionKey, k: SessionKey, now: nat)
    requires OfSession(job, k) && KeyNames(key) != KeyNames(k)
    ensures SameCells(job, d, ReconcileOn(d, job.root, job.legacy, key, now).1, k)
  {
    var d1 := ReconcileOn(d, job.root, job.legacy, key, now).1;
    forall r
      ensures CellAt(d1, r, k) == CellAt(d, r, k)
    {
      ReconcileFrame(d, job.root, job.legacy, key, now, r, k);
    }
  }

  /** A subagent the listing does not mention is nowhere in the store. */
  lemma UnlistedIsSettled(job: Job, o: Origin, d: Disk, k: SessionKey)
    requires Apart(job) && OfSession(job, k) && k.subpath.Some? && Lists(job, o.disk) && Early(job, o, d, k)
    requires !Mentions(job, job.listing, k)
    ensures Settled(job, o, d, k) && CellAt(d, job.root, k) == NOTHING && Expected(job, o, k) == Ok(None)
  {
    UnlistedIsAbsent(job, o.disk, k, job.root);
    NoWinner(job, o.disk, job.legacy, k);
    OthersAreLegacy(job, o.disk, o.disk, k);
    forall r | r in Others(job)
      ensures r in job.legacy
    {
      WithoutIn(job.legacy, job.target, r);
    }
    NoWinner(job, o.disk, Others(job), k);
  }

  lemma NoWinner(job: Job, d0: Disk, legacy: seq<Root>, k: SessionKey)
    requires OfSession(job, k) && k.subpath.Some? && Lists(job, d0) && !Mentions(job, job.listing, k)
    requires forall r :: r in legacy ==> r in job.legacy
    ensures Winner(d0, job.root, legacy, k).None?
  {
    UnlistedIsAbsent(job, d0, k, job.root);
    if Winner(d0, job.root, legacy, k).Some? {
      WinnerIsACopy(d0, job.root, legacy, k);
      UnlistedIsAbsent(job, d0, k, Winner(d0, job.root, legacy, k).value.root);
    }
  }

  lemma LoadMainMain(job: Job, o: Origin, d: Disk, k: SessionKey, now: nat)
    requires Apart(job) && OfSession(job, k) && k == job.main && Early(job, o, d, k) && Sided(job, o, now)
    ensures Sound(job, o, StepLoadMain(job, d, now), k)
  {
    ReconcileEarly(job, o, d, k, now);
    EarlyHolds(job, o, ReconcileOn(d, job.root, job.legacy, k, now).1, k);
  }

  lemma LoadMainSub(job: Job, o: Origin, d: Disk, k: SessionKey, now: nat)
    requires Apart(job) && OfSession(job, k) && k.subpath.Some? && Lists(job, o.disk) && Early(job, o, d, k)
    ensures Sound(job, o, StepLoadMain(job, d, now), k)
  {
    var (loaded, d1) := LoadOn(d, job.root, job.legacy, job.main, now);
    MainOrSub(job, k);
    OtherKey(job, d, job.main, k, now);
    EarlyFrame(job, o, d, d1, k);
    if !Mentions(job, job.listing, k) {
      UnlistedIsSettled(job, o, d1, k);
    }
    AfterMain(job, o, d1, k, loaded);
  }

  lemma AfterMain(job: Job, o: Origin, d: Disk, k: SessionKey, loaded: Reading)
    requires OfSession(job, k) && k.subpath.Some? && Early(job, o, d, k)
    requires Mentions(job, job.listing, k) || Settled(job, o, d, k)
    ensures Sound(job, o, State(d, AfterLoadMain(job, loaded)), k)
  {
    EarlyHolds(job, o, d, k);
  }

  lemma Listed(job: Job, o: Origin, d: Disk, k: SessionKey, outcome: Result<Outcome, StoreError>, entries: seq<Value>, todo: seq<string>)
    requires OfSession(job, k) && Early(job, o, d, k)
    requires outcome.Ok? ==>
               if k.subpath.None? then Settled(job, o, d, k) && ReadEntriesAt(d, job.root, k) == Ok(Some(entries))
               else Mentions(job, todo, k) || Settled(job, o, d, k)
    ensures Sound(job, o, State(d, AfterListing(outcome, entries, todo)), k)
  {
    EarlyHolds(job, o, d, k);
  }

  lemma ListingSame(job: Job, o: Origin, d: Disk, k: SessionKey, key: SessionKey, entries: seq<Value>, todo: seq<string>, now: nat)
    requires Apart(job) && OfSession(job, k) && Sided(job, o, now) && Early(job, o, d, k) && k.subpath.Some?
    requires KeyNames(key) == KeyNames(k)
    ensures var (outcome, d1) := ReconcileOn(d, job.root, job.legacy, key, now);
            Sound(job, o, State(d1, AfterListing(outcome, entries, todo)), k)
  {
    var (outcome, d1) := ReconcileOn(d, job.root, job.legacy, key, now);
    TwinLoads(d, job.root, job.legacy, key, k, now);
    ReconcileEarly(job, o, d, k, now);
    Listed(job, o, d1, k, outcome, entries, todo);
  }

  lemma ListingOther(job: Job, o: Origin, d: Disk, k: SessionKey, key: SessionKey, entries: seq<Value>, todo: seq<string>, now: nat)
    requires OfSession(job, k) && Early(job, o, d, k) && KeyNames(key) != KeyNames(k)
    requires if k.subpath.None? then Settled(job, o, d, k) && ReadEntriesAt(d, job.root, k) == Ok(Some(entries))
             else Mentions(job, todo, k) || Settled(job, o, d, k)
    ensures var (outcome, d1) := ReconcileOn(d, job.root, job.legacy, key, now);
            Sound(job, o, State(d1, AfterListing(outcome, entries, todo)), k)
  {
    var (outcome, d1) := ReconcileOn(d, job.root, job.legacy, key, now);
    OtherKey(job, d, key, k, now);
    EarlyFrame(job, o, d, d1, k);
    Listed(job, o, d1, k, outcome, entries, todo);
  }

  lemma ListingStep(job: Job, o: Origin, d: Disk, k: SessionKey, entries: seq<Value>, todo: seq<string>, now: nat)
    requires Apart(job) && OfSession(job, k) && Sided(job, o, now) && Sound(job, o, State(d, Listing(entries, todo)), k)
    ensures Sound(job, o, StepListing(job, d, entries, todo, now), k)
  {
    if todo != [] {
      var key := Subkey(job.main, todo[0]);
      MainOrSub(job, k);
      if KeyNames(key) == KeyNames(k) {
        ListingSame(job, o, d, k, key, entries, todo[1..], now);
      } else {
        ListingOther(job, o, d, k, key, entries, todo[1..], now);
      }
    }
  }

  lemma WriteMainMain(job: Job, o: Origin, d: Disk, k: SessionKey, entries: seq<Value>, now: nat)
    requires Apart(job) && OfSession(job, k) && k == job.main && Sound(job, o, State(d, WriteMain(entries)), k)
    ensures Sound(job, o, Step(job)(State(d, WriteMain(entries)), now), k)
  {
    var cell := Cell(Some(TextFile(JsonLines(entries), now)), None);
    CellAfterPut(d, job.target, k, cell, job.root, k);
    CellAfterPut(d, job.target, k, cell, job.target, k);
    SettledMeans(job, o, d, k);
  }

  lemma WriteMainSub(job: Job, o: Origin, d: Disk, k: SessionKey, entries: seq<Value>, now: nat)
    requires Apart(job) && OfSession(job, k) && k.subpath.Some? && Sound(job, o, State(d, WriteMain(entries)), k)
    ensures Sound(job, o, Step(job)(State(d, WriteMain(entries)), now), k)
  {
    var cell := Cell(Some(TextFile(JsonLines(entries), now)), None);
    var d1 := PutCell(d, job.target, job.main, cell);
    MainOrSub(job, k);
    forall r
      ensures CellAt(d1, r, k) == CellAt(d, r, k)
    {
      CellAfterPut(d, job.target, job.main, cell, r, k);
    }
    EarlyFrame(job, o, d, d1, k);
  }

  lemma RemoveMain(job: Job, o: Origin, d: Disk, k: SessionKey)
    requires Apart(job) && OfSession(job, k) && k.subpath.None? && Complete(job, o, d, k)
    ensures Late(job, o, RemoveDir(d, job.target, SessionDir(job.main)), job.listing, k)
  {
    CellAfterRemoveDir(d, job.target, job.main, job.root, k);
    CellAfterRemoveDir(d, job.target, job.main, job.target, k);
  }

  /** Without the profile's directory the roots that stay are as they were. */
  lemma RemovedCells(job: Job, d: Disk, k: SessionKey)
    requires Apart(job) && OfSession(job, k) && k.subpath.Some?
    ensures var d1 := RemoveDir(d, job.target, SessionDir(job.main));
            && CellAt(d1, job.root, k) == CellAt(d, job.root, k) && CellAt(d1, job.target, k) == NOTHING
            && SameLegacy(d, d1, Others(job), k)
  {
    CellAfterRemoveDir(d, job.target, job.main, job.root, k);
    CellAfterRemoveDir(d, job.target, job.main, job.target, k);
    forall r | r in Others(job)
      ensures CellAt(RemoveDir(d, job.target, SessionDir(job.main)), r, k) == CellAt(d, r, k)
    {
      WithoutIn(job.legacy, job.target, r);
      CellAfterRemoveDir(d, job.target, job.main, r, k);
    }
  }

  lemma RemoveSub(job: Job, o: Origin, d: Disk, k: SessionKey)
    requires Apart(job) && OfSession(job, k) && k.subpath.Some? && Lists(job, o.disk)
    requires Early(job, o, d, k) && Settled(job, o, d, k)
    ensures Late(job, o, RemoveDir(d, job.target, SessionDir(job.main)), job.listing, k)
  {
    var d1 := RemoveDir(d, job.target, SessionDir(job.main));
    SettledMeans(job, o, d, k);
    OthersAreLegacy(job, o.disk, d, k);
    RemovedCells(job, d, k);
    LastFrame(d, d1, job.root, Others(job), k);
    if !Mentions(job, job.listing, k) {
      UnlistedIsSettled(job, o, d, k);
      NothingIsComplete(job, o, d1, k);
    }
  }

  lemma NothingIsComplete(job: Job, o: Origin, d: Disk, k: SessionKey)
    requires OfSession(job, k) && Decided(job, o, k) && Expected(job, o, k) == Ok(None)
    requires CellAt(d, job.root, k) == NOTHING == CellAt(d, job.target, k)
    ensures Complete(job, o, d, k)
  {
  }

  // ---- Loading a subagent while the profile is written ----

  /** With nothing in the profile, what was written last is what was written last elsewhere. */
  lemma WithoutProfile(job: Job, d: Disk, k: SessionKey)
    requires OfSession(job, k) && CellAt(d, job.target, k) == NOTHING
    ensures LastWritten(d, job.root, job.legacy, k) == LastWritten(d, job.root, Others(job), k)
  {
    forall c
      ensures c in LegacyCandidates(d, job.legacy, k) <==> c in LegacyCandidates(d, Others(job), k)
    {
      LegacyCandidateIn(d, job.legacy, k, c);
      LegacyCandidateIn(d, Others(job), k, c);
      WithoutIn(job.legacy, job.target, c.root);
    }
    BestIgnoresOrder(Candidates(d, job.root, job.legacy, k), Candidates(d, job.root, Others(job), k));
  }

  /** The best of all copies is that of the profile or the best of the others. */
  lemma ProfileOrOthers(job: Job, d: Disk, k: SessionKey)
    requires job.root != job.target && OfSession(job, k) && Winner(d, job.root, job.legacy, k).Some?
    ensures var w := Winner(d, job.root, job.legacy, k).value;
            w.root == job.target || Winner(d, job.root, Others(job), k) == Some(w)
  {
    var w := Winner(d, job.root, job.legacy, k).value;
    WinnerIsACopy(d, job.root, job.legacy, k);
    var all, others := Candidates(d, job.root, job.legacy, k), Candidates(d, job.root, Others(job), k);
    forall c | c in others || (c in all && c.root != job.target)
      ensures c in all && c in others
    {
      LegacyCandidateIn(d, job.legacy, k, c);
      LegacyCandidateIn(d, Others(job), k, c);
      WithoutIn(job.legacy, job.target, c.root);
    }
    if w.root != job.target {
      BestIsTheMaximum(others, w);
    }
  }

  lemma ProfileReads(job: Job, o: Origin, d: Disk, k: SessionKey)
    requires OfSession(job, k) && Complete(job, o, d, k) && CellAt(d, job.target, k) != NOTHING
    ensures var there := ReadEntriesAt(d, job.target, k);
            there != Ok(None) && ArrangedReading(k, there) == Expected(job, o, k)
    ensures ReadEntriesAt(d, job.root, k) != Ok(None)
  {
    var entries := ReadEntriesAt(d, job.root, k).value.value;
    ReadHeld(k, CellAt(d, job.target, k), entries);
    ArrangedTwice(k, entries);
  }

  /** While the profile is written, its copy and the best of the others agree. */
  lemma LastWhileWriting(job: Job, o: Origin, d: Disk, k: SessionKey)
    requires Apart(job) && OfSession(job, k) && Steady(job, o, d, k)
    requires CellAt(d, job.target, k) == NOTHING || Complete(job, o, d, k)
    ensures ArrangedReading(k, LastWritten(d, job.root, job.legacy, k)) == Expected(job, o, k)
  {
    if CellAt(d, job.target, k) == NOTHING {
      WithoutProfile(job, d, k);
    } else {
      ProfileReads(job, o, d, k);
      if Winner(d, job.root, job.legacy, k).Some? {
        ProfileOrOthers(job, d, k);
      } else {
        NoCopyReadsNothing(d, job.root, job.legacy, k);
      }
    }
  }

  lemma TargetDate(job: Job, o: Origin, d: Disk, k: SessionKey)
    requires OfSession(job, k) && DatedCell(job, o, CellAt(d, job.target, k)) && CandidateAt(d, job.target, k, false).Some?
    ensures Sided(job, o, CandidateAt(d, job.target, k, false).value.modified)
  {
  }

  /** What the resume has written is older than a copy from the future. */
  lemma FutureBeats(job: Job, o: Origin, d: Disk, v: Candidate, w: Candidate, k: SessionKey)
    requires OfSession(job, k) && SameLegacy(o.disk, d, Others(job), k) && v.root in Others(job)
    requires Some(v) == CandidateAt(d, v.root, k, false) && v.modified > o.pivot && Sided(job, o, w.modified)
    ensures Wins(v, w) && !Wins(w, v) && v != w
  {
    assert CellAt(d, v.root, k) == CellAt(o.disk, v.root, k);
    DatesAt(job, o, v.root, k, w.modified);
  }

  lemma LeaderIsACopy(job: Job, d: Disk, k: SessionKey)
    requires OfSession(job, k) && Leader(job, d, k).Some?
    ensures var v := Leader(job, d, k).value;
            && IsMaximum(v, LegacyCandidates(d, Others(job), k)) && v in LegacyCandidates(d, job.legacy, k)
            && v.root in Others(job) && v.root != job.target && Some(v) == CandidateAt(d, v.root, k, false)
  {
    var v := Leader(job, d, k).value;
    BestIsTheMaximum(LegacyCandidates(d, Others(job), k), v);
    LegacyCandidateIn(d, Others(job), k, v);
    WithoutIn(job.legacy, job.target, v.root);
    LegacyCandidateIn(d, job.legacy, k, v);
  }

  /** A copy from the future wins over the profile's, which the resume has written. */
  lemma ProfileIsNotLast(job: Job, o: Origin, d: Disk, k: SessionKey, w: Candidate, now: nat)
    requires Apart(job) && OfSession(job, k) && Steady(job, o, d, k) && Sided(job, o, now)
    requires Winner(d, job.root, job.legacy, k) == Some(w) && !w.canonical
    requires Leader(job, d, k).Some? && Leader(job, d, k).value.modified > now
    ensures w.root != job.target
  {
    if w.root == job.target {
      LeaderIsACopy(job, d, k);
      WinnerIsACopy(d, job.root, job.legacy, k);
      TargetDate(job, o, d, k);
      FutureBeats(job, o, d, Leader(job, d, k).value, w, k);
    }
  }

  /** So when a copy is brought in while the profile is written, a copy from the future is what
      was written last already. */
  lemma FutureLeads(job: Job, o: Origin, d: Disk, k: SessionKey, w: Candidate, now: nat)
    requires Apart(job) && OfSession(job, k) && Steady(job, o, d, k) && Sided(job, o, now)
    requires Winner(d, job.root, job.legacy, k) == Some(w) && !w.canonical
    requires Leader(job, d, k).Some? && Leader(job, d, k).value.modified > now
    ensures Winner(d, job.root, Others(job), k) == Leader(job, d, k)
  {
    ProfileIsNotLast(job, o, d, k, w, now);
    ProfileOrOthers(job, d, k);
    LeaderIsACopy(job, d, k);
    BestOfLegacy(job, d, k, w);
  }

  lemma BestOfLegacy(job: Job, d: Disk, k: SessionKey, w: Candidate)
    requires OfSession(job, k) && Winner(d, job.root, Others(job), k) == Some(w) && !w.canonical
    ensures Leader(job, d, k) == Some(w)
  {
    WinnerIsACopy(d, job.root, Others(job), k);
    BestIsTheMaximum(LegacyCandidates(d, Others(job), k), w);
  }

  /** Bringing in what is expected keeps the roots that stay on the way to it. */
  lemma PromotedIsExpected(job: Job, o: Origin, d: Disk, k: SessionKey, entries: seq<Value>, now: nat)
    requires Apart(job) && OfSession(job, k) && k.subpath.Some? && Sided(job, o, now) && entries != []
    requires Steady(job, o, d, k) && Ok(Some(Arranged(k, entries))) == Expected(job, o, k)
    requires var v := Leader(job, d, k);
             v.Some? && v.value.modified > now ==> Winner(d, job.root, Others(job), k) == v
    ensures Steady(job, o, PutCell(d, job.root, k, ReplaceCell(k, entries, now)), k)
  {
    var cell := ReplaceCell(k, entries, now);
    var d1 := PutCell(d, job.root, k, cell);
    PromotedCells(job, d, k, cell);
    LastAt(job, d1, k, entries, now);
    SidedLeader(job, o, d, k, now);
    SidedLeader(job, o, d1, k, now);
    ArrangedTwice(k, entries);
  }

  lemma PromotedCells(job: Job, d: Disk, k: SessionKey, cell: Cell)
    requires Apart(job) && OfSession(job, k) && k.subpath.Some?
    ensures var d1 := PutCell(d, job.root, k, cell);
            && CellAt(d1, job.root, k) == cell && CellAt(d1, job.target, k) == CellAt(d, job.target, k)
            && SameLegacy(d, d1, Others(job), k)
  {
    CellAfterPut(d, job.root, k, cell, job.root, k);
    CellAfterPut(d, job.root, k, cell, job.target, k);
    forall r | r in Others(job)
      ensures CellAt(PutCell(d, job.root, k, cell), r, k) == CellAt(d, r, k)
    {
      WithoutIn(job.legacy, job.target, r);
      CellAfterPut(d, job.root, k, cell, r, k);
    }
  }

  lemma LoadSteady(job: Job, o: Origin, d: Disk, k: SessionKey, now: nat)
    requires Apart(job) && OfSession(job, k) && k.subpath.Some? && Steady(job, o, d, k) && Sided(job, o, now)
    requires ArrangedReading(k, LastWritten(d, job.root, job.legacy, k)) == Expected(job, o, k)
    ensures Steady(job, o, ReconcileOn(d, job.root, job.legacy, k, now).1, k)
  {
    var decision := Decide(d, job.root, job.legacy, k);
    if decision.Promote? {
      var w := PromoteMeans(d, job.root, job.legacy, k);
      DecisionIsLastWritten(d, job.root, job.legacy, k);
      if Leader(job, d, k).Some? && Leader(job, d, k).value.modified > now {
        FutureLeads(job, o, d, k, w, now);
      }
      PromotedIsExpected(job, o, d, k, decision.entries, now);
    }
  }

  lemma FitsAfterLoad(job: Job, d: Disk, k: SessionKey, d1: Disk, entries: seq<Value>)
    requires OfSession(job, k) && CellAt(d1, job.target, k) == CellAt(d, job.target, k)
    requires CellAt(d, job.target, k) == NOTHING
             || (Done(job, d, k) && ArrangedReading(k, ReadEntriesAt(d, job.root, k)) == Ok(Some(Arranged(k, entries))))
    ensures Fits(k, CellAt(d1, job.target, k), entries)
  {
    if CellAt(d, job.target, k) != NOTHING {
      SameArrangement(k, ReadEntriesAt(d, job.root, k).value.value, entries);
    }
  }

  lemma LoadedHere(job: Job, o: Origin, d: Disk, k: SessionKey, key: SessionKey, loaded: Reading, todo: seq<string>)
    requires OfSession(job, k) && k.subpath.Some? && Steady(job, o, d, k)
    requires IsSubkeyOf(key, job.main) && KeyNames(key) == KeyNames(k)
    requires loaded.Ok? ==> ArrangedReading(k, loaded) == Expected(job, o, k) && loaded == ReadEntriesAt(d, job.root, k)
    requires loaded == Ok(None) ==> CellAt(d, job.target, k) == NOTHING
    requires loaded.Ok? && loaded.value.Some? ==> Fits(k, CellAt(d, job.target, k), loaded.value.value)
    ensures Sound(job, o, State(d, AfterLoadSub(key, loaded, todo)), k)
  {
    SteadySurvives(job, o, d, k);
  }

  lemma LoadSubSame(job: Job, o: Origin, d: Disk, k: SessionKey, key: SessionKey, todo: seq<string>, now: nat)
    requires Apart(job) && OfSession(job, k) && k.subpath.Some? && Steady(job, o, d, k) && Sided(job, o, now)
    requires CellAt(d, job.target, k) == NOTHING || Complete(job, o, d, k)
    requires IsSubkeyOf(key, job.main) && KeyNames(key) == KeyNames(k)
    ensures var (loaded, d1) := LoadOn(d, job.root, job.legacy, key, now);
            Sound(job, o, State(d1, AfterLoadSub(key, loaded, todo)), k)
  {
    var (loaded, d1) := LoadOn(d, job.root, job.legacy, key, now);
    TwinLoads(d, job.root, job.legacy, key, k, now);
    LoadHere(job, o, d, k, now);
    LoadedHere(job, o, d1, k, key, loaded, todo);
  }

  lemma LoadHere(job: Job, o: Origin, d: Disk, k: SessionKey, now: nat)
    requires Apart(job) && OfSession(job, k) && k.subpath.Some? && Steady(job, o, d, k) && Sided(job, o, now)
    requires CellAt(d, job.target, k) == NOTHING || Complete(job, o, d, k)
    ensures var (loaded, d1) := LoadOn(d, job.root, job.legacy, k, now);
            && Steady(job, o, d1, k)
            && (loaded.Ok? ==> ArrangedReading(k, loaded) == Expected(job, o, k) && loaded == ReadEntriesAt(d1, job.root, k))
            && (loaded == Ok(None) ==> CellAt(d1, job.target, k) == NOTHING)
            && (loaded.Ok? && loaded.value.Some? ==> Fits(k, CellAt(d1, job.target, k), loaded.value.value))
  {
    var (loaded, d1) := LoadOn(d, job.root, job.legacy, k, now);
    LastWhileWriting(job, o, d, k);
    LoadSteady(job, o, d, k, now);
    ReconcileIsLastWriterWins(d, job.root, job.legacy, k, now);
    ReconcileFrame(d, job.root, job.legacy, k, now, job.target, k);
    match loaded
    case Err(_) =>
    case Ok(None) =>
    case Ok(Some(entries)) => FitsAfterLoad(job, d, k, d1, entries);
  }

  lemma LoadedElsewhere(job: Job, o: Origin, d: Disk, k: SessionKey, key: SessionKey, loaded: Reading, todo: seq<string>)
    requires OfSession(job, k) && Late(job, o, d, todo, k)
    requires KeyNames(key).Ok? && IsSubkeyOf(key, job.main) && KeyNames(key) != KeyNames(k)
    ensures Sound(job, o, State(d, AfterLoadSub(key, loaded, todo)), k)
  {
    LateSurvives(job, o, d, todo, k);
  }

  lemma LateSurvives(job: Job, o: Origin, d: Disk, todo: seq<string>, k: SessionKey)
    requires OfSession(job, k) && Late(job, o, d, todo, k)
    ensures Survives(job, o, d, k)
  {
    if k.subpath.None? {
      CompleteSurvives(job, o, d, k);
    } else {
      SteadySurvives(job, o, d, k);
    }
  }

  lemma LoadSubOther(job: Job, o: Origin, d: Disk, k: SessionKey, key: SessionKey, todo: seq<string>, now: nat)
    requires Apart(job) && OfSession(job, k) && Late(job, o, d, todo, k)
    requires KeyNames(key).Ok? && IsSubkeyOf(key, job.main) && KeyNames(key) != KeyNames(k)
    ensures var (loaded, d1) := LoadOn(d, job.root, job.legacy, key, now);
            Sound(job, o, State(d1, AfterLoadSub(key, loaded, todo)), k)
  {
    var (loaded, d1) := LoadOn(d, job.root, job.legacy, key, now);
    OtherKey(job, d, key, k, now);
    LateFrame(job, o, d, d1, todo, k);
    LoadedElsewhere(job, o, d1, k, key, loaded, todo);
  }

  /** A subpath of another key can be passed over. */
  lemma PassOver(job: Job, o: Origin, d: Disk, todo: seq<string>, k: SessionKey)
    requires OfSession(job, k) && todo != [] && Late(job, o, d, todo, k)
    requires KeyNames(Subkey(job.main, todo[0])) != KeyNames(k)
    ensures Late(job, o, d, todo[1..], k)
  {
  }

  lemma LoadSubHere(job: Job, o: Origin, d: Disk, k: SessionKey, todo: seq<string>, now: nat)
    requires Apart(job) && OfSession(job, k) && k.subpath.Some? && Sided(job, o, now) && Steady(job, o, d, k)
    requires CellAt(d, job.target, k) == NOTHING || Complete(job, o, d, k)
    requires todo != [] && KeyNames(Subkey(job.main, todo[0])) == KeyNames(k)
    ensures Sound(job, o, StepLoadSub(job, d, todo, now), k)
  {
    var key := Subkey(job.main, todo[0]);
    assert IsSubkeyOf(key, job.main) && NormalizedSubpath(todo[0]).Ok?;
    LoadSubSame(job, o, d, k, key, todo[1..], now);
  }

  lemma LoadSubThere(job: Job, o: Origin, d: Disk, k: SessionKey, todo: seq<string>, now: nat)
    requires Apart(job) && OfSession(job, k) && todo != [] && Late(job, o, d, todo, k)
    requires KeyNames(Subkey(job.main, todo[0])) != KeyNames(k)
    ensures Sound(job, o, StepLoadSub(job, d, todo, now), k)
  {
    var key := Subkey(job.main, todo[0]);
    PassOver(job, o, d, todo, k);
    if KeyNames(key).Ok? {
      LoadSubOther(job, o, d, k, key, todo[1..], now);
    }
  }

  lemma LoadSubStep(job: Job, o: Origin, d: Disk, k: SessionKey, todo: seq<string>, now: nat)
    requires Apart(job) && OfSession(job, k) && Sided(job, o, now) && Late(job, o, d, todo, k)
    ensures Sound(job, o, StepLoadSub(job, d, todo, now), k)
  {
    MainOrSub(job, k);
    if todo != [] {
      if KeyNames(Subkey(job.main, todo[0])) == KeyNames(k) {
        LoadSubHere(job, o, d, k, todo, now);
      } else {
        LoadSubThere(job, o, d, k, todo, now);
      }
    }
  }

  // ---- Writing a subagent ----

  /** Writing the profile changes nothing for the roots that stay. */
  lemma SteadyAfterPut(job: Job, o: Origin, d: Disk, k: SessionKey, key: SessionKey, cell: Cell)
    requires Apart(job) && OfSession(job, k) && Steady(job, o, d, k)
    requires KeyNames(key).Ok? && (key.subpath.None? ==> cell.sidecar.None?) && (SameFiles(key, k) ==> DatedCell(job, o, cell))
    ensures var d1 := PutCell(d, job.target, key, cell);
            && Steady(job, o, d1, k) && CellAt(d1, job.root, k) == CellAt(d, job.root, k)
            && CellAt(d1, job.target, k) == if SameFiles(key, k) then cell else CellAt(d, job.target, k)
  {
    var d1 := PutCell(d, job.target, key, cell);
    CellAfterPut(d, job.target, key, cell, job.root, k);
    CellAfterPut(d, job.target, key, cell, job.target, k);
    forall r | r in Others(job)
      ensures CellAt(d1, r, k) == CellAt(d, r, k)
    {
      WithoutIn(job.legacy, job.target, r);
      CellAfterPut(d, job.target, key, cell, r, k);
    }
    LastFrame(d, d1, job.root, Others(job), k);
  }

  lemma WriteElsewhere(job: Job, o: Origin, d: Disk, k: SessionKey, key: SessionKey, cell: Cell, todo: seq<string>)
    requires Apart(job) && OfSession(job, k) && Late(job, o, d, todo, k)
    requires KeyNames(key).Ok? && !SameFiles(key, k) && (key.subpath.None? ==> cell.sidecar.None?)
    ensures Late(job, o, PutCell(d, job.target, key, cell), todo, k)
  {
    var d1 := PutCell(d, job.target, key, cell);
    forall r
      ensures CellAt(d1, r, k) == CellAt(d, r, k)
    {
      CellAfterPut(d, job.target, key, cell, r, k);
    }
    LateFrame(job, o, d, d1, todo, k);
  }

  lemma WriteTranscriptStep(job: Job, o: Origin, s: State, k: SessionKey, now: nat)
    requires Apart(job) && OfSession(job, k) && Sided(job, o, now) && Sound(job, o, s, k) && s.phase.WriteTranscript?
    ensures Sound(job, o, Step(job)(s, now), k)
  {
    var key, entries, d := s.phase.key, s.phase.entries, s.disk;
    var cell := TranscriptCell(CellAt(d, job.target, key), key, entries, now);
    if SameFiles(key, k) {
      TwinCells(d, job.target, key, k);
      TwinEntries(key, k, entries);
      SteadyAfterPut(job, o, d, k, key, cell);
    } else {
      WriteElsewhere(job, o, d, k, key, cell, s.phase.todo);
    }
  }

  lemma MetadataFits(k: SessionKey, cell: Cell, entries: seq<Value>, now: nat)
    requires k.subpath.Some? && entries != [] && Fits(k, cell, entries)
    requires Kept(k, entries) != [] ==> cell.transcript.Some?
    ensures Holds(k, MetadataCell(cell, k, entries, now), entries)
  {
    if Meta(k, entries).Some? {
      OneJson(DropType(Meta(k, entries).value));
    }
  }

  lemma WriteMetadataSame(job: Job, o: Origin, d: Disk, k: SessionKey, entries: seq<Value>, now: nat)
    requires Apart(job) && OfSession(job, k) && Sided(job, o, now) && Writing(job, o, d, k, entries)
    requires Kept(k, entries) != [] ==> CellAt(d, job.target, k).transcript.Some?
    ensures var d1 := PutCell(d, job.target, k, MetadataCell(CellAt(d, job.target, k), k, entries, now));
            Steady(job, o, d1, k) && Complete(job, o, d1, k)
  {
    var cell := MetadataCell(CellAt(d, job.target, k), k, entries, now);
    MetadataFits(k, CellAt(d, job.target, k), entries, now);
    SteadyAfterPut(job, o, d, k, k, cell);
  }

  lemma WriteMetadataStep(job: Job, o: Origin, s: State, k: SessionKey, now: nat)
    requires Apart(job) && OfSession(job, k) && Sided(job, o, now) && Sound(job, o, s, k) && s.phase.WriteMetadata?
    ensures Sound(job, o, Step(job)(s, now), k)
  {
    var key, entries, d := s.phase.key, s.phase.entries, s.disk;
    if SameFiles(key, k) {
      TwinCells(d, job.target, key, k);
      TwinEntries(key, k, entries);
      WriteMetadataSame(job, o, d, k, entries, now);
    } else {
      WriteElsewhere(job, o, d, k, key, MetadataCell(CellAt(d, job.target, key), key, entries, now), s.phase.todo);
    }
  }

  lemma StepIsSound(job: Job, o: Origin, s: State, k: SessionKey, now: nat)
    requires Apart(job) && OfSession(job, k) && Lists(job, o.disk) && Sided(job, o, now) && Sound(job, o, s, k)
    ensures Sound(job, o, Step(job)(s, now), k)
  {
    MainOrSub(job, k);
    match s.phase
    case LoadMain =>
      if k.subpath.None? { LoadMainMain(job, o, s.disk, k, now); } else { LoadMainSub(job, o, s.disk, k, now); }
    case Listing(entries, todo) => ListingStep(job, o, s.disk, k, entries, todo, now);
    case WriteMain(entries) =>
      if k.subpath.None? { WriteMainMain(job, o, s.disk, k, entries, now); } else { WriteMainSub(job, o, s.disk, k, entries, now); }
    case RemoveSessionDir =>
      if k.subpath.None? { RemoveMain(job, o, s.disk, k); } else { RemoveSub(job, o, s.disk, k); }
    case LoadSub(todo) => LoadSubStep(job, o, s.disk, k, todo, now);
    case WriteTranscript(_, _, _) => WriteTranscriptStep(job, o, s, k, now);
    case WriteMetadata(_, _, _) => WriteMetadataStep(job, o, s, k, now);
    case Finished(_) =>
  }

  lemma {:induction false} RunIsSound(job: Job, o: Origin, s: State, k: SessionKey, times: seq<nat>)
    requires Apart(job) && OfSession(job, k) && Lists(job, o.disk) && Sound(job, o, s, k)
    requires forall i :: 0 <= i < |times| ==> Sided(job, o, times[i])
    ensures Sound(job, o, Exec(Step(job), s, times), k)
    decreases times
  {
    if times != [] {
      StepIsSound(job, o, s, k, times[0]);
      RunIsSound(job, o, Step(job)(s, times[0]), k, times[1..]);
    }
  }

  // ---- Result ----

  lemma CompleteHolds(job: Job, o: Origin, d: Disk, k: SessionKey)
    requires OfSession(job, k) && Complete(job, o, d, k)
    ensures ReadEntriesAt(d, job.target, k) == ArrangedReading(k, ReadEntriesAt(d, job.root, k)) == Expected(job, o, k)
  {
    var canonical := ReadEntriesAt(d, job.root, k);
    if canonical.value.Some? {
      ReadHeld(k, CellAt(d, job.target, k), canonical.value.value);
    }
  }

  lemma ExpectedIsLast(job: Job, o: Origin, k: SessionKey)
    requires OfSession(job, k) && Decided(job, o, k)
    ensures Expected(job, o, k) == Last(job, o.disk, k) <==> LeavesLastWritten(job, o, k)
  {
  }

  lemma BeginIsSound(job: Job, o: Origin, k: SessionKey)
    requires OfSession(job, k)
    ensures Sound(job, o, Begin(job, o.disk), k)
  {
    EarlyHolds(job, o, o.disk, k);
  }

  /** The profile holds what canonical holds, and that is what was written last if and only if
      the key leaves it so. */
  ghost predicate Copied(job: Job, o: Origin, d: Disk, k: SessionKey)
    requires OfSession(job, k)
  {
    var held := ArrangedReading(k, ReadEntriesAt(d, job.root, k));
    ReadEntriesAt(d, job.target, k) == held && (held == Last(job, o.disk, k) <==> LeavesLastWritten(job, o, k))
  }

  lemma SoundIsCopied(job: Job, o: Origin, s: State, k: SessionKey)
    requires OfSession(job, k) && Sound(job, o, s, k) && s.phase == Finished(Ok(true))
    ensures Copied(job, o, s.disk, k)
  {
    CompleteHolds(job, o, s.disk, k);
    ExpectedIsLast(job, o, k);
  }

  lemma ResumeIsSound(job: Job, o: Origin, k: SessionKey, times: seq<nat>)
    requires Apart(job) && OfSession(job, k) && Lists(job, o.disk)
    requires forall i :: 0 <= i < |times| ==> Sided(job, o, times[i])
    ensures Sound(job, o, Exec(Step(job), Begin(job, o.disk), times), k)
  {
    BeginIsSound(job, o, k);
    RunIsSound(job, o, Begin(job, o.disk), k, times);
  }

  /** With any legacy roots, and no file of the others dated between the resume's own writes, a
      resume that succeeds leaves the profile with exactly the entries of canonical, for the session
      and every subagent. These are what was written last when it began if and only if the key is
      the main transcript, or bringing it up to date copied it into canonical and no copy of another
      root that is dated in the future reads differently, or it was not copied and the roots other
      than the profile agree that it was written last. */
  lemma ResumeWithAnyRoots(job: Job, o: Origin, k: SessionKey, times: seq<nat>)
    requires Apart(job) && OfSession(job, k) && Lists(job, o.disk)
    requires forall i :: 0 <= i < |times| ==> Sided(job, o, times[i])
    requires Exec(Step(job), Begin(job, o.disk), times).phase == Finished(Ok(true))
    ensures Copied(job, o, Exec(Step(job), Begin(job, o.disk), times).disk, k)
  {
    ResumeIsSound(job, o, k, times);
    SoundIsCopied(job, o, Exec(Step(job), Begin(job, o.disk), times), k);
  }

  lemma SoundSurvives(job: Job, o: Origin, s: State, k: SessionKey)
    requires Apart(job) && OfSession(job, k) && Sound(job, o, s, k)
    ensures Survives(job, o, s.disk, k)
  {
    match s.phase
    case LoadMain => EarlyHolds(job, o, s.disk, k);
    case Listing(_, _) => EarlyHolds(job, o, s.disk, k);
    case WriteMain(_) => EarlyHolds(job, o, s.disk, k);
    case RemoveSessionDir =>
      if k.subpath.None? { CompleteSurvives(job, o, s.disk, k); } else { EarlyHolds(job, o, s.disk, k); }
    case LoadSub(todo) => LateSurvives(job, o, s.disk, todo, k);
    case WriteTranscript(key, _, todo) =>
      if SameFiles(key, k) { SteadySurvives(job, o, s.disk, k); } else { LateSurvives(job, o, s.disk, todo, k); }
    case WriteMetadata(key, _, todo) =>
      if SameFiles(key, k) { SteadySurvives(job, o, s.disk, k); } else { LateSurvives(job, o, s.disk, todo, k); }
    case Finished(result) => if result == Ok(true) { CompleteSurvives(job, o, s.disk, k); }
  }

  /** Wherever such a resume stops, by success, by an error or by a timeout: what was written
      last for a key that leaves it so is still in a root of the store. */
  lemma NothingIsLostWithAnyRoots(job: Job, o: Origin, k: SessionKey, times: seq<nat>)
    requires Apart(job) && OfSession(job, k) && Lists(job, o.disk)
    requires forall i :: 0 <= i < |times| ==> Sided(job, o, times[i])
    ensures LeavesLastWritten(job, o, k) ==> Held(job, o, Exec(Step(job), Begin(job, o.disk), times).disk, k)
  {
    ResumeIsSound(job, o, k, times);
    SoundSurvives(job, o, Exec(Step(job), Begin(job, o.disk), times), k);
  }

  // ---- The profile as the only legacy root ----

  /** A profile that is the only legacy root of its store, or no root of it. */
  predicate SoleLegacyTarget(job: Job) {
    Writes(job) && forall r :: r in job.legacy ==> r == job.target
  }

  lemma SoleMeans(job: Job, o: Origin, k: SessionKey)
    requires SoleLegacyTarget(job) && OfSession(job, k) && o.pivot == 0
    ensures Apart(job) && Others(job) == [] && LeavesLastWritten(job, o, k)
    ensures forall now :: Sided(job, o, now)
  {
    if Others(job) != [] {
      WithoutIn(job.legacy, job.target, Others(job)[0]);
    }
    DecisionIsLastWritten(o.disk, job.root, job.legacy, k);
    var r := LastIsSomewhere(o.disk, job.root, [], k);
  }

  /** Wherever a resume stops, by success, by an error or by a timeout, and whatever the dates of
      the files: what was written last for any key of the session is still in canonical or in
      the profile. */
  lemma NothingIsLost(job: Job, d0: Disk, k: SessionKey, times: seq<nat>)
    requires SoleLegacyTarget(job) && OfSession(job, k) && Lists(job, d0)
    ensures var d := Exec(Step(job), Begin(job, d0), times).disk;
            HeldIn(job, Origin(d0, 0), d, k, job.root) || HeldIn(job, Origin(d0, 0), d, k, job.target)
  {
    SoleMeans(job, Origin(d0, 0), k);
    NothingIsLostWithAnyRoots(job, Origin(d0, 0), k, times);
  }

  /** A resume that succeeds leaves the profile and canonical with the same entries, those that
      were written last when it began: for the session and every subagent, listed or not. */
  lemma ResumeCopiesLastWritten(job: Job, d0: Disk, k: SessionKey, times: seq<nat>)
    requires SoleLegacyTarget(job) && OfSession(job, k) && Lists(job, d0)
    requires Exec(Step(job), Begin(job, d0), times).phase == Finished(Ok(true))
    ensures var d := Exec(Step(job), Begin(job, d0), times).disk;
            ReadEntriesAt(d, job.target, k) == ArrangedReading(k, ReadEntriesAt(d, job.root, k)) == Last(job, d0, k)
  {
    SoleMeans(job, Origin(d0, 0), k);
    ResumeWithAnyRoots(job, Origin(d0, 0), k, times);
  }
}
