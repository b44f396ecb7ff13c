/** Materializing a session into a profile before a resume
    (claude-agent-sdk/src/session_store.rs:515-522, 562-571, 786-842, 976-1080).

    The call is a sequence of store calls and file writes, and may fail or time out between any
    two of them. So it is modelled as a machine that takes one of them per step: an error leaves
    the disk as some reachable state has it. Every step carries the time its writes are dated. */
module Materialize {
  import opened Common
  import opened Text
  import opened SessionPaths
  import opened SessionDisk
  import opened Reconcile

  /** One resume: the store, the profile, the session, and the subpaths the listing returns. */
  datatype Job = Job(root: Root, legacy: seq<Root>, target: Root, main: SessionKey, listing: seq<string>)

  datatype Phase =
    | LoadMain
    | Listing(entries: seq<Value>, todo: seq<string>)
    | WriteMain(entries: seq<Value>)
    | RemoveSessionDir
    | LoadSub(todo: seq<string>)
    | WriteTranscript(key: SessionKey, entries: seq<Value>, todo: seq<string>)
    | WriteMetadata(key: SessionKey, entries: seq<Value>, todo: seq<string>)
    | Finished(result: Result<bool, StoreError>)

  datatype State = State(disk: Disk, phase: Phase)

  // ---- Session ids and listings ----

  predicate HexDigit(c: char) {
    '0' <= c <= '9' || 'a' <= c <= 'f' || 'A' <= c <= 'F'
  }

  predicate ValidSessionId(value: string) {
    |value| == 36 && forall i :: 0 <= i < 36 ==> if i in {8, 13, 18, 23} then value[i] == '-' else HexDigit(value[i])
  }

  /** Five groups of hexadecimal digits between dashes. */
  ghost predicate FiveGroups(groups: seq<string>) {
    && |groups| == 5 && |groups[0]| == 8 && |groups[1]| == |groups[2]| == |groups[3]| == 4 && |groups[4]| == 12
    && forall g, c :: g in groups && c in g ==> c in "0123456789abcdefABCDEF"
  }

  lemma FiveJoined(groups: seq<string>)
    requires |groups| == 5
    ensures Join(groups, '-') == groups[0] + "-" + groups[1] + "-" + groups[2] + "-" + groups[3] + "-" + groups[4]
  {
    assert groups[1..][1..] == groups[2..] && groups[2..][1..] == groups[3..] && groups[3..][1..] == groups[4..];
    assert Join(groups[4..], '-') == groups[4];
    assert Join(groups[3..], '-') == groups[3] + "-" + groups[4];
    assert Join(groups[2..], '-') == groups[2] + "-" + Join(groups[3..], '-');
    assert Join(groups[1..], '-') == groups[1] + "-" + Join(groups[2..], '-');
  }

  lemma HexDigits(c: char)
    ensures HexDigit(c) <==> c in "0123456789abcdefABCDEF"
  {
    var digits := "0123456789abcdefABCDEF";
    if '0' <= c <= '9' {
      assert digits[c as int - '0' as int] == c;
    } else if 'a' <= c <= 'f' {
      assert digits[c as int - 'a' as int + 10] == c;
    } else if 'A' <= c <= 'F' {
      assert digits[c as int - 'A' as int + 16] == c;
    }
  }

  /** The five stretches between the dashes. */
  function GroupsOf(value: string): seq<string>
    requires |value| == 36
  {
    [value[..8], value[9..13], value[14..18], value[19..23], value[24..]]
  }

  /** A session identifier is 8, 4, 4, 4 and 12 hexadecimal digits between dashes. */
  lemma SessionIdsAreFiveGroups(value: string)
    ensures ValidSessionId(value) <==> FiveGroups(Split(value, '-'))
  {
    if ValidSessionId(value) {
      var groups := GroupsOf(value);
      ValidGroups(value);
      FiveJoined(groups);
      assert value == Join(groups, '-');
      SplitJoin(groups, '-');
    }
    if FiveGroups(Split(value, '-')) {
      JoinSplit(value, '-');
      FiveJoined(Split(value, '-'));
      GroupsAreValid(value, Split(value, '-'));
    }
  }

  lemma ValidGroups(value: string)
    requires ValidSessionId(value)
    ensures FiveGroups(GroupsOf(value)) && forall g :: g in GroupsOf(value) ==> '-' !in g
  {
    forall g, c | g in GroupsOf(value) && c in g
      ensures c in "0123456789abcdefABCDEF" && c != '-'
    {
      var i :| 0 <= i < 36 && i !in {8, 13, 18, 23} && value[i] == c;
      HexDigits(c);
    }
  }

  lemma GroupsAreValid(value: string, groups: seq<string>)
    requires FiveGroups(groups)
    requires value == groups[0] + "-" + groups[1] + "-" + groups[2] + "-" + groups[3] + "-" + groups[4]
    ensures ValidSessionId(value)
  {
    forall i | 0 <= i < 36
      ensures if i in {8, 13, 18, 23} then value[i] == '-' else HexDigit(value[i])
    {
      HexDigits(value[i]);
      var g := groups[if i < 9 then 0 else if i < 14 then 1 else if i < 19 then 2 else if i < 24 then 3 else 4];
      assert g in groups && (i in {8, 13, 18, 23} || value[i] in g);
      assert value[i] == if i < 8 then groups[0][i] else if i == 8 then '-' else if i < 13 then groups[1][i - 9]
                         else if i == 13 then '-' else if i < 18 then groups[2][i - 14] else if i == 18 then '-'
                         else if i < 23 then groups[3][i - 19] else if i == 23 then '-' else groups[4][i - 24];
    }
  }

  function Subkey(main: SessionKey, subpath: string): SessionKey {
    main.(subpath := Some(subpath))
  }

  /** The subpath a file below the session directory is listed as. */
  function ListedAs(path: Path): Option<string>
    requires |path| > 2
  {
    var text := Join(path[2..], '/');
    var subpath := if EndsWith(text, JSONL) then StripSuffix(text, JSONL)
                   else if EndsWith(text, META) then StripSuffix(text, META) else "";
    if subpath == "" then None else Some(subpath)
  }

  /** The listing names the subpaths found in any root, in any order. */
  ghost predicate Lists(job: Job, d: Disk) {
    forall s :: s in job.listing <==>
      exists l :: l in d && (l.root == job.root || l.root in job.legacy)
                  && Below(l.path, SessionDir(job.main)) && ListedAs(l.path) == Some(s)
  }

  // ---- The machine ----

  function Begin(job: Job, d: Disk): State {
    State(d, if ValidSessionId(job.main.sessionId) then LoadMain else Finished(Ok(false)))
  }

  function StepLoadMain(job: Job, d: Disk, now: nat): State {
    var (loaded, d1) := LoadOn(d, job.root, job.legacy, job.main, now);
    State(d1, AfterLoadMain(job, loaded))
  }

  function AfterLoadMain(job: Job, loaded: Reading): Phase {
    match loaded
    case Err(e) => Finished(Err(e))
    case Ok(None) => Finished(Ok(false))
    case Ok(Some(entries)) => Listing(entries, job.listing)
  }

  function StepListing(job: Job, d: Disk, entries: seq<Value>, todo: seq<string>, now: nat): State {
    if todo == [] then State(d, if job.root == job.target then Finished(Ok(true)) else WriteMain(entries))
    else
      var (outcome, d1) := ReconcileOn(d, job.root, job.legacy, Subkey(job.main, todo[0]), now);
      State(d1, AfterListing(outcome, entries, todo[1..]))
  }

  function AfterListing(outcome: Result<Outcome, StoreError>, entries: seq<Value>, todo: seq<string>): Phase {
    match outcome
    case Err(e) => Finished(Err(e))
    case Ok(_) => Listing(entries, todo)
  }

  function TranscriptCell(cell: Cell, key: SessionKey, entries: seq<Value>, now: nat): Cell {
    if Kept(key, entries) == [] then cell
    else cell.(transcript := Some(TextFile(JsonLines(Kept(key, entries)), now)))
  }

  function MetadataCell(cell: Cell, key: SessionKey, entries: seq<Value>, now: nat): Cell {
    match Meta(key, entries)
    case None => cell
    case Some(m) => cell.(sidecar := Some(TextFile([Json(DropType(m))], now)))
  }

  function StepLoadSub(job: Job, d: Disk, todo: seq<string>, now: nat): State {
    if todo == [] then State(d, Finished(Ok(true)))
    else if NormalizedSubpath(todo[0]).Err? then State(d, LoadSub(todo[1..]))
    else
      var key := Subkey(job.main, todo[0]);
      var (loaded, d1) := LoadOn(d, job.root, job.legacy, key, now);
      State(d1, AfterLoadSub(key, loaded, todo[1..]))
  }

  function AfterLoadSub(key: SessionKey, loaded: Reading, todo: seq<string>): Phase {
    match loaded
    case Err(e) => Finished(Err(e))
    case Ok(None) => LoadSub(todo)
    case Ok(Some(entries)) => WriteTranscript(key, entries, todo)
  }

  function Step(job: Job): (State, nat) -> State {
    (s: State, now: nat) =>
      if KeyNames(job.main).Err? then State(s.disk, Finished(Err(BadPath(KeyNames(job.main).error))))
      else
        match s.phase
        case LoadMain => StepLoadMain(job, s.disk, now)
        case Listing(entries, todo) => StepListing(job, s.disk, entries, todo, now)
        case WriteMain(entries) =>
          State(PutCell(s.disk, job.target, job.main, Cell(Some(TextFile(JsonLines(entries), now)), None)), RemoveSessionDir)
        case RemoveSessionDir =>
          State(RemoveDir(s.disk, job.target, SessionDir(job.main)), LoadSub(job.listing))
        case LoadSub(todo) => StepLoadSub(job, s.disk, todo, now)
        case WriteTranscript(key, entries, todo) =>
          if KeyNames(key).Err? then State(s.disk, Finished(Err(BadPath(KeyNames(key).error))))
          else State(PutCell(s.disk, job.target, key, TranscriptCell(CellAt(s.disk, job.target, key), key, entries, now)),
                     WriteMetadata(key, entries, todo))
        case WriteMetadata(key, entries, todo) =>
          if KeyNames(key).Err? then State(s.disk, Finished(Err(BadPath(KeyNames(key).error))))
          else State(PutCell(s.disk, job.target, key, MetadataCell(CellAt(s.disk, job.target, key), key, entries, now)),
                     LoadSub(todo))
        case Finished(_) => s
  }

  // ---- What is to be kept ----

  /** The store is not the profile itself, and the session has a file. */
  predicate Writes(job: Job) {
    job.root != job.target && KeyNames(job.main).Ok? && job.main.subpath.None?
  }

  /** The key of the session or of one of its subagents. */
  predicate OfSession(job: Job, k: SessionKey) {
    KeyNames(k).Ok? && SessionDir(k) == SessionDir(job.main)
  }

  function Last(job: Job, d0: Disk, k: SessionKey): Reading
    requires OfSession(job, k)
  {
    ArrangedReading(k, LastWritten(d0, job.root, job.legacy, k))
  }

  /** The profile holds exactly the entries of canonical. */
  ghost predicate Done(job: Job, d: Disk, k: SessionKey)
    requires OfSession(job, k)
  {
    match ReadEntriesAt(d, job.root, k)
    case Err(_) => false
    case Ok(None) => CellAt(d, job.target, k) == NOTHING
    case Ok(Some(entries)) => Holds(k, CellAt(d, job.target, k), entries)
  }

  /** Some listed subpath is still to be visited for this key. */
  predicate Mentions(job: Job, todo: seq<string>, k: SessionKey) {
    todo != [] && (KeyNames(Subkey(job.main, todo[0])) == KeyNames(k) || Mentions(job, todo[1..], k))
  }

  /** The files of the profile, as far as written, are those of `entries`. */
  ghost predicate Fits(k: SessionKey, cell: Cell, entries: seq<Value>) {
    && (cell.transcript.Some? ==> cell.transcript.value.lines == JsonLines(Kept(k, entries)))
    && (cell.sidecar.Some? ==> Meta(k, entries).Some? && cell.sidecar.value.whole == Some(DropType(Meta(k, entries).value)))
  }

  // ---- Keys that name the same files ----

  lemma TwinCells(d: Disk, root: Root, a: SessionKey, b: SessionKey)
    requires KeyNames(a).Ok? && KeyNames(b).Ok? && SameFiles(a, b)
    ensures CellAt(d, root, a) == CellAt(d, root, b) && a.subpath.None? == b.subpath.None?
    ensures forall cell :: PutCell(d, root, a, cell) == PutCell(d, root, b, cell)
  {
    KeyNamesArePlain(a);
    KeyNamesArePlain(b);
  }

  lemma {:induction false} TwinCandidates(d: Disk, legacy: seq<Root>, a: SessionKey, b: SessionKey)
    requires KeyNames(a).Ok? && KeyNames(b).Ok? && SameFiles(a, b)
    ensures LegacyCandidates(d, legacy, a) == LegacyCandidates(d, legacy, b)
  {
    if legacy != [] {
      TwinCells(d, legacy[|legacy| - 1], a, b);
      TwinCandidates(d, legacy[..|legacy| - 1], a, b);
    }
  }

  lemma TwinWinners(d: Disk, root: Root, legacy: seq<Root>, a: SessionKey, b: SessionKey)
    requires KeyNames(a).Ok? && KeyNames(b).Ok? && SameFiles(a, b)
    ensures Winner(d, root, legacy, a) == Winner(d, root, legacy, b)
  {
    TwinCells(d, root, a, b);
    TwinCandidates(d, legacy, a, b);
    assert CandidateAt(d, root, a, true) == CandidateAt(d, root, b, true);
  }

  lemma TwinDecisions(d: Disk, root: Root, legacy: seq<Root>, a: SessionKey, b: SessionKey)
    requires KeyNames(a).Ok? && KeyNames(b).Ok? && SameFiles(a, b)
    ensures Decide(d, root, legacy, a) == Decide(d, root, legacy, b)
    ensures ReadEntriesAt(d, root, a) == ReadEntriesAt(d, root, b)
  {
    TwinWinners(d, root, legacy, a, b);
    TwinCells(d, root, a, b);
    if Winner(d, root, legacy, a).Some? {
      TwinCells(d, Winner(d, root, legacy, a).value.root, a, b);
    }
  }

  lemma TwinEntries(a: SessionKey, b: SessionKey, entries: seq<Value>)
    requires a.subpath.None? == b.subpath.None?
    ensures Kept(a, entries) == Kept(b, entries) && Meta(a, entries) == Meta(b, entries)
    ensures Arranged(a, entries) == Arranged(b, entries)
    ensures forall now :: ReplaceCell(a, entries, now) == ReplaceCell(b, entries, now)
  {
  }

  /** Keys with the same files are loaded alike. */
  lemma TwinLoads(d: Disk, root: Root, legacy: seq<Root>, a: SessionKey, b: SessionKey, now: nat)
    requires KeyNames(a).Ok? && KeyNames(b).Ok? && SameFiles(a, b)
    ensures ReconcileOn(d, root, legacy, a, now) == ReconcileOn(d, root, legacy, b, now)
    ensures LoadOn(d, root, legacy, a, now) == LoadOn(d, root, legacy, b, now)
  {
    TwinDecisions(d, root, legacy, a, b);
    TwinCells(d, root, a, b);
    if Decide(d, root, legacy, a).Promote? {
      TwinEntries(a, b, Decide(d, root, legacy, a).entries);
    }
    TwinCells(ReconcileOn(d, root, legacy, a, now).1, root, a, b);
  }

  // ---- The listing is complete ----

  lemma {:induction false} JoinWithSuffix(names: Path, suffix: string)
    requires names != []
    ensures Join(WithSuffix(names, suffix), '/') == Join(names, '/') + suffix
  {
    if |names| > 1 {
      JoinWithSuffix(names[1..], suffix);
      var whole, rest := WithSuffix(names, suffix), WithSuffix(names[1..], suffix);
      assert whole[1..] == rest && whole[0] == names[0];
      var head, tail := names[0] + ['/'], Join(names[1..], '/');
      assert head + (tail + suffix) == (head + tail) + suffix;
    }
  }

  /** A file is listed exactly when it carries one of the two suffixes after a subpath. */
  lemma ListedMeans(path: Path, subpath: string)
    requires |path| > 2
    ensures var text := Join(path[2..], '/');
            ListedAs(path) == Some(subpath) <==> subpath != "" && (text == subpath + JSONL || text == subpath + META)
  {
    var text := Join(path[2..], '/');
    assert JSONL[|JSONL| - 1] == 'l' && META[|META| - 1] == 'n';
    assert EndsWith(text, JSONL) ==> text[|text| - 1] == 'l';
    assert text == subpath + META ==> text[|text| - 1] == 'n';
    if EndsWith(text, JSONL) {
      assert text == StripSuffix(text, JSONL) + JSONL;
    } else if EndsWith(text, META) {
      assert text == StripSuffix(text, META) + META;
    }
    SuffixAppend(subpath, JSONL);
    SuffixAppend(subpath, META);
  }

  /** Both files of a subagent are listed under its normal subpath. */
  lemma FilesAreListed(k: SessionKey, suffix: string)
    requires KeyNames(k).Ok? && k.subpath.Some? && (suffix == JSONL || suffix == META)
    ensures var names := KeyNames(k).value;
            |names| > 2 && ListedAs(WithSuffix(names, suffix)) == Some(Join(names[2..], '/'))
  {
    KeyNamesArePlain(k);
    var names := KeyNames(k).value;
    var below := names[2..];
    var text := Join(below, '/');
    assert WithSuffix(names, suffix)[2..] == WithSuffix(below, suffix);
    JoinWithSuffix(below, suffix);
    SuffixAppend(text, suffix);
    SafeText(below);
    if suffix == META {
      assert (text + META)[|text + META| - 1] == 'n' && JSONL[|JSONL| - 1] == 'l';
      assert !EndsWith(text + META, JSONL);
    }
  }

  lemma NormalSubkey(job: Job, k: SessionKey)
    requires OfSession(job, k) && k.subpath.Some?
    ensures KeyNames(Subkey(job.main, Join(KeyNames(k).value[2..], '/'))) == KeyNames(k)
  {
    KeyNamesArePlain(k);
    var below := KeyNames(k).value[2..];
    assert forall p :: p in below ==> SafeName(p);
    NormalizedJoin(below);
  }

  lemma {:induction false} MentionsAt(job: Job, todo: seq<string>, k: SessionKey, s: string)
    requires s in todo && KeyNames(Subkey(job.main, s)) == KeyNames(k)
    ensures Mentions(job, todo, k)
  {
    if todo[0] != s {
      MentionsAt(job, todo[1..], k, s);
    }
  }

  /** A subagent that the listing does not mention has no files in the store. */
  lemma UnlistedIsAbsent(job: Job, d: Disk, k: SessionKey, root: Root)
    requires OfSession(job, k) && k.subpath.Some? && Lists(job, d) && !Mentions(job, job.listing, k)
    requires root == job.root || root in job.legacy
    ensures CellAt(d, root, k) == NOTHING
  {
    KeyNamesArePlain(k);
    var names := KeyNames(k).value;
    var s := Join(names[2..], '/');
    NormalSubkey(job, k);
    FilesAreListed(k, JSONL);
    FilesAreListed(k, META);
    var t, m := Loc(root, WithSuffix(names, JSONL)), Loc(root, WithSuffix(names, META));
    assert Below(t.path, SessionDir(job.main)) && Below(m.path, SessionDir(job.main));
    if t in d || m in d {
      assert s in job.listing;
      MentionsAt(job, job.listing, k, s);
    }
  }

  // ---- Frames ----

  lemma KeepCells(job: Job, d: Disk, e: Disk, k: SessionKey)
    requires OfSession(job, k)
    requires CellAt(e, job.root, k) == CellAt(d, job.root, k) && CellAt(e, job.target, k) == CellAt(d, job.target, k)
    ensures Done(job, e, k) == Done(job, d, k)
    ensures ReadEntriesAt(e, job.root, k) == ReadEntriesAt(d, job.root, k)
  {
  }

  lemma MainOrSub(job: Job, k: SessionKey)
    requires Writes(job) && OfSession(job, k)
    ensures k.subpath.None? ==> k == job.main
    ensures k.subpath.Some? ==> KeyNames(k) != KeyNames(job.main)
    ensures k.subpath.None? ==> forall s :: KeyNames(Subkey(job.main, s)) != KeyNames(k)
  {
    KeyNamesArePlain(k);
    if k.subpath.None? {
      forall s | KeyNames(Subkey(job.main, s)).Ok?
        ensures KeyNames(Subkey(job.main, s)) != KeyNames(k)
      {
        KeyNamesArePlain(Subkey(job.main, s));
      }
    }
  }

  lemma SameArrangement(k: SessionKey, a: seq<Value>, b: seq<Value>)
    requires Arranged(k, a) == Arranged(k, b)
    ensures Kept(k, a) == Kept(k, b) && Meta(k, a) == Meta(k, b)
  {
    ArrangedTwice(k, a);
    ArrangedTwice(k, b);
  }

  // ---- The end of a resume ----

  /** How many steps are left at most. */
  function StepsLeft(job: Job, phase: Phase): nat {
    match phase
    case LoadMain => 5 + 4 * |job.listing|
    case Listing(_, todo) => 4 + 3 * |job.listing| + |todo|
    case WriteMain(_) => 3 + 3 * |job.listing|
    case RemoveSessionDir => 2 + 3 * |job.listing|
    case LoadSub(todo) => 1 + 3 * |todo|
    case WriteTranscript(_, _, todo) => 3 + 3 * |todo|
    case WriteMetadata(_, _, todo) => 2 + 3 * |todo|
    case Finished(_) => 0
  }

  lemma LoadMainProgresses(job: Job, d: Disk, now: nat)
    ensures StepsLeft(job, StepLoadMain(job, d, now).phase) < StepsLeft(job, LoadMain)
  {
    MainLoaded(job, LoadOn(d, job.root, job.legacy, job.main, now).0);
  }

  lemma MainLoaded(job: Job, loaded: Reading)
    ensures StepsLeft(job, AfterLoadMain(job, loaded)) < StepsLeft(job, LoadMain)
  {
  }

  lemma ListingProgresses(job: Job, d: Disk, entries: seq<Value>, todo: seq<string>, now: nat)
    ensures StepsLeft(job, StepListing(job, d, entries, todo, now).phase) < StepsLeft(job, Listing(entries, todo))
  {
    if todo != [] {
      var outcome := ReconcileOn(d, job.root, job.legacy, Subkey(job.main, todo[0]), now).0;
      assert StepsLeft(job, AfterListing(outcome, entries, todo[1..])) < StepsLeft(job, Listing(entries, todo));
    }
  }

  lemma LoadSubProgresses(job: Job, d: Disk, todo: seq<string>, now: nat)
    ensures StepsLeft(job, StepLoadSub(job, d, todo, now).phase) < StepsLeft(job, LoadSub(todo))
  {
    if todo != [] {
      var key := Subkey(job.main, todo[0]);
      var loaded := LoadOn(d, job.root, job.legacy, key, now).0;
      assert StepsLeft(job, AfterLoadSub(key, loaded, todo[1..])) < StepsLeft(job, LoadSub(todo));
    }
  }

  lemma StepProgresses(job: Job, s: State, now: nat)
    ensures var t := Step(job)(s, now);
            if s.phase.Finished? then t.phase.Finished? else StepsLeft(job, t.phase) < StepsLeft(job, s.phase)
  {
    match s.phase
    case LoadMain => LoadMainProgresses(job, s.disk, now);
    case Listing(entries, todo) => ListingProgresses(job, s.disk, entries, todo, now);
    case LoadSub(todo) => LoadSubProgresses(job, s.disk, todo, now);
    case _ =>
  }

  /** A resume that is not interrupted comes to an end. */
  lemma {:induction false} ResumeFinishes(job: Job, s: State, times: seq<nat>)
    requires |times| >= StepsLeft(job, s.phase)
    ensures Exec(Step(job), s, times).phase.Finished?
    decreases times
  {
    if times != [] {
      StepProgresses(job, s, times[0]);
      ResumeFinishes(job, Step(job)(s, times[0]), times[1..]);
    }
  }

  // ---- More than one legacy root ----

  lemma {:induction false} CandidatesWithoutTarget(d: Disk, target: Root, legacy: seq<Root>, main: SessionKey, k: SessionKey)
    requires KeyNames(k).Ok? && IsSubkeyOf(k, main)
    ensures forall c :: c in LegacyCandidates(RemoveDir(d, target, SessionDir(main)), legacy, k)
                    <==> c in LegacyCandidates(d, Without(legacy, target), k)
  {
    var e, others := RemoveDir(d, target, SessionDir(main)), Without(legacy, target);
    forall c
      ensures c in LegacyCandidates(e, legacy, k) <==> c in LegacyCandidates(d, others, k)
    {
      LegacyCandidateIn(e, legacy, k, c);
      LegacyCandidateIn(d, others, k, c);
      WithoutIn(legacy, target, c.root);
      CellAfterRemoveDir(d, target, main, c.root, k);
    }
  }

  /** Once the session directory of the profile is gone, the other roots decide. */
  lemma LastWithoutTarget(d: Disk, root: Root, target: Root, legacy: seq<Root>, main: SessionKey, k: SessionKey)
    requires KeyNames(k).Ok? && IsSubkeyOf(k, main) && root != target
    ensures LastWritten(RemoveDir(d, target, SessionDir(main)), root, legacy, k)
         == LastWritten(d, root, Without(legacy, target), k)
  {
    var e, others := RemoveDir(d, target, SessionDir(main)), Without(legacy, target);
    CellAfterRemoveDir(d, target, main, root, k);
    assert CandidateAt(e, root, k, true) == CandidateAt(d, root, k, true);
    CandidatesWithoutTarget(d, target, legacy, main, k);
    BestIgnoresOrder(Candidates(e, root, legacy, k), Candidates(d, root, others, k));
    if Winner(d, root, others, k).Some? {
      var w := Winner(d, root, others, k).value;
      WinnerIsACopy(d, root, others, k);
      WithoutIn(legacy, target, w.root);
      CellAfterRemoveDir(d, target, main, w.root, k);
    }
  }

  /** With further legacy roots, the load that follows the removal of the profile's copy returns
      what canonical held exactly when that is what was written last among the other roots. */
  lemma KeptWithThirdRoots(d: Disk, root: Root, target: Root, legacy: seq<Root>, main: SessionKey, k: SessionKey, now: nat)
    requires KeyNames(k).Ok? && IsSubkeyOf(k, main) && root != target
    ensures var loaded := LoadOn(RemoveDir(d, target, SessionDir(main)), root, legacy, k, now).0;
            var held := ArrangedReading(k, ReadEntriesAt(d, root, k));
            ArrangedReading(k, loaded) == held
            <==> ArrangedReading(k, LastWritten(d, root, Without(legacy, target), k)) == held
  {
    LastWithoutTarget(d, root, target, legacy, main, k);
    LoadIsLastWritten(RemoveDir(d, target, SessionDir(main)), root, legacy, k, now);
  }

  /** Canonical holds `here`, the profile `kept`, more recently, and another profile `older`, from a
      time in between. */
  function ThreeCopies(root: Root, target: Root, third: Root, k: SessionKey,
                       here: seq<Value>, kept: seq<Value>, older: seq<Value>): Disk
    requires KeyNames(k).Ok?
  {
    var d1 := PutCell(map[], root, k, ReplaceCell(k, here, 1));
    var d2 := PutCell(d1, target, k, ReplaceCell(k, kept, 5));
    PutCell(d2, third, k, ReplaceCell(k, older, 3))
  }

  lemma ThreeCopiesCells(root: Root, target: Root, third: Root, k: SessionKey,
                       here: seq<Value>, kept: seq<Value>, older: seq<Value>)
    requires KeyNames(k).Ok? && root != target && root != third && target != third
    ensures var d := ThreeCopies(root, target, third, k, here, kept, older);
            && CellAt(d, root, k) == ReplaceCell(k, here, 1)
            && CellAt(d, target, k) == ReplaceCell(k, kept, 5)
            && CellAt(d, third, k) == ReplaceCell(k, older, 3)
  {
    var d1 := PutCell(map[], root, k, ReplaceCell(k, here, 1));
    var d2 := PutCell(d1, target, k, ReplaceCell(k, kept, 5));
    CellAfterPut(map[], root, k, ReplaceCell(k, here, 1), root, k);
    CellAfterPut(d1, target, k, ReplaceCell(k, kept, 5), root, k);
    CellAfterPut(d1, target, k, ReplaceCell(k, kept, 5), target, k);
    CellAfterPut(d2, third, k, ReplaceCell(k, older, 3), root, k);
    CellAfterPut(d2, third, k, ReplaceCell(k, older, 3), target, k);
    CellAfterPut(d2, third, k, ReplaceCell(k, older, 3), third, k);
  }

  lemma ReplacedReading(d: Disk, r: Root, k: SessionKey, entries: seq<Value>, now: nat)
    requires KeyNames(k).Ok? && entries != [] && CellAt(d, r, k) == ReplaceCell(k, entries, now)
    ensures ReadEntriesAt(d, r, k) == Ok(Some(Arranged(k, entries)))
    ensures forall canonical :: CandidateAt(d, r, k, canonical) == Some(Candidate(r, now, canonical))
  {
    ReplaceHolds(k, entries, now);
    ReadHeld(k, ReplaceCell(k, entries, now), entries);
  }

  lemma TwoCandidates(d: Disk, root: Root, third: Root, k: SessionKey)
    requires KeyNames(k).Ok?
    requires CandidateAt(d, root, k, true) == Some(Candidate(root, 1, true))
    requires CandidateAt(d, third, k, false) == Some(Candidate(third, 3, false))
    ensures LegacyCandidates(d, [third], k) == [Candidate(third, 3, false)]
    ensures Winner(d, root, [third], k) == Some(Candidate(third, 3, false))
  {
    assert [third][..0] == [] && LegacyCandidates(d, [third], k) == [] + [Candidate(third, 3, false)];
    BestIsTheMaximum(Candidates(d, root, [third], k), Candidate(third, 3, false));
  }

  lemma ThreeCandidates(d: Disk, root: Root, third: Root, target: Root, k: SessionKey)
    requires KeyNames(k).Ok?
    requires CandidateAt(d, root, k, true) == Some(Candidate(root, 1, true))
    requires LegacyCandidates(d, [third], k) == [Candidate(third, 3, false)]
    requires CandidateAt(d, target, k, false) == Some(Candidate(target, 5, false))
    ensures Winner(d, root, [third, target], k) == Some(Candidate(target, 5, false))
  {
    var legacy := [third, target];
    assert legacy[..1] == [third];
    assert LegacyCandidates(d, legacy, k) == [Candidate(third, 3, false)] + [Candidate(target, 5, false)];
    BestIsTheMaximum(Candidates(d, root, legacy, k), Candidate(target, 5, false));
  }

  lemma FirstLoadKeeps(d: Disk, root: Root, target: Root, legacy: seq<Root>, k: SessionKey, now: nat)
    requires KeyNames(k).Ok? && Winner(d, root, legacy, k) == Some(Candidate(target, 5, false))
    requires ReadEntriesAt(d, target, k) == ReadEntriesAt(d, root, k) && ReadEntriesAt(d, root, k).Ok?
    ensures LoadOn(d, root, legacy, k, now) == (ReadEntriesAt(d, root, k), d)
  {
  }

  lemma SecondLoadLoses(d: Disk, root: Root, target: Root, third: Root, k: SessionKey, older: seq<Value>, now: nat)
    requires KeyNames(k).Ok? && k.subpath.Some? && root != target && third != target
    requires Winner(d, root, [third], k) == Some(Candidate(third, 3, false))
    requires ReadEntriesAt(d, third, k) == Ok(Some(Arranged(k, older)))
    ensures ArrangedReading(k, LoadOn(RemoveDir(d, target, SessionDir(k)), root, [third, target], k, now).0)
         == Ok(Some(Arranged(k, older)))
  {
    var legacy := [third, target];
    assert Without(legacy, target) == [third] by {
      assert [target][1..] == [] && Without([target], target) == [];
      assert legacy[1..] == [target];
    }
    LastWithoutTarget(d, root, target, legacy, k, k);
    LoadIsLastWritten(RemoveDir(d, target, SessionDir(k)), root, legacy, k, now);
    ArrangedTwice(k, older);
  }

  /** The copy kept in a third root can win only because the profile's newer one was removed:
      the first load returns `kept`, and the load after the removal returns `older`. */
  lemma ThirdRootCanWin(root: Root, target: Root, third: Root, k: SessionKey, kept: seq<Value>, older: seq<Value>, now: nat)
    requires KeyNames(k).Ok? && k.subpath.Some? && root != target && root != third && target != third
    requires kept != [] && older != []
    ensures var d, legacy := ThreeCopies(root, target, third, k, kept, kept, older), [third, target];
            && LoadOn(d, root, legacy, k, now) == (Ok(Some(Arranged(k, kept))), d)
            && ArrangedReading(k, LoadOn(RemoveDir(d, target, SessionDir(k)), root, legacy, k, now).0)
               == Ok(Some(Arranged(k, older)))
  {
    var d := ThreeCopies(root, target, third, k, kept, kept, older);
    ThreeCopiesCells(root, target, third, k, kept, kept, older);
    ReplacedReading(d, root, k, kept, 1);
    ReplacedReading(d, target, k, kept, 5);
    ReplacedReading(d, third, k, older, 3);
    TwoCandidates(d, root, third, k);
    ThreeCandidates(d, root, third, target, k);
    FirstLoadKeeps(d, root, target, [third, target], k, now);
    SecondLoadLoses(d, root, target, third, k, older, now);
  }
}
