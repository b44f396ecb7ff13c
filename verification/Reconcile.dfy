/** Last-writer-wins reconciliation of one key over several projects roots
    (claude-agent-sdk/src/session_store.rs:397-560, 734-737), and the store object. */
module Reconcile {
  import opened Common
  import opened SessionPaths
  import opened SessionDisk

  // ---- Orders ----

  ghost predicate StrictOrder<T(!new)>(less: (T, T) -> bool) {
    && (forall a :: !less(a, a))
    && (forall a, b, c :: less(a, b) && less(b, c) ==> less(a, c))
    && (forall a, b :: a != b ==> less(a, b) || less(b, a))
  }

  /** The lexicographic order on lists, a shorter prefix first. */
  predicate Lex<T(==)>(less: (T, T) -> bool, a: seq<T>, b: seq<T>) {
    b != [] && (a == [] || less(a[0], b[0]) || (a[0] == b[0] && Lex(less, a[1..], b[1..])))
  }

  lemma {:induction false} LexIrreflexive<T(!new)>(less: (T, T) -> bool, a: seq<T>)
    requires StrictOrder(less)
    ensures !Lex(less, a, a)
  {
    if a != [] {
      LexIrreflexive(less, a[1..]);
    }
  }

  lemma {:induction false} LexTransitive<T(!new)>(less: (T, T) -> bool, a: seq<T>, b: seq<T>, c: seq<T>)
    requires StrictOrder(less) && Lex(less, a, b) && Lex(less, b, c)
    ensures Lex(less, a, c)
  {
    if a != [] && a[0] == b[0] == c[0] {
      LexTransitive(less, a[1..], b[1..], c[1..]);
    }
  }

  lemma {:induction false} LexTotal<T(!new)>(less: (T, T) -> bool, a: seq<T>, b: seq<T>)
    requires StrictOrder(less) && a != b
    ensures Lex(less, a, b) || Lex(less, b, a)
  {
    if a != [] && b != [] && a[0] == b[0] {
      assert a == [a[0]] + a[1..] && b == [b[0]] + b[1..];
      LexTotal(less, a[1..], b[1..]);
    }
  }

  const CHAR_LESS := (a: char, b: char) => a < b

  function Rank(c: Component): nat {
    match c case RootDir => 0 case CurDir => 1 case ParentDir => 2 case Normal(_) => 3
  }

  predicate ComponentLess(a: Component, b: Component) {
    Rank(a) < Rank(b) || (a.Normal? && b.Normal? && Lex(CHAR_LESS, a.name, b.name))
  }

  /** The order on paths, component by component. */
  predicate RootLess(a: Root, b: Root) {
    Lex(ComponentLess, a, b)
  }

  lemma ComponentsAreOrdered()
    ensures StrictOrder(ComponentLess)
  {
    assert StrictOrder(CHAR_LESS);
    forall a: Component
      ensures !ComponentLess(a, a)
    {
      if a.Normal? {
        LexIrreflexive(CHAR_LESS, a.name);
      }
    }
    forall a: Component, b, c | ComponentLess(a, b) && ComponentLess(b, c)
      ensures ComponentLess(a, c)
    {
      if Rank(a) == Rank(c) {
        LexTransitive(CHAR_LESS, a.name, b.name, c.name);
      }
    }
    forall a: Component, b | a != b
      ensures ComponentLess(a, b) || ComponentLess(b, a)
    {
      if a.Normal? && b.Normal? {
        LexTotal(CHAR_LESS, a.name, b.name);
      }
    }
  }

  // ---- Candidates ----

  datatype Candidate = Candidate(root: Root, modified: nat, canonical: bool)

  predicate Wins(candidate: Candidate, current: Candidate) {
    candidate.modified > current.modified
    || (candidate.modified == current.modified
        && ((candidate.canonical && !current.canonical)
            || (candidate.canonical == current.canonical && RootLess(candidate.root, current.root))))
  }

  /** Any two different candidates are ordered, and never in a circle. */
  lemma WinsIsAnOrder()
    ensures StrictOrder(Wins)
  {
    ComponentsAreOrdered();
    forall a: Candidate
      ensures !Wins(a, a)
    {
      LexIrreflexive(ComponentLess, a.root);
    }
    forall a: Candidate, b, c | Wins(a, b) && Wins(b, c)
      ensures Wins(a, c)
    {
      if RootLess(a.root, b.root) && RootLess(b.root, c.root) {
        LexTransitive(ComponentLess, a.root, b.root, c.root);
      }
    }
    forall a: Candidate, b | a != b
      ensures Wins(a, b) || Wins(b, a)
    {
      if a.root != b.root {
        LexTotal(ComponentLess, a.root, b.root);
      }
    }
  }

  /** The fold over the candidates after the first. */
  function Fold(current: Candidate, rest: seq<Candidate>): Candidate
    decreases rest
  {
    if rest == [] then current else Fold(if Wins(rest[0], current) then rest[0] else current, rest[1..])
  }

  function Best(candidates: seq<Candidate>): Option<Candidate> {
    if candidates == [] then None else Some(Fold(candidates[0], candidates[1..]))
  }

  /** `w` is one of the candidates and wins over every other. */
  ghost predicate IsMaximum(w: Candidate, candidates: seq<Candidate>) {
    w in candidates && forall c :: c in candidates && c != w ==> Wins(w, c)
  }

  lemma {:induction false} FoldIsMaximum(current: Candidate, rest: seq<Candidate>)
    requires StrictOrder(Wins)
    ensures IsMaximum(Fold(current, rest), [current] + rest)
    decreases rest
  {
    if rest != [] {
      var next := if Wins(rest[0], current) then rest[0] else current;
      FoldIsMaximum(next, rest[1..]);
      var w := Fold(current, rest);
      forall c | c in [current] + rest && c != w
        ensures Wins(w, c)
      {
        assert c == current || c == rest[0] || c in [next] + rest[1..];
      }
    }
  }

  /** The fold finds the maximum, so its result depends on the candidates and not on their order. */
  lemma BestIsTheMaximum(candidates: seq<Candidate>, w: Candidate)
    ensures Best(candidates) == Some(w) <==> IsMaximum(w, candidates)
  {
    WinsIsAnOrder();
    if candidates != [] {
      FoldIsMaximum(candidates[0], candidates[1..]);
      assert candidates == [candidates[0]] + candidates[1..];
    }
  }

  lemma BestIgnoresOrder(a: seq<Candidate>, b: seq<Candidate>)
    requires forall c :: c in a <==> c in b
    ensures Best(a) == Best(b)
  {
    if a != [] {
      BestIsTheMaximum(a, Best(a).value);
      BestIsTheMaximum(b, Best(a).value);
    } else if b != [] {
      BestIsTheMaximum(b, Best(b).value);
    }
  }

  function Max(a: nat, b: nat): nat {
    if a < b then b else a
  }

  /** The copy of the key in a root, if there is one; its age is that of its newer file. */
  function CandidateAt(d: Disk, root: Root, key: SessionKey, canonical: bool): Option<Candidate>
    requires KeyNames(key).Ok?
  {
    match CellAt(d, root, key)
    case Cell(None, None) => None
    case Cell(Some(t), None) => Some(Candidate(root, t.mtime, canonical))
    case Cell(None, Some(s)) => Some(Candidate(root, s.mtime, canonical))
    case Cell(Some(t), Some(s)) => Some(Candidate(root, Max(t.mtime, s.mtime), canonical))
  }

  function Optional<T>(o: Option<T>): seq<T> {
    match o case None => [] case Some(x) => [x]
  }

  function LegacyCandidates(d: Disk, legacy: seq<Root>, key: SessionKey): (r: seq<Candidate>)
    requires KeyNames(key).Ok?
    ensures forall c :: c in r ==> !c.canonical && c.root in legacy && Some(c) == CandidateAt(d, c.root, key, false)
  {
    if legacy == [] then []
    else
      var n := |legacy| - 1;
      assert legacy == legacy[..n] + [legacy[n]];
      LegacyCandidates(d, legacy[..n], key) + Optional(CandidateAt(d, legacy[n], key, false))
  }

  function Candidates(d: Disk, root: Root, legacy: seq<Root>, key: SessionKey): seq<Candidate>
    requires KeyNames(key).Ok?
  {
    Optional(CandidateAt(d, root, key, true)) + LegacyCandidates(d, legacy, key)
  }

  function Winner(d: Disk, root: Root, legacy: seq<Root>, key: SessionKey): Option<Candidate>
    requires KeyNames(key).Ok?
  {
    Best(Candidates(d, root, legacy, key))
  }

  lemma {:induction false} LegacyCandidateIn(d: Disk, legacy: seq<Root>, key: SessionKey, c: Candidate)
    requires KeyNames(key).Ok?
    ensures c in LegacyCandidates(d, legacy, key) <==> c.root in legacy && Some(c) == CandidateAt(d, c.root, key, false)
  {
    if legacy != [] {
      var n := |legacy| - 1;
      assert legacy == legacy[..n] + [legacy[n]];
      LegacyCandidateIn(d, legacy[..n], key, c);
    }
  }

  /** The winner does not depend on the order of the legacy roots, nor on repetitions. */
  lemma WinnerIgnoresRootOrder(d: Disk, root: Root, a: seq<Root>, b: seq<Root>, key: SessionKey)
    requires KeyNames(key).Ok? && forall r :: r in a <==> r in b
    ensures Winner(d, root, a, key) == Winner(d, root, b, key)
  {
    forall c
      ensures c in LegacyCandidates(d, a, key) <==> c in LegacyCandidates(d, b, key)
    {
      LegacyCandidateIn(d, a, key, c);
      LegacyCandidateIn(d, b, key, c);
    }
    BestIgnoresOrder(Candidates(d, root, a, key), Candidates(d, root, b, key));
  }

  // ---- Reconciling a key ----

  datatype Outcome = Missing | Unchanged | Promoted

  function ReplaceCell(key: SessionKey, entries: seq<Value>, now: nat): Cell {
    Cell(Some(TextFile(JsonLines(Kept(key, entries)), now)),
         match Meta(key, entries) case None => None case Some(m) => Some(TextFile([Json(DropType(m))], now)))
  }

  datatype Decision = Fail(error: StoreError) | Keep(outcome: Outcome) | Promote(entries: seq<Value>)

  /** What reconciling decides from the files as they are. */
  function Decide(d: Disk, root: Root, legacy: seq<Root>, key: SessionKey): Decision {
    match KeyNames(key)
    case Err(e) => Fail(BadPath(e))
    case Ok(_) =>
      match Winner(d, root, legacy, key)
      case None => Keep(Missing)
      case Some(winner) =>
        if winner.canonical then Keep(Unchanged)
        else
          match ReadEntriesAt(d, winner.root, key)
          case Err(e) => Fail(e)
          case Ok(None) => Keep(Missing)
          case Ok(Some(entries)) =>
            if ReadEntriesAt(d, root, key) == Ok(Some(entries)) then Keep(Unchanged) else Promote(entries)
  }

  function ReconcileOn(d: Disk, root: Root, legacy: seq<Root>, key: SessionKey, now: nat)
    : (Result<Outcome, StoreError>, Disk)
  {
    match Decide(d, root, legacy, key)
    case Fail(e) => (Err(e), d)
    case Keep(outcome) => (Ok(outcome), d)
    case Promote(entries) =>
      (Ok(Promoted), if KeyNames(key).Ok? then PutCell(d, root, key, ReplaceCell(key, entries, now)) else d)
  }

  function LoadOn(d: Disk, root: Root, legacy: seq<Root>, key: SessionKey, now: nat)
    : (Result<Option<seq<Value>>, StoreError>, Disk)
  {
    var (outcome, d1) := ReconcileOn(d, root, legacy, key, now);
    match outcome
    case Err(e) => (Err(e), d1)
    case Ok(_) => (ReadEntriesAt(d1, root, key), d1)
  }

  type Reading = Result<Option<seq<Value>>, StoreError>

  /** What the last writer wrote: the entries of the winner, or those of canonical when the
      winner holds no entries at all. */
  function LastWritten(d: Disk, root: Root, legacy: seq<Root>, key: SessionKey): Reading
    requires KeyNames(key).Ok?
  {
    match Winner(d, root, legacy, key)
    case None => Ok(None)
    case Some(w) =>
      if ReadEntriesAt(d, w.root, key) == Ok(None) then ReadEntriesAt(d, root, key) else ReadEntriesAt(d, w.root, key)
  }

  /** A reading with its metadata last. */
  function ArrangedReading(key: SessionKey, r: Reading): Reading {
    match r
    case Ok(Some(entries)) => Ok(Some(Arranged(key, entries)))
    case _ => r
  }

  lemma ReplaceHolds(key: SessionKey, entries: seq<Value>, now: nat)
    ensures Holds(key, ReplaceCell(key, entries, now), entries)
  {
    if Meta(key, entries).Some? {
      OneJson(DropType(Meta(key, entries).value));
    }
  }

  lemma ReplaceReads(d: Disk, root: Root, key: SessionKey, entries: seq<Value>, now: nat)
    requires KeyNames(key).Ok? && entries != []
    ensures ReadEntriesAt(PutCell(d, root, key, ReplaceCell(key, entries, now)), root, key) == Ok(Some(Arranged(key, entries)))
  {
    var cell := ReplaceCell(key, entries, now);
    CellAfterPut(d, root, key, cell, root, key);
    ReplaceHolds(key, entries, now);
    ReadHeld(key, cell, entries);
  }

  /** The candidate that wins is a real copy: canonical in the canonical root, legacy elsewhere. */
  lemma WinnerIsACopy(d: Disk, root: Root, legacy: seq<Root>, key: SessionKey)
    requires KeyNames(key).Ok? && Winner(d, root, legacy, key).Some?
    ensures var w := Winner(d, root, legacy, key).value;
            && IsMaximum(w, Candidates(d, root, legacy, key))
            && (if w.canonical then w.root == root && Some(w) == CandidateAt(d, root, key, true)
                else w.root in legacy && w in LegacyCandidates(d, legacy, key))
  {
    var w := Winner(d, root, legacy, key).value;
    BestIsTheMaximum(Candidates(d, root, legacy, key), w);
    assert w in Optional(CandidateAt(d, root, key, true)) || w in LegacyCandidates(d, legacy, key);
  }

  predicate IsFileOf(f: File, cell: Cell) {
    cell.transcript == Some(f) || cell.sidecar == Some(f)
  }

  /** The newer file of a copy gives it its date. */
  lemma CandidateAge(d: Disk, r: Root, key: SessionKey, canonical: bool, f: File)
    requires KeyNames(key).Ok? && IsFileOf(f, CellAt(d, r, key))
    ensures var c := CandidateAt(d, r, key, canonical);
            c.Some? && c.value.root == r && c.value.canonical == canonical && f.mtime <= c.value.modified
  {
  }

  /** Who the last writer is, file by file: the winner carries the date of one of its own files;
      no file of the key in any root is newer; a canonical file of the same date means that
      canonical wins; and among legacy roots of the same date the least path wins. Without a
      winner there is no file at all. */
  lemma NewestWins(d: Disk, root: Root, legacy: seq<Root>, key: SessionKey, r: Root, f: File)
    requires KeyNames(key).Ok? && (r == root || r in legacy) && IsFileOf(f, CellAt(d, r, key))
    ensures Winner(d, root, legacy, key).Some?
    ensures var w := Winner(d, root, legacy, key).value;
            && (if w.canonical then w.root == root else w.root in legacy)
            && (exists own :: IsFileOf(own, CellAt(d, w.root, key)) && own.mtime == w.modified)
            && f.mtime <= w.modified
            && (f.mtime == w.modified && !w.canonical ==> r != root && (r == w.root || RootLess(w.root, r)))
  {
    CandidateAge(d, r, key, r == root, f);
    var c := CandidateAt(d, r, key, r == root).value;
    if r != root {
      LegacyCandidateIn(d, legacy, key, c);
    }
    assert c in Candidates(d, root, legacy, key);
    WinnerIsACopy(d, root, legacy, key);
    var w := Winner(d, root, legacy, key).value;
    OwnDate(d, w.root, key, w.canonical);
  }

  lemma OwnDate(d: Disk, r: Root, key: SessionKey, canonical: bool)
    requires KeyNames(key).Ok? && CandidateAt(d, r, key, canonical).Some?
    ensures exists own :: IsFileOf(own, CellAt(d, r, key)) && own.mtime == CandidateAt(d, r, key, canonical).value.modified
  {
    var cell := CellAt(d, r, key);
    if cell.transcript.Some? {
      assert IsFileOf(cell.transcript.value, cell);
    }
    if cell.sidecar.Some? {
      assert IsFileOf(cell.sidecar.value, cell);
    }
  }

  /** A promotion copies the entries of a legacy winner over other entries of canonical. */
  lemma PromoteMeans(d: Disk, root: Root, legacy: seq<Root>, key: SessionKey) returns (w: Candidate)
    requires Decide(d, root, legacy, key).Promote?
    ensures KeyNames(key).Ok? && Winner(d, root, legacy, key) == Some(w)
    ensures !w.canonical && w.root in legacy && w in LegacyCandidates(d, legacy, key)
    ensures var entries := Decide(d, root, legacy, key).entries;
            entries != [] && ReadEntriesAt(d, w.root, key) == Ok(Some(entries)) != ReadEntriesAt(d, root, key)
  {
    w := Winner(d, root, legacy, key).value;
    WinnerIsACopy(d, root, legacy, key);
  }

  /** The decision is to bring in what the last writer wrote, when canonical has something else. */
  lemma DecisionIsLastWritten(d: Disk, root: Root, legacy: seq<Root>, key: SessionKey)
    requires KeyNames(key).Ok?
    ensures var last := LastWritten(d, root, legacy, key);
            match Decide(d, root, legacy, key)
            case Fail(e) => last == Err(e)
            case Keep(_) => last == ReadEntriesAt(d, root, key)
            case Promote(entries) => last == Ok(Some(entries)) != ReadEntriesAt(d, root, key)
  {
    if Winner(d, root, legacy, key).Some? {
      WinnerIsACopy(d, root, legacy, key);
    } else {
      NoCopyReadsNothing(d, root, legacy, key);
    }
  }

  /** Last writer wins. Reconciling fails only when the winner can not be read, and then changes
      nothing; otherwise canonical holds what the last writer wrote, and `Promoted` is reported
      exactly when that can be read and is not what canonical held before. */
  lemma ReconcileIsLastWriterWins(d: Disk, root: Root, legacy: seq<Root>, key: SessionKey, now: nat)
    requires KeyNames(key).Ok?
    ensures var (outcome, d1) := ReconcileOn(d, root, legacy, key, now);
            var last := LastWritten(d, root, legacy, key);
            && (outcome.Err? ==> d1 == d && last == Err(outcome.error))
            && (outcome.Ok? ==> ArrangedReading(key, ReadEntriesAt(d1, root, key)) == ArrangedReading(key, last))
            && (outcome == Ok(Promoted) <==> last.Ok? && last != ReadEntriesAt(d, root, key))
            && (outcome != Ok(Promoted) ==> d1 == d)
  {
    DecisionIsLastWritten(d, root, legacy, key);
    KeepIsNoPromotion(d, root, legacy, key);
    if Decide(d, root, legacy, key).Promote? {
      var w := PromoteMeans(d, root, legacy, key);
      var entries := Decide(d, root, legacy, key).entries;
      ReplaceReads(d, root, key, entries, now);
      ArrangedTwice(key, entries);
    }
  }

  lemma KeepIsNoPromotion(d: Disk, root: Root, legacy: seq<Root>, key: SessionKey)
    ensures Decide(d, root, legacy, key).Keep? ==> Decide(d, root, legacy, key).outcome != Promoted
  {
  }

  lemma NoCopyReadsNothing(d: Disk, root: Root, legacy: seq<Root>, key: SessionKey)
    requires KeyNames(key).Ok? && Winner(d, root, legacy, key).None?
    ensures ReadEntriesAt(d, root, key) == Ok(None)
  {
    assert CandidateAt(d, root, key, true).None?;
  }

  /** Reconciling writes at most the two canonical files of its key. */
  lemma ReconcileFrame(d: Disk, root: Root, legacy: seq<Root>, key: SessionKey, now: nat, other: Root, b: SessionKey)
    requires KeyNames(b).Ok?
    ensures var d1 := ReconcileOn(d, root, legacy, key, now).1;
            (other == root && KeyNames(b) == KeyNames(key)) || CellAt(d1, other, b) == CellAt(d, other, b)
  {
    if Decide(d, root, legacy, key).Promote? && KeyNames(key).Ok? {
      CellAfterPut(d, root, key, ReplaceCell(key, Decide(d, root, legacy, key).entries, now), other, b);
    }
  }

  /** No file of a legacy root is ever changed. */
  lemma LegacyUntouched(d: Disk, root: Root, legacy: seq<Root>, key: SessionKey, now: nat, l: Loc)
    requires l.root != root
    ensures Lookup(ReconcileOn(d, root, legacy, key, now).1, l) == Lookup(d, l)
  {
    if Decide(d, root, legacy, key).Promote? && KeyNames(key).Ok? {
      PutElsewhere(d, root, key, ReplaceCell(key, Decide(d, root, legacy, key).entries, now), l);
    }
  }

  lemma {:induction false} LegacyCandidatesFrame(d: Disk, e: Disk, legacy: seq<Root>, key: SessionKey)
    requires KeyNames(key).Ok? && forall r :: r in legacy ==> CellAt(e, r, key) == CellAt(d, r, key)
    ensures LegacyCandidates(e, legacy, key) == LegacyCandidates(d, legacy, key)
  {
    if legacy != [] {
      var n := |legacy| - 1;
      assert legacy == legacy[..n] + [legacy[n]];
      assert CellAt(e, legacy[n], key) == CellAt(d, legacy[n], key);
      LegacyCandidatesFrame(d, e, legacy[..n], key);
    }
  }

  /** Against a new canonical copy the best of the others wins exactly when its date is later. */
  lemma BestAgainstCanonical(copies: seq<Candidate>, all: seq<Candidate>, w: Candidate, mine: Candidate)
    requires IsMaximum(w, all) && w in copies && (forall c :: c in copies ==> c in all)
    requires !w.canonical && mine.canonical
    ensures Best([mine] + copies) == Some(if w.modified > mine.modified then w else mine)
  {
    WinsIsAnOrder();
    BestIsTheMaximum([mine] + copies, if w.modified > mine.modified then w else mine);
  }

  lemma MineAfterPut(d: Disk, root: Root, key: SessionKey, entries: seq<Value>, now: nat)
    requires KeyNames(key).Ok?
    ensures CandidateAt(PutCell(d, root, key, ReplaceCell(key, entries, now)), root, key, true)
         == Some(Candidate(root, now, true))
  {
    CellAfterPut(d, root, key, ReplaceCell(key, entries, now), root, key);
  }

  lemma LegacyAfterPut(d: Disk, root: Root, legacy: seq<Root>, key: SessionKey, cell: Cell)
    requires KeyNames(key).Ok? && root !in legacy && (key.subpath.None? ==> cell.sidecar.None?)
    ensures LegacyCandidates(PutCell(d, root, key, cell), legacy, key) == LegacyCandidates(d, legacy, key)
  {
    forall r | r in legacy
      ensures CellAt(PutCell(d, root, key, cell), r, key) == CellAt(d, r, key)
    {
      CellAfterPut(d, root, key, cell, r, key);
    }
    LegacyCandidatesFrame(d, PutCell(d, root, key, cell), legacy, key);
  }

  /** After a promotion the canonical copy is as old as the call; the old winner still wins
      exactly when its date is later than that. */
  lemma WinnerAfterPut(d: Disk, root: Root, legacy: seq<Root>, key: SessionKey, entries: seq<Value>, now: nat, w: Candidate)
    requires KeyNames(key).Ok? && root !in legacy && !w.canonical
    requires IsMaximum(w, Candidates(d, root, legacy, key)) && w in LegacyCandidates(d, legacy, key)
    ensures Winner(PutCell(d, root, key, ReplaceCell(key, entries, now)), root, legacy, key)
         == Some(if w.modified > now then w else Candidate(root, now, true))
  {
    LegacyAfterPut(d, root, legacy, key, ReplaceCell(key, entries, now));
    MineAfterPut(d, root, key, entries, now);
    BestAgainstCanonical(LegacyCandidates(d, legacy, key), Candidates(d, root, legacy, key), w, Candidate(root, now, true));
  }

  /** A second call promotes exactly when what was written last can be read and is not what
      canonical held before the first call, is not arranged (a subagent transcript with metadata
      lines before others), and carries a date later than the first call. Even then the entries
      of canonical stay as they are. */
  lemma SecondReconcile(d: Disk, root: Root, legacy: seq<Root>, key: SessionKey, now: nat, later: nat)
    requires KeyNames(key).Ok? && root !in legacy
    ensures var (first, d1) := ReconcileOn(d, root, legacy, key, now);
            var (second, d2) := ReconcileOn(d1, root, legacy, key, later);
            var last := LastWritten(d, root, legacy, key);
            && (second == Ok(Promoted) <==>
                 && last.Ok? && last != ReadEntriesAt(d, root, key) && last != ArrangedReading(key, last)
                 && Winner(d, root, legacy, key).Some? && Winner(d, root, legacy, key).value.modified > now)
            && ReadEntriesAt(d2, root, key) == ReadEntriesAt(d1, root, key)
            && (second != Ok(Promoted) ==> d2 == d1)
  {
    KeepIsNoPromotion(d, root, legacy, key);
    DecisionIsLastWritten(d, root, legacy, key);
    if Decide(d, root, legacy, key).Promote? {
      SecondAfterPromotion(d, root, legacy, key, now);
      var d1 := ReconcileOn(d, root, legacy, key, now).1;
      if Decide(d1, root, legacy, key).Promote? {
        ReplaceReads(d1, root, key, Decide(d, root, legacy, key).entries, later);
      }
    }
  }

  /** A legacy copy of a subagent with a metadata line first, dated after the call at `now`. */
  function MetadataFirst(other: Root, key: SessionKey, meta: Value, entry: Value, now: nat): Disk
    requires KeyNames(key).Ok?
  {
    PutCell(map[], other, key, Cell(Some(TextFile(JsonLines([meta, entry]), now + 1)), None))
  }

  lemma MetadataFirstHolds(root: Root, other: Root, key: SessionKey, meta: Value, entry: Value, now: nat)
    requires KeyNames(key).Ok? && key.subpath.Some? && root != other
    ensures var d := MetadataFirst(other, key, meta, entry, now);
            && CellAt(d, root, key) == NOTHING && ReadEntriesAt(d, other, key) == Ok(Some([meta, entry]))
            && Winner(d, root, [other], key) == Some(Candidate(other, now + 1, false))
  {
    var d := MetadataFirst(other, key, meta, entry, now);
    var cell := Cell(Some(TextFile(JsonLines([meta, entry]), now + 1)), None);
    CellAfterPut(map[], other, key, cell, root, key);
    CellAfterPut(map[], other, key, cell, other, key);
    ParseJsonLines([meta, entry], 0);
    assert [other][..0] == [] && LegacyCandidates(d, [other], key) == [] + [Candidate(other, now + 1, false)];
    BestIsTheMaximum(Candidates(d, root, [other], key), Candidate(other, now + 1, false));
  }

  lemma MetadataFirstIsRearranged(key: SessionKey, meta: Value, entry: Value)
    requires key.subpath.Some? && IsMetadata(meta) && !IsMetadata(entry)
    ensures Arranged(key, [meta, entry]) == [entry, meta] != [meta, entry]
  {
    OneEntry(meta);
    OneEntry(entry);
    assert [meta, entry] == [meta] + [entry];
    NonMetadataAppend([meta], [entry]);
    LastMetadataAppend([meta], [entry]);
  }

  /** Such a second promotion is real: on this disk both calls report one. */
  lemma SecondCallCanPromote(root: Root, other: Root, key: SessionKey, meta: Value, entry: Value, now: nat, later: nat)
    requires KeyNames(key).Ok? && key.subpath.Some? && root != other && IsMetadata(meta) && !IsMetadata(entry)
    ensures var d := MetadataFirst(other, key, meta, entry, now);
            var (first, d1) := ReconcileOn(d, root, [other], key, now);
            first == Ok(Promoted) == ReconcileOn(d1, root, [other], key, later).0
  {
    var d := MetadataFirst(other, key, meta, entry, now);
    MetadataFirstHolds(root, other, key, meta, entry, now);
    MetadataFirstIsRearranged(key, meta, entry);
    SecondReconcile(d, root, [other], key, now, later);
  }

  lemma DecideAgain(d: Disk, root: Root, legacy: seq<Root>, key: SessionKey, w: Candidate, entries: seq<Value>, now: nat)
    requires KeyNames(key).Ok? && !w.canonical && entries != []
    requires Winner(d, root, legacy, key) == Some(if w.modified > now then w else Candidate(root, now, true))
    requires ReadEntriesAt(d, w.root, key) == Ok(Some(entries))
    requires ReadEntriesAt(d, root, key) == Ok(Some(Arranged(key, entries)))
    ensures Decide(d, root, legacy, key)
         == if w.modified > now && Arranged(key, entries) != entries then Promote(entries) else Keep(Unchanged)
  {
  }

  lemma ReadElsewhereAfterPut(d: Disk, root: Root, key: SessionKey, entries: seq<Value>, now: nat, other: Root)
    requires KeyNames(key).Ok? && other != root
    ensures ReadEntriesAt(PutCell(d, root, key, ReplaceCell(key, entries, now)), other, key) == ReadEntriesAt(d, other, key)
  {
    CellAfterPut(d, root, key, ReplaceCell(key, entries, now), other, key);
  }

  lemma DecideAfterPut(d: Disk, root: Root, legacy: seq<Root>, key: SessionKey, w: Candidate, entries: seq<Value>, now: nat)
    requires KeyNames(key).Ok? && root !in legacy && entries != []
    requires !w.canonical && w.root in legacy && w in LegacyCandidates(d, legacy, key)
    requires IsMaximum(w, Candidates(d, root, legacy, key)) && ReadEntriesAt(d, w.root, key) == Ok(Some(entries))
    ensures Decide(PutCell(d, root, key, ReplaceCell(key, entries, now)), root, legacy, key)
         == if w.modified > now && Arranged(key, entries) != entries then Promote(entries) else Keep(Unchanged)
  {
    var d1 := PutCell(d, root, key, ReplaceCell(key, entries, now));
    WinnerAfterPut(d, root, legacy, key, entries, now, w);
    ReplaceReads(d, root, key, entries, now);
    ReadElsewhereAfterPut(d, root, key, entries, now, w.root);
    DecideAgain(d1, root, legacy, key, w, entries, now);
  }

  lemma SecondAfterPromotion(d: Disk, root: Root, legacy: seq<Root>, key: SessionKey, now: nat)
    requires root !in legacy && Decide(d, root, legacy, key).Promote?
    ensures KeyNames(key).Ok?
    ensures var entries := Decide(d, root, legacy, key).entries;
            var d1 := PutCell(d, root, key, ReplaceCell(key, entries, now));
            && Decide(d1, root, legacy, key)
               == (if Winner(d, root, legacy, key).value.modified > now && Arranged(key, entries) != entries
                   then Promote(entries) else Keep(Unchanged))
            && ReadEntriesAt(d1, root, key) == Ok(Some(Arranged(key, entries)))
  {
    var w := PromoteMeans(d, root, legacy, key);
    var entries := Decide(d, root, legacy, key).entries;
    WinnerIsACopy(d, root, legacy, key);
    DecideAfterPut(d, root, legacy, key, w, entries, now);
    ReplaceReads(d, root, key, entries, now);
  }

  /** For main transcripts arranging does nothing, so a second call changes nothing at all. */
  lemma SecondReconcileOfMain(d: Disk, root: Root, legacy: seq<Root>, key: SessionKey, now: nat, later: nat)
    requires KeyNames(key).Ok? && root !in legacy && key.subpath.None?
    ensures var (first, d1) := ReconcileOn(d, root, legacy, key, now);
            var (second, d2) := ReconcileOn(d1, root, legacy, key, later);
            d2 == d1 && second != Ok(Promoted)
  {
    SecondReconcile(d, root, legacy, key, now, later);
    var last := LastWritten(d, root, legacy, key);
    if last.Ok? && last.value.Some? {
      assert Arranged(key, last.value.value) == last.value.value + [] == last.value.value;
    }
  }

  /** Loading returns what the last writer wrote, and the error of a winner that can not be read. */
  lemma LoadIsLastWritten(d: Disk, root: Root, legacy: seq<Root>, key: SessionKey, now: nat)
    requires KeyNames(key).Ok?
    ensures ArrangedReading(key, LoadOn(d, root, legacy, key, now).0)
         == ArrangedReading(key, LastWritten(d, root, legacy, key))
  {
    ReconcileIsLastWriterWins(d, root, legacy, key, now);
  }

  /** A key whose names can not be files is refused by every call, and nothing changes. */
  lemma BadKeysAreRefused(d: Disk, root: Root, legacy: seq<Root>, key: SessionKey, entries: seq<Value>, now: nat)
    requires KeyNames(key).Err? && entries != []
    ensures var error := BadPath(KeyNames(key).error);
            && AppendOn(d, root, key, entries, now) == (Err(error), d)
            && DeleteOn(d, root, key) == (Err(error), d)
            && ReconcileOn(d, root, legacy, key, now) == (Err(error), d)
            && LoadOn(d, root, legacy, key, now) == (Err(error), d)
  {
  }

  /** A store without legacy roots loads everything appended since the last delete. */
  lemma LoadReturnsHistory(d: Disk, root: Root, key: SessionKey, ops: seq<Op>, now: nat)
    requires KeyNames(key).Ok? && CellAt(d, root, key) == NOTHING
    ensures var e := Exec(StepOn(root), d, ops);
            var all := Appended(key, [], ops);
            LoadOn(e, root, [], key, now) == (Ok(if all == [] then None else Some(Arranged(key, all))), e)
  {
    DiskRefinesHistory(d, root, key, ops);
    AloneNothingMoves(Exec(StepOn(root), d, ops), root, key, now);
  }

  lemma AloneNothingMoves(d: Disk, root: Root, key: SessionKey, now: nat)
    requires KeyNames(key).Ok?
    ensures LoadOn(d, root, [], key, now) == (ReadEntriesAt(d, root, key), d)
  {
    assert Decide(d, root, [], key).Keep?;
  }

  // ---- The store ----

  lemma PutSame(d: Disk, l: Loc)
    ensures Put(d, l, Lookup(d, l)) == d
  {
    assert l !in d ==> d - {l} == d;
    assert l in d ==> d[l := d[l]] == d;
  }

  class LocalDirectorySessionStore {
    const root: Root
    const legacyRoots: seq<Root>
    var files: Disk

    ghost predicate Valid()
      reads this
    {
      root !in legacyRoots && NoDup(legacyRoots)
    }

    /** Legacy roots are kept once each, and never the canonical root. */
    constructor (root: Root, roots: seq<Root>, files: Disk)
      ensures Valid() && this.root == root && this.files == files
      ensures forall r :: r in legacyRoots <==> r in roots && r != root
    {
      var unique: seq<Root> := [];
      for i := 0 to |roots|
        invariant NoDup(unique)
        invariant forall r :: r in unique <==> r in roots[..i] && r != root
      {
        assert roots[..i + 1] == roots[..i] + [roots[i]];
        if roots[i] != root && roots[i] !in unique {
          unique := unique + [roots[i]];
        }
      }
      assert roots[..|roots|] == roots;
      this.root, legacyRoots, this.files := root, unique, files;
    }

    method Append(key: SessionKey, entries: seq<Value>, now: nat) returns (r: Result<(), StoreError>)
      modifies this`files
      ensures (r, files) == AppendOn(old(files), root, key, entries, now)
    {
      if entries == [] {
        return Ok(());
      }
      if KeyNames(key).Err? {
        return Err(BadPath(KeyNames(key).error));
      }
      var transcript, metadata := entries, None;
      if key.subpath.Some? {
        transcript, metadata := SplitEntries(entries);
      }
      var path := Loc(root, PathForKey(key).value);
      PutSame(files, path);
      if transcript != [] {
        var before := if path in files then files[path].lines else [];
        files := files[path := TextFile(before + JsonLines(transcript), now)];
      }
      if key.subpath.Some? {
        var sidecar := Loc(root, MetadataPathForKey(key).value);
        SidecarApart(key);
        PutSame(files, sidecar);
        if metadata.Some? {
          files := files[sidecar := TextFile([Json(DropType(metadata.value))], now)];
        }
      }
      return Ok(());
    }

    method Delete(key: SessionKey) returns (r: Result<bool, StoreError>)
      modifies this`files
      ensures (r, files) == DeleteOn(old(files), root, key)
    {
      if KeyNames(key).Err? {
        return Err(BadPath(KeyNames(key).error));
      }
      files := files - {Loc(root, PathForKey(key).value)};
      if key.subpath.Some? {
        files := files - {Loc(root, MetadataPathForKey(key).value)};
      } else {
        files := RemoveDir(files, root, SessionDir(key));
      }
      return Ok(true);
    }

    /** The copies of a key, canonical first. */
    method CollectCandidates(key: SessionKey) returns (candidates: seq<Candidate>)
      requires KeyNames(key).Ok?
      ensures candidates == Candidates(files, root, legacyRoots, key)
    {
      candidates := Optional(CandidateAt(files, root, key, true));
      ghost var first := candidates;
      for i := 0 to |legacyRoots|
        invariant candidates == first + LegacyCandidates(files, legacyRoots[..i], key)
      {
        assert legacyRoots[..i + 1][..i] == legacyRoots[..i];
        candidates := candidates + Optional(CandidateAt(files, legacyRoots[i], key, false));
      }
      assert legacyRoots[..|legacyRoots|] == legacyRoots;
    }

    method ReplaceCanonicalEntries(key: SessionKey, entries: seq<Value>, now: nat)
      requires KeyNames(key).Ok?
      modifies this`files
      ensures files == PutCell(old(files), root, key, ReplaceCell(key, entries, now))
    {
      var transcript, metadata := entries, None;
      if key.subpath.Some? {
        transcript, metadata := SplitEntries(entries);
      }
      files := files[Loc(root, PathForKey(key).value) := TextFile(JsonLines(transcript), now)];
      if key.subpath.Some? {
        var sidecar := Loc(root, MetadataPathForKey(key).value);
        if metadata.Some? {
          files := files[sidecar := TextFile([Json(DropType(metadata.value))], now)];
        } else {
          files := files - {sidecar};
        }
      }
    }

    method ReconcileKey(key: SessionKey, now: nat) returns (r: Result<Outcome, StoreError>)
      modifies this`files
      ensures (r, files) == ReconcileOn(old(files), root, legacyRoots, key, now)
    {
      if KeyNames(key).Err? {
        return Err(BadPath(KeyNames(key).error));
      }
      var candidates := CollectCandidates(key);
      var winner := Best(candidates);
      if winner.None? {
        return Ok(Missing);
      }
      if winner.value.canonical {
        return Ok(Unchanged);
      }
      var read := ReadEntriesAt(files, winner.value.root, key);
      if read.Err? {
        return Err(read.error);
      }
      if read.value.None? {
        return Ok(Missing);
      }
      if ReadEntriesAt(files, root, key) == read {
        return Ok(Unchanged);
      }
      ReplaceCanonicalEntries(key, read.value.value, now);
      return Ok(Promoted);
    }

    method Load(key: SessionKey, now: nat) returns (r: Reading)
      modifies this`files
      ensures (r, files) == LoadOn(old(files), root, legacyRoots, key, now)
    {
      var outcome := ReconcileKey(key, now);
      if outcome.Err? {
        return Err(outcome.error);
      }
      return ReadEntriesAt(files, root, key);
    }
  }

  lemma SidecarApart(key: SessionKey)
    requires KeyNames(key).Ok? && key.subpath.Some?
    ensures MetadataPathForKey(key).value != PathForKey(key).value
  {
    KeysShareFilesByName(key, key);
  }
}
