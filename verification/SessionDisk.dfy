/** The files of the Claude session store: append, delete and read on one projects root
    (claude-agent-sdk/src/session_store.rs:351-406, 686-737, 771-784).

    The disk maps a root and a path below it to a file. A file is its text, read in the two ways
    the store reads it: line by line for a transcript, as one document for a sidecar. */
module SessionDisk {
  import opened Common
  import opened SessionPaths

  // ---- Entries ----

  datatype Value = Object(fields: map<string, Value>) | Text(text: string) | Other(id: nat)

  const AGENT_METADATA := Text("agent_metadata")

  predicate IsMetadata(v: Value) {
    v.Object? && "type" in v.fields && v.fields["type"] == AGENT_METADATA
  }

  function DropType(v: Value): (r: Value)
    requires v.Object?
    ensures r.Object?
  {
    Object(v.fields - {"type"})
  }

  function AddType(v: Value): (r: Value)
    requires v.Object?
    ensures IsMetadata(r)
  {
    Object(v.fields["type" := AGENT_METADATA])
  }

  /** The tag taken off for the sidecar is put back on by reading. */
  lemma TypeRoundTrip(v: Value)
    requires IsMetadata(v)
    ensures AddType(DropType(v)) == v
  {
    assert AddType(DropType(v)).fields == v.fields;
  }

  function NonMetadata(entries: seq<Value>): (r: seq<Value>)
    ensures forall v :: v in r ==> v in entries && !IsMetadata(v)
  {
    if entries == [] then []
    else if IsMetadata(entries[0]) then NonMetadata(entries[1..])
    else [entries[0]] + NonMetadata(entries[1..])
  }

  function LastMetadata(entries: seq<Value>): (r: Option<Value>)
    ensures r.Some? ==> IsMetadata(r.value) && r.value in entries
    ensures r.None? ==> forall v :: v in entries ==> !IsMetadata(v)
  {
    if entries == [] then None
    else if IsMetadata(entries[|entries| - 1]) then Some(entries[|entries| - 1])
    else LastMetadata(entries[..|entries| - 1])
  }

  /** The loop that splits a batch into transcript entries and the sidecar entry. */
  method SplitEntries(entries: seq<Value>) returns (transcript: seq<Value>, metadata: Option<Value>)
    ensures transcript == NonMetadata(entries) && metadata == LastMetadata(entries)
  {
    transcript, metadata := [], None;
    for i := 0 to |entries|
      invariant transcript == NonMetadata(entries[..i]) && metadata == LastMetadata(entries[..i])
    {
      assert entries[..i + 1] == entries[..i] + [entries[i]] && entries[..i + 1][..i] == entries[..i];
      NonMetadataAppend(entries[..i], [entries[i]]);
      assert [entries[i]][1..] == [];
      if IsMetadata(entries[i]) {
        metadata := Some(entries[i]);
      } else {
        transcript := transcript + [entries[i]];
      }
    }
    assert entries[..|entries|] == entries;
  }

  lemma {:induction false} NonMetadataAppend(a: seq<Value>, b: seq<Value>)
    ensures NonMetadata(a + b) == NonMetadata(a) + NonMetadata(b)
  {
    if a == [] {
      assert a + b == b;
    } else {
      NonMetadataAppend(a[1..], b);
      assert (a + b)[1..] == a[1..] + b;
      var front, back := NonMetadata(a[1..]), NonMetadata(b);
      assert [a[0]] + (front + back) == ([a[0]] + front) + back;
    }
  }

  lemma {:induction false} LastMetadataAppend(a: seq<Value>, b: seq<Value>)
    ensures LastMetadata(a + b) == if LastMetadata(b).Some? then LastMetadata(b) else LastMetadata(a)
  {
    if b == [] {
      assert a + b == a;
    } else {
      var n := |b| - 1;
      LastMetadataAppend(a, b[..n]);
      assert (a + b)[..|a| + n] == a + b[..n] && (a + b)[|a| + n] == b[n];
    }
  }

  lemma OneEntry(v: Value)
    ensures NonMetadata([v]) == (if IsMetadata(v) then [] else [v])
    ensures LastMetadata([v]) == (if IsMetadata(v) then Some(v) else None)
  {
    assert [v][1..] == [] && [v][..0] == [];
    assert NonMetadata([v]) == (if IsMetadata(v) then [] else [v]) + NonMetadata([]);
  }

  lemma {:induction false} NonMetadataFixed(entries: seq<Value>)
    requires LastMetadata(entries).None?
    ensures NonMetadata(entries) == entries
  {
    if entries != [] {
      assert entries[0] in entries && forall v :: v in entries[1..] ==> v in entries;
      assert LastMetadata(entries[1..]).None?;
      NonMetadataFixed(entries[1..]);
    }
  }

  // ---- What a key keeps ----

  /** The entries of a key that go to its transcript. */
  function Kept(key: SessionKey, entries: seq<Value>): seq<Value> {
    if key.subpath.None? then entries else NonMetadata(entries)
  }

  /** The entry that goes to its sidecar. */
  function Meta(key: SessionKey, entries: seq<Value>): (r: Option<Value>)
    ensures r.Some? ==> IsMetadata(r.value)
  {
    if key.subpath.None? then None else LastMetadata(entries)
  }

  /** Entries in the order they are read back: for a subagent, the metadata last. */
  function Arranged(key: SessionKey, entries: seq<Value>): seq<Value> {
    Kept(key, entries) + match Meta(key, entries) case None => [] case Some(m) => [m]
  }

  /** Arranging twice is arranging once, and loses an entry only to a later metadata entry. */
  lemma ArrangedTwice(key: SessionKey, entries: seq<Value>)
    ensures Arranged(key, Arranged(key, entries)) == Arranged(key, entries)
    ensures Kept(key, Arranged(key, entries)) == Kept(key, entries)
    ensures Meta(key, Arranged(key, entries)) == Meta(key, entries)
    ensures Arranged(key, entries) == [] <==> entries == []
  {
    if key.subpath.None? {
      assert entries + [] == entries;
    } else {
      var kept := NonMetadata(entries);
      NonMetadataFixed(kept);
      match LastMetadata(entries)
      case None =>
        assert kept + [] == kept;
        NonMetadataFixed(entries);
      case Some(m) =>
        NonMetadataAppend(kept, [m]);
        assert NonMetadata([m]) == [] by { assert [m][1..] == []; }
        LastMetadataAppend(kept, [m]);
        assert kept + [] == kept;
    }
  }

  lemma ArrangedAppend(key: SessionKey, a: seq<Value>, b: seq<Value>)
    ensures Kept(key, a + b) == Kept(key, a) + Kept(key, b)
    ensures Meta(key, a + b) == if Meta(key, b).Some? then Meta(key, b) else Meta(key, a)
  {
    NonMetadataAppend(a, b);
    LastMetadataAppend(a, b);
  }

  // ---- Files ----

  datatype Line = Blank | Json(value: Value) | Garbage

  datatype File = File(lines: seq<Line>, whole: Option<Value>, mtime: nat)

  function JsonLines(entries: seq<Value>): (lines: seq<Line>)
    ensures |lines| == |entries|
  {
    if entries == [] then [] else [Json(entries[0])] + JsonLines(entries[1..])
  }

  /** The one document of a text whose other lines are blank. */
  function OneDocument(lines: seq<Line>): Option<Value> {
    if lines == [] then None
    else if lines[0].Blank? then OneDocument(lines[1..])
    else if lines[0].Json? && (forall l :: l in lines[1..] ==> l.Blank?) then Some(lines[0].value)
    else None
  }

  function TextFile(lines: seq<Line>, now: nat): File {
    File(lines, OneDocument(lines), now)
  }

  datatype StoreError = BadPath(path: PathError) | BadLine(index: nat) | BadMetadata | Interrupted

  function ParseLines(lines: seq<Line>, from: nat): Result<seq<Value>, StoreError>
    requires from <= |lines|
    decreases |lines| - from
  {
    if from == |lines| then Ok([])
    else
      match lines[from]
      case Garbage => Err(BadLine(from + 1))
      case Blank => ParseLines(lines, from + 1)
      case Json(value) =>
        match ParseLines(lines, from + 1)
        case Err(e) => Err(e)
        case Ok(rest) => Ok([value] + rest)
  }

  lemma {:induction false} JsonLinesAppend(a: seq<Value>, b: seq<Value>)
    ensures JsonLines(a + b) == JsonLines(a) + JsonLines(b)
  {
    if a == [] {
      assert a + b == b;
    } else {
      JsonLinesAppend(a[1..], b);
      assert (a + b)[1..] == a[1..] + b;
    }
  }

  lemma {:induction false} JsonLineAt(entries: seq<Value>, i: nat)
    requires i < |entries|
    ensures JsonLines(entries)[i] == Json(entries[i])
  {
    if i > 0 {
      JsonLineAt(entries[1..], i - 1);
    }
  }

  /** Written lines parse back to the entries. */
  lemma {:induction false} ParseJsonLines(entries: seq<Value>, from: nat)
    requires from <= |entries|
    ensures ParseLines(JsonLines(entries), from) == Ok(entries[from..])
    decreases |entries| - from
  {
    if from == |entries| {
      assert entries[from..] == [];
    } else {
      JsonLineAt(entries, from);
      ParseJsonLines(entries, from + 1);
      assert entries[from..] == [entries[from]] + entries[from + 1..];
    }
  }

  /** The values of the lines that hold one. */
  function Values(lines: seq<Line>): seq<Value> {
    if lines == [] then []
    else (if lines[0].Json? then [lines[0].value] else []) + Values(lines[1..])
  }

  lemma {:induction false} ParseGoodLines(lines: seq<Line>, from: nat)
    requires from <= |lines| && Garbage !in lines[from..]
    ensures ParseLines(lines, from) == Ok(Values(lines[from..]))
    decreases |lines| - from
  {
    if from < |lines| {
      var tail := lines[from..];
      assert tail[0] == lines[from] && tail[1..] == lines[from + 1..] && tail[0] in tail;
      assert forall l :: l in tail[1..] ==> l in tail;
      ParseGoodLines(lines, from + 1);
      var rest := Values(tail[1..]);
      assert [] + rest == rest;
    }
  }

  lemma {:induction false} ParseBadLine(lines: seq<Line>, from: nat, i: nat)
    requires from <= i < |lines| && lines[i].Garbage? && Garbage !in lines[from..i]
    ensures ParseLines(lines, from) == Err(BadLine(i + 1))
    decreases i - from
  {
    if from < i {
      assert lines[from..i] == [lines[from]] + lines[from + 1..i];
      ParseBadLine(lines, from + 1, i);
    }
  }

  /** Any lines: reading fails at the first line that is neither blank nor JSON, counted from one,
      and otherwise yields the values in order. */
  lemma ParseLinesMeans(lines: seq<Line>)
    ensures Garbage !in lines ==> ParseLines(lines, 0) == Ok(Values(lines))
    ensures forall i :: 0 <= i < |lines| && lines[i].Garbage? && Garbage !in lines[..i] ==>
              ParseLines(lines, 0) == Err(BadLine(i + 1))
  {
    assert lines[0..] == lines;
    if Garbage !in lines {
      ParseGoodLines(lines, 0);
    }
    forall i | 0 <= i < |lines| && lines[i].Garbage? && Garbage !in lines[..i]
      ensures ParseLines(lines, 0) == Err(BadLine(i + 1))
    {
      assert lines[0..i] == lines[..i];
      ParseBadLine(lines, 0, i);
    }
  }

  // ---- The files of one key in one root ----

  datatype Cell = Cell(transcript: Option<File>, sidecar: Option<File>)

  const NOTHING := Cell(None, None)

  /** What reading the files of a key yields: its entries, or none at all. */
  function ReadCell(cell: Cell): (r: Result<Option<seq<Value>>, StoreError>)
    ensures r.Ok? && r.value.Some? ==> r.value.value != []
  {
    var lines := match cell.transcript case None => Ok([]) case Some(f) => ParseLines(f.lines, 0);
    match lines
    case Err(e) => Err(e)
    case Ok(entries) =>
      match cell.sidecar
      case None => Ok(if entries == [] then None else Some(entries))
      case Some(f) =>
        if f.whole.Some? && f.whole.value.Object? then Ok(Some(entries + [AddType(f.whole.value)]))
        else Err(BadMetadata)
  }

  /** What any two files of a key read as: an error for the first bad line, else for a sidecar that
      is no object; otherwise the values of the transcript and then the tagged metadata. */
  lemma ReadCellMeans(cell: Cell)
    ensures var lines := if cell.transcript.Some? then cell.transcript.value.lines else [];
            var whole := if cell.sidecar.Some? then cell.sidecar.value.whole else None;
            && (Garbage in lines <==> ReadCell(cell).Err? && ReadCell(cell).error.BadLine?)
            && (Garbage !in lines ==>
                  ReadCell(cell) ==
                  if cell.sidecar.None? then Ok(if Values(lines) == [] then None else Some(Values(lines)))
                  else if whole.Some? && whole.value.Object? then Ok(Some(Values(lines) + [AddType(whole.value)]))
                  else Err(BadMetadata))
  {
    if cell.transcript.Some? {
      var lines := cell.transcript.value.lines;
      ParseLinesMeans(lines);
      if Garbage in lines {
        FirstGarbage(lines);
      }
    }
  }

  lemma {:induction false} FirstGarbage(lines: seq<Line>)
    requires Garbage in lines
    ensures exists i :: 0 <= i < |lines| && lines[i].Garbage? && Garbage !in lines[..i]
  {
    var n := |lines| - 1;
    if Garbage in lines[..n] {
      FirstGarbage(lines[..n]);
      var i :| 0 <= i < n && lines[..n][i].Garbage? && Garbage !in lines[..n][..i];
      assert lines[..i] == lines[..n][..i];
    } else {
      assert lines == lines[..n] + [lines[n]];
    }
  }

  /** The cell holds exactly these entries: no file for no entries, otherwise a transcript with
      the kept ones and a sidecar with the metadata. */
  ghost predicate Holds(key: SessionKey, cell: Cell, entries: seq<Value>) {
    && (if Kept(key, entries) == [] then cell.transcript.None? || cell.transcript.value.lines == []
        else cell.transcript.Some? && cell.transcript.value.lines == JsonLines(Kept(key, entries)))
    && match Meta(key, entries)
       case None => cell.sidecar.None?
       case Some(m) => cell.sidecar.Some? && cell.sidecar.value.whole == Some(DropType(m))
  }

  lemma ReadHeld(key: SessionKey, cell: Cell, entries: seq<Value>)
    requires Holds(key, cell, entries)
    ensures ReadCell(cell) == Ok(if entries == [] then None else Some(Arranged(key, entries)))
  {
    var kept := Kept(key, entries);
    ParseJsonLines(kept, 0);
    assert kept[0..] == kept;
    ArrangedTwice(key, entries);
    match Meta(key, entries)
    case None => assert kept + [] == kept;
    case Some(m) => TypeRoundTrip(m);
  }

  function AppendCell(key: SessionKey, cell: Cell, entries: seq<Value>, now: nat): Cell {
    var kept := Kept(key, entries);
    var before := match cell.transcript case None => [] case Some(f) => f.lines;
    Cell(
      if kept == [] then cell.transcript else Some(TextFile(before + JsonLines(kept), now)),
      match Meta(key, entries)
      case None => cell.sidecar
      case Some(m) => Some(TextFile([Json(DropType(m))], now)))
  }

  lemma AppendHolds(key: SessionKey, cell: Cell, all: seq<Value>, entries: seq<Value>, now: nat)
    requires Holds(key, cell, all)
    ensures Holds(key, AppendCell(key, cell, entries, now), all + entries)
  {
    ArrangedAppend(key, all, entries);
    var before, more := Kept(key, all), Kept(key, entries);
    JsonLinesAppend(before, more);
    assert before == [] ==> before + more == more;
    assert more == [] ==> before + more == before;
    assert [] + JsonLines(more) == JsonLines(more);
    if Meta(key, entries).Some? {
      OneJson(DropType(Meta(key, entries).value));
    }
  }

  lemma OneJson(v: Value)
    ensures OneDocument([Json(v)]) == Some(v)
  {
  }

  // ---- The disk ----

  type Root = seq<Component>

  datatype Loc = Loc(root: Root, path: Path)

  type Disk = map<Loc, File>

  function Lookup(d: Disk, l: Loc): Option<File> {
    if l in d then Some(d[l]) else None
  }

  function Put(d: Disk, l: Loc, f: Option<File>): Disk {
    match f case None => d - {l} case Some(file) => d[l := file]
  }

  function CellAt(d: Disk, root: Root, key: SessionKey): Cell
    requires KeyNames(key).Ok?
  {
    Cell(Lookup(d, Loc(root, PathForKey(key).value)),
         match MetadataPathForKey(key) case None => None case Some(path) => Lookup(d, Loc(root, path)))
  }

  function PutCell(d: Disk, root: Root, key: SessionKey, cell: Cell): Disk
    requires KeyNames(key).Ok?
  {
    var d1 := Put(d, Loc(root, PathForKey(key).value), cell.transcript);
    match MetadataPathForKey(key) case None => d1 case Some(path) => Put(d1, Loc(root, path), cell.sidecar)
  }

  lemma LookupPut(d: Disk, l: Loc, f: Option<File>, k: Loc)
    ensures Lookup(Put(d, l, f), k) == if k == l then f else Lookup(d, k)
  {
  }

  predicate SameFiles(a: SessionKey, b: SessionKey)
    requires KeyNames(a).Ok? && KeyNames(b).Ok?
  {
    KeyNames(a) == KeyNames(b)
  }

  /** Writing the files of one key in one root changes the files of that key there, and of no
      other key and no other root. */
  lemma CellAfterPut(d: Disk, root: Root, a: SessionKey, cell: Cell, other: Root, b: SessionKey)
    requires KeyNames(a).Ok? && KeyNames(b).Ok? && (a.subpath.None? ==> cell.sidecar.None?)
    ensures CellAt(PutCell(d, root, a, cell), other, b)
         == if root == other && SameFiles(a, b) then cell else CellAt(d, other, b)
  {
    KeysShareFilesByName(a, b);
    KeysShareFilesByName(b, a);
    KeysShareFilesByName(a, a);
    KeyNamesArePlain(a);
    KeyNamesArePlain(b);
    var t := Loc(root, PathForKey(a).value);
    var d1 := Put(d, t, cell.transcript);
    var here := Loc(other, PathForKey(b).value);
    LookupPut(d, t, cell.transcript, here);
    if a.subpath.Some? {
      var s := Loc(root, MetadataPathForKey(a).value);
      LookupPut(d1, s, cell.sidecar, here);
      if b.subpath.Some? {
        var there := Loc(other, MetadataPathForKey(b).value);
        LookupPut(d, t, cell.transcript, there);
        LookupPut(d1, s, cell.sidecar, there);
      }
    } else if b.subpath.Some? {
      LookupPut(d, t, cell.transcript, Loc(other, MetadataPathForKey(b).value));
    }
  }

  /** Every file strictly below the directory `dir`. */
  predicate Below(path: Path, dir: Path) {
    |path| > |dir| && path[..|dir|] == dir
  }

  function RemoveDir(d: Disk, root: Root, dir: Path): Disk {
    map l | l in d && !(l.root == root && Below(l.path, dir)) :: d[l]
  }

  /** The directory with the subagent transcripts of a session. */
  function SessionDir(key: SessionKey): Path {
    [key.projectKey, key.sessionId]
  }

  predicate IsSubkeyOf(b: SessionKey, key: SessionKey) {
    b.subpath.Some? && SessionDir(b) == SessionDir(key)
  }

  /** Removing a session directory removes the files of its subagents, and of no other key. */
  lemma CellAfterRemoveDir(d: Disk, root: Root, key: SessionKey, other: Root, b: SessionKey)
    requires KeyNames(b).Ok?
    ensures CellAt(RemoveDir(d, root, SessionDir(key)), other, b)
         == if root == other && IsSubkeyOf(b, key) then NOTHING else CellAt(d, other, b)
  {
    KeyNamesArePlain(b);
    var names, dir := KeyNames(b).value, SessionDir(key);
    var path := PathForKey(b).value;
    if b.subpath.Some? {
      assert path[..2] == names[..2] == SessionDir(b);
      assert MetadataPathForKey(b).value[..2] == names[..2];
    }
  }

  // ---- The operations ----

  function AppendOn(d: Disk, root: Root, key: SessionKey, entries: seq<Value>, now: nat): (Result<(), StoreError>, Disk) {
    if entries == [] then (Ok(()), d)
    else
      match KeyNames(key)
      case Err(e) => (Err(BadPath(e)), d)
      case Ok(_) => (Ok(()), PutCell(d, root, key, AppendCell(key, CellAt(d, root, key), entries, now)))
  }

  function DeleteOn(d: Disk, root: Root, key: SessionKey): (Result<bool, StoreError>, Disk) {
    match KeyNames(key)
    case Err(e) => (Err(BadPath(e)), d)
    case Ok(_) =>
      var d1 := PutCell(d, root, key, NOTHING);
      (Ok(true), if key.subpath.Some? then d1 else RemoveDir(d1, root, SessionDir(key)))
  }

  function ReadEntriesAt(d: Disk, root: Root, key: SessionKey): Result<Option<seq<Value>>, StoreError> {
    match KeyNames(key)
    case Err(e) => Err(BadPath(e))
    case Ok(_) => ReadCell(CellAt(d, root, key))
  }

  // ---- Refinement: the disk is a map from keys to the entries appended since the last delete ----

  datatype Op = AppendOp(key: SessionKey, entries: seq<Value>, now: nat) | DeleteOp(key: SessionKey)

  function StepOn(root: Root): (Disk, Op) -> Disk {
    (d: Disk, op: Op) =>
      match op
      case AppendOp(key, entries, now) => AppendOn(d, root, key, entries, now).1
      case DeleteOp(key) => DeleteOn(d, root, key).1
  }

  /** Deleting `key` also deletes `b`: the same files, or a subagent of a deleted session. */
  predicate Covers(key: SessionKey, b: SessionKey) {
    KeyNames(key).Ok? && KeyNames(b).Ok? && (SameFiles(key, b) || (key.subpath.None? && IsSubkeyOf(b, key)))
  }

  /** The entries appended to `b` since the last delete that covers it. */
  function Appended(b: SessionKey, before: seq<Value>, ops: seq<Op>): seq<Value>
    decreases ops
  {
    if ops == [] then before else Appended(b, AfterOp(b, before, ops[0]), ops[1..])
  }

  lemma SameCell(d: Disk, root: Root, a: SessionKey, b: SessionKey, entries: seq<Value>, now: nat)
    requires KeyNames(a).Ok? && KeyNames(b).Ok? && SameFiles(a, b)
    ensures CellAt(d, root, a) == CellAt(d, root, b)
    ensures AppendCell(a, CellAt(d, root, a), entries, now) == AppendCell(b, CellAt(d, root, b), entries, now)
  {
    KeyNamesArePlain(a);
    KeyNamesArePlain(b);
  }

  /** What one operation leaves of the entries of `b`. */
  function AfterOp(b: SessionKey, before: seq<Value>, op: Op): seq<Value> {
    match op
    case AppendOp(key, entries, _) =>
      if KeyNames(key).Ok? && KeyNames(b).Ok? && SameFiles(key, b) then before + entries else before
    case DeleteOp(key) => if Covers(key, b) then [] else before
  }

  lemma AppendOpHolds(d: Disk, root: Root, b: SessionKey, before: seq<Value>, key: SessionKey, entries: seq<Value>, now: nat)
    requires KeyNames(b).Ok? && Holds(b, CellAt(d, root, b), before)
    ensures Holds(b, CellAt(AppendOn(d, root, key, entries, now).1, root, b), AfterOp(b, before, AppendOp(key, entries, now)))
  {
    if entries == [] {
      assert before + entries == before;
    } else if KeyNames(key).Ok? {
      var cell := AppendCell(key, CellAt(d, root, key), entries, now);
      CellAfterPut(d, root, key, cell, root, b);
      if SameFiles(key, b) {
        SameCell(d, root, key, b, entries, now);
        AppendHolds(b, CellAt(d, root, b), before, entries, now);
      }
    }
  }

  lemma DeleteOpHolds(d: Disk, root: Root, b: SessionKey, before: seq<Value>, key: SessionKey)
    requires KeyNames(b).Ok? && Holds(b, CellAt(d, root, b), before)
    ensures Holds(b, CellAt(DeleteOn(d, root, key).1, root, b), AfterOp(b, before, DeleteOp(key)))
  {
    NothingHeld(b);
    if KeyNames(key).Ok? {
      var d1 := PutCell(d, root, key, NOTHING);
      CellAfterPut(d, root, key, NOTHING, root, b);
      CellAfterRemoveDir(d1, root, key, root, b);
    }
  }

  lemma NothingHeld(b: SessionKey)
    ensures Holds(b, NOTHING, [])
  {
  }

  /** The operations keep, key by key, exactly what was appended. */
  lemma {:induction false} HistoryHolds(d: Disk, root: Root, b: SessionKey, before: seq<Value>, ops: seq<Op>)
    requires KeyNames(b).Ok? && Holds(b, CellAt(d, root, b), before)
    ensures Holds(b, CellAt(Exec(StepOn(root), d, ops), root, b), Appended(b, before, ops))
    decreases ops
  {
    if ops != [] {
      match ops[0] {
        case AppendOp(key, entries, now) => AppendOpHolds(d, root, b, before, key, entries, now);
        case DeleteOp(key) => DeleteOpHolds(d, root, b, before, key);
      }
      HistoryHolds(StepOn(root)(d, ops[0]), root, b, AfterOp(b, before, ops[0]), ops[1..]);
    }
  }

  /** After any appends and deletes on a root that starts without files of the key, reading the
      key yields everything appended to it since it was last deleted: in order for a main key,
      and for a subagent the entries that are no metadata followed by the latest metadata.
      Operations on keys with other files do not matter. */
  lemma DiskRefinesHistory(d: Disk, root: Root, b: SessionKey, ops: seq<Op>)
    requires KeyNames(b).Ok? && CellAt(d, root, b) == NOTHING
    ensures var all := Appended(b, [], ops);
            ReadEntriesAt(Exec(StepOn(root), d, ops), root, b) == Ok(if all == [] then None else Some(Arranged(b, all)))
  {
    HistoryHolds(d, root, b, [], ops);
    ReadHeld(b, CellAt(Exec(StepOn(root), d, ops), root, b), Appended(b, [], ops));
  }

  lemma OpElsewhere(d: Disk, root: Root, op: Op, l: Loc)
    requires l.root != root
    ensures Lookup(StepOn(root)(d, op), l) == Lookup(d, l)
  {
    if KeyNames(op.key).Ok? {
      match op
      case AppendOp(key, entries, now) =>
        PutElsewhere(d, root, key, AppendCell(key, CellAt(d, root, key), entries, now), l);
      case DeleteOp(key) =>
        PutElsewhere(d, root, key, NOTHING, l);
    }
  }

  lemma PutElsewhere(d: Disk, root: Root, key: SessionKey, cell: Cell, l: Loc)
    requires KeyNames(key).Ok? && l != Loc(root, PathForKey(key).value)
    requires MetadataPathForKey(key).Some? ==> l != Loc(root, MetadataPathForKey(key).value)
    ensures Lookup(PutCell(d, root, key, cell), l) == Lookup(d, l)
  {
  }

  /** Nothing a store does on its root touches another root. */
  lemma {:induction false} OtherRootsUntouched(d: Disk, root: Root, ops: seq<Op>, l: Loc)
    requires l.root != root
    ensures Lookup(Exec(StepOn(root), d, ops), l) == Lookup(d, l)
    decreases ops
  {
    if ops != [] {
      OpElsewhere(d, root, ops[0], l);
      OtherRootsUntouched(StepOn(root)(d, ops[0]), root, ops[1..], l);
    }
  }
}
