/** Order per session key in the mirror batcher (claude-agent-sdk/src/session_store.rs:1285-1348).

    A drain groups its batches by file, in the order in which the files first appear, so entries of
    one file never change places; but two files can belong to one key. Stated here is exactly when
    the entries of a key keep their order: in one drain, for entries of given and of any lengths,
    and over a whole run, whose flushes and limits decide where its drains fall. */
module MirrorOrder {
  import opened Common
  import opened SessionPaths
  import opened SessionDisk
  import opened MirrorWorker

  /** Which files are looked at; in the end those of one key. */
  type Files = FilePath -> bool

  function FilesOf(root: FilePath, key: SessionKey): Files {
    (p: FilePath) => SessionKeyFromMirrorPath(p, root) == Some(key)
  }

  /** The entries of these files, in the order of the batches. */
  function KeyEntries(batches: seq<Batch>, mine: Files): seq<Value> {
    if batches == [] then []
    else
      var n := |batches| - 1;
      KeyEntries(batches[..n], mine) + (if mine(batches[n].path) then batches[n].entries else [])
  }

  lemma {:induction false} KeyEntriesAppend(a: seq<Batch>, b: seq<Batch>, mine: Files)
    ensures KeyEntries(a + b, mine) == KeyEntries(a, mine) + KeyEntries(b, mine)
  {
    if b == [] {
      assert a + b == a;
    } else {
      var n := |b| - 1;
      KeyEntriesAppend(a, b[..n], mine);
      assert (a + b)[..|a| + n] == a + b[..n] && (a + b)[|a| + n] == b[n];
      Regroup(KeyEntries(a, mine), KeyEntries(b[..n], mine), if mine(b[n].path) then b[n].entries else []);
    }
  }

  lemma KeyEntriesOne(b: Batch, mine: Files)
    ensures KeyEntries([b], mine) == if mine(b.path) then b.entries else []
  {
    assert [b][..0] == [];
  }

  lemma {:induction false} KeyEntriesNone(batches: seq<Batch>, mine: Files)
    requires forall i :: 0 <= i < |batches| && mine(batches[i].path) ==> batches[i].entries == []
    ensures KeyEntries(batches, mine) == []
  {
    if batches != [] {
      var n := |batches| - 1;
      assert forall i :: 0 <= i < n ==> batches[..n][i] == batches[i];
      KeyEntriesNone(batches[..n], mine);
    }
  }

  lemma {:induction false} KeyMember(batches: seq<Batch>, mine: Files, v: Value)
    ensures v in KeyEntries(batches, mine) <==>
            exists i :: 0 <= i < |batches| && mine(batches[i].path) && v in batches[i].entries
  {
    if batches != [] {
      var n := |batches| - 1;
      KeyMember(batches[..n], mine, v);
      assert forall i :: 0 <= i < n ==> batches[..n][i] == batches[i];
    }
  }

  lemma {:induction false} FileMember(batches: seq<Batch>, p: FilePath, v: Value)
    ensures v in EntriesFor(batches, p) <==>
            exists i :: 0 <= i < |batches| && batches[i].path == p && v in batches[i].entries
  {
    if batches != [] {
      var n := |batches| - 1;
      FileMember(batches[..n], p, v);
      assert forall i :: 0 <= i < n ==> batches[..n][i] == batches[i];
    }
  }

  // ---- The order of the groups ----

  ghost predicate HasFile(batches: seq<Batch>, p: FilePath) {
    exists i :: 0 <= i < |batches| && batches[i].path == p
  }

  /** File `p` appears, and `q` has not appeared by then. */
  ghost predicate FirstBefore(batches: seq<Batch>, p: FilePath, q: FilePath) {
    exists i :: 0 <= i < |batches| && batches[i].path == p && forall m :: 0 <= m <= i ==> batches[m].path != q
  }

  lemma FirstBeforeGrows(batches: seq<Batch>, more: seq<Batch>, p: FilePath, q: FilePath)
    requires FirstBefore(batches, p, q)
    ensures FirstBefore(batches + more, p, q)
  {
    var i :| 0 <= i < |batches| && batches[i].path == p && forall m :: 0 <= m <= i ==> batches[m].path != q;
    assert (batches + more)[i].path == p && forall m :: 0 <= m <= i ==> (batches + more)[m] == batches[m];
  }

  lemma FirstBeforeIsOneWay(batches: seq<Batch>, p: FilePath, q: FilePath)
    requires FirstBefore(batches, p, q)
    ensures !FirstBefore(batches, q, p)
  {
  }

  lemma AddBatchPaths(groups: seq<Batch>, b: Batch)
    ensures var t, all := Position(groups, b.path), AddBatch(groups, b);
            && (forall a :: 0 <= a < |groups| ==> all[a].path == groups[a].path)
            && |all| == (if t < |groups| then |groups| else |groups| + 1)
            && (t == |groups| ==> all[t] == b)
  {
  }

  lemma {:induction false} GroupFiles(batches: seq<Batch>, p: FilePath)
    ensures HasFile(Grouped(batches), p) <==> HasFile(batches, p)
  {
    if batches != [] {
      var n := |batches| - 1;
      var groups := Grouped(batches[..n]);
      GroupFiles(batches[..n], p);
      AddBatchPaths(groups, batches[n]);
      assert forall i :: 0 <= i < n ==> batches[..n][i] == batches[i];
      var t := Position(groups, batches[n].path);
      if t < |groups| {
        assert groups[t].path == batches[n].path;
      }
    }
  }

  /** Groups stand in the order in which their files first appear. */
  lemma {:induction false} GroupOrder(batches: seq<Batch>, a: nat, b: nat)
    requires a < b < |Grouped(batches)|
    ensures FirstBefore(batches, Grouped(batches)[a].path, Grouped(batches)[b].path)
  {
    var n := |batches| - 1;
    var front, x := batches[..n], batches[n];
    var groups := Grouped(front);
    assert batches == front + [x];
    AddBatchPaths(groups, x);
    var p := groups[a].path;
    if b < |groups| {
      GroupOrder(front, a, b);
      FirstBeforeGrows(front, [x], p, groups[b].path);
    } else {
      GroupFiles(front, p);
      GroupFiles(front, x.path);
      assert HasFile(groups, p) && !HasFile(groups, x.path);
      var i :| 0 <= i < |front| && front[i].path == p;
      assert batches[i].path == p && forall m :: 0 <= m <= i ==> batches[m] == front[m];
    }
  }

  lemma EntriesOfGroup(groups: seq<Batch>, a: nat)
    requires UniquePaths(groups) && a < |groups|
    ensures EntriesFor(groups, groups[a].path) == groups[a].entries
  {
    var p := groups[a].path;
    var l, r := groups[..a], groups[a + 1..];
    assert groups == (l + [groups[a]]) + r;
    EntriesAround(l, groups[a], r, p);
    EntriesForAbsent(l, p);
    EntriesForAbsent(r, p);
  }

  /** What is in a group comes from a batch of its file. */
  lemma GroupMember(batches: seq<Batch>, a: nat, v: Value)
    requires a < |Grouped(batches)| && v in Grouped(batches)[a].entries
    ensures exists i :: 0 <= i < |batches| && batches[i].path == Grouped(batches)[a].path && v in batches[i].entries
  {
    var p := Grouped(batches)[a].path;
    GroupingKeepsEntries(batches, p);
    EntriesOfGroup(Grouped(batches), a);
    FileMember(batches, p, v);
  }

  // ---- One drain: the order is kept ----

  /** Batch `k` comes after batch `j` of another file of the key, but its file was there first. */
  ghost predicate Inverted(batches: seq<Batch>, mine: Files, j: nat, k: nat)
    requires j < |batches| && k < |batches|
  {
    && j < k && batches[j].entries != [] && batches[k].entries != []
    && mine(batches[j].path) && mine(batches[k].path) && batches[j].path != batches[k].path
    && FirstBefore(batches, batches[k].path, batches[j].path)
  }

  ghost predicate InOrder(batches: seq<Batch>, mine: Files) {
    forall j: nat, k: nat :: j < |batches| && k < |batches| ==> !Inverted(batches, mine, j, k)
  }

  lemma InvertedGrows(batches: seq<Batch>, more: seq<Batch>, mine: Files, j: nat, k: nat)
    requires j < |batches| && k < |batches| && Inverted(batches, mine, j, k)
    ensures Inverted(batches + more, mine, j, k)
  {
    FirstBeforeGrows(batches, more, batches[k].path, batches[j].path);
  }

  lemma InOrderFront(batches: seq<Batch>, mine: Files)
    requires batches != [] && InOrder(batches, mine)
    ensures InOrder(batches[..|batches| - 1], mine)
  {
    var n := |batches| - 1;
    var front := batches[..n];
    assert batches == front + [batches[n]];
    forall j: nat, k: nat | j < |front| && k < |front|
      ensures !Inverted(front, mine, j, k)
    {
      if Inverted(front, mine, j, k) {
        InvertedGrows(front, [batches[n]], mine, j, k);
      }
    }
  }

  /** What the last batch of a key joins, and something of the key behind it, are inverted. */
  lemma BehindIsInverted(front: seq<Batch>, x: Batch, mine: Files, b: nat) returns (j: nat)
    requires mine(x.path) && x.entries != []
    requires Position(Grouped(front), x.path) < b < |Grouped(front)| && mine(Grouped(front)[b].path)
    requires Grouped(front)[b].entries != []
    ensures j < |front| && Inverted(front + [x], mine, j, |front|)
  {
    var groups := Grouped(front);
    GroupMember(front, b, groups[b].entries[0]);
    j :| 0 <= j < |front| && front[j].path == groups[b].path && groups[b].entries[0] in front[j].entries;
    GroupOrder(front, Position(groups, x.path), b);
    FirstBeforeGrows(front, [x], x.path, groups[b].path);
    GroupingKeepsEntries(front, x.path);
  }

  lemma ExtendLast(groups: seq<Batch>, mine: Files, t: nat, more: seq<Value>)
    requires t < |groups| && mine(groups[t].path)
    requires forall b :: t < b < |groups| && mine(groups[b].path) ==> groups[b].entries == []
    ensures KeyEntries(groups[t := Batch(groups[t].path, groups[t].entries + more)], mine) == KeyEntries(groups, mine) + more
  {
    var l, r := groups[..t], groups[t + 1..];
    var g := Batch(groups[t].path, groups[t].entries + more);
    assert groups == (l + [groups[t]]) + r && groups[t := g] == (l + [g]) + r;
    assert forall i :: 0 <= i < |r| ==> r[i] == groups[t + 1 + i];
    KeyEntriesNone(r, mine);
    KeyEntriesAround(l, groups[t], r, mine);
    KeyEntriesAround(l, g, r, mine);
    Regroup(KeyEntries(l, mine), groups[t].entries, more);
  }

  lemma ExtendOther(groups: seq<Batch>, mine: Files, t: nat, more: seq<Value>)
    requires t < |groups| && (mine(groups[t].path) ==> more == [])
    ensures KeyEntries(groups[t := Batch(groups[t].path, groups[t].entries + more)], mine) == KeyEntries(groups, mine)
  {
    var l, r := groups[..t], groups[t + 1..];
    var g := Batch(groups[t].path, groups[t].entries + more);
    assert groups == (l + [groups[t]]) + r && groups[t := g] == (l + [g]) + r;
    assert more == [] ==> groups[t].entries + more == groups[t].entries;
    KeyEntriesAround(l, groups[t], r, mine);
    KeyEntriesAround(l, g, r, mine);
  }

  lemma KeyEntriesAround(l: seq<Batch>, g: Batch, r: seq<Batch>, mine: Files)
    ensures KeyEntries((l + [g]) + r, mine)
         == (KeyEntries(l, mine) + (if mine(g.path) then g.entries else [])) + KeyEntries(r, mine)
  {
    KeyEntriesAppend(l + [g], r, mine);
    KeyEntriesAppend(l, [g], mine);
    KeyEntriesOne(g, mine);
  }

  /** A batch whose file has a group already. */
  lemma NextIsKept(batches: seq<Batch>, mine: Files)
    requires batches != [] && InOrder(batches, mine)
    requires Position(Grouped(batches[..|batches| - 1]), batches[|batches| - 1].path) < |Grouped(batches[..|batches| - 1])|
    ensures var x := batches[|batches| - 1];
            KeyEntries(Grouped(batches), mine)
            == KeyEntries(Grouped(batches[..|batches| - 1]), mine) + (if mine(x.path) then x.entries else [])
  {
    var front, x := batches[..|batches| - 1], batches[|batches| - 1];
    var groups := Grouped(front);
    var t := Position(groups, x.path);
    assert batches == front + [x];
    if mine(x.path) && x.entries != [] {
      forall b | t < b < |groups| && mine(groups[b].path)
        ensures groups[b].entries == []
      {
        if groups[b].entries != [] {
          var j := BehindIsInverted(front, x, mine, b);
        }
      }
      ExtendLast(groups, mine, t, x.entries);
    } else {
      ExtendOther(groups, mine, t, x.entries);
      assert KeyEntries(groups, mine) + [] == KeyEntries(groups, mine);
    }
  }

  lemma {:induction false} InOrderIsKept(batches: seq<Batch>, mine: Files)
    requires InOrder(batches, mine)
    ensures KeyEntries(Grouped(batches), mine) == KeyEntries(batches, mine)
  {
    if batches != [] {
      var n := |batches| - 1;
      var x, groups := batches[n], Grouped(batches[..n]);
      InOrderFront(batches, mine);
      InOrderIsKept(batches[..n], mine);
      var t := Position(groups, x.path);
      if t == |groups| {
        KeyEntriesAppend(groups, [x], mine);
        KeyEntriesOne(x, mine);
      } else {
        NextIsKept(batches, mine);
      }
    }
  }

  // ---- One drain: the order is lost ----

  /** Grouping keeps the entries of the key in order. */
  ghost predicate Kept(batches: seq<Batch>, mine: Files) {
    KeyEntries(Grouped(batches), mine) == KeyEntries(batches, mine)
  }

  /** Of these batches `y` is exactly in `j` and `z` exactly in `k`. */
  ghost predicate Marked(batches: seq<Batch>, j: nat, k: nat, y: Value, z: Value)
    requires j < |batches| && k < |batches|
  {
    && y in batches[j].entries && z in batches[k].entries && y !in batches[k].entries && z !in batches[j].entries
    && forall i :: 0 <= i < |batches| && i != j && i != k ==> y !in batches[i].entries && z !in batches[i].entries
  }

  /** In what was read, a `y` comes before a `z`. */
  lemma MarkedAsRead(batches: seq<Batch>, mine: Files, j: nat, k: nat, y: Value, z: Value) returns (u: nat, v: nat)
    requires j < k < |batches| && mine(batches[j].path) && mine(batches[k].path) && Marked(batches, j, k, y, z)
    ensures u < v < |KeyEntries(batches, mine)|
    ensures KeyEntries(batches, mine)[u] == y && KeyEntries(batches, mine)[v] == z
  {
    var l, r := batches[..k], batches[k..];
    assert batches == l + r;
    KeyEntriesAppend(l, r, mine);
    KeyMember(l, mine, y);
    KeyMember(r, mine, z);
    assert l[j] == batches[j] && r[0] == batches[k];
    u :| 0 <= u < |KeyEntries(l, mine)| && KeyEntries(l, mine)[u] == y;
    var w: nat :| w < |KeyEntries(r, mine)| && KeyEntries(r, mine)[w] == z;
    v := |KeyEntries(l, mine)| + w;
  }

  lemma GroupsStand(batches: seq<Batch>, p: FilePath, q: FilePath) returns (a: nat, b: nat)
    requires HasFile(batches, p) && HasFile(batches, q) && FirstBefore(batches, p, q)
    ensures a < b < |Grouped(batches)| && Grouped(batches)[a].path == p && Grouped(batches)[b].path == q
  {
    var groups := Grouped(batches);
    GroupFiles(batches, p);
    GroupFiles(batches, q);
    a :| 0 <= a < |groups| && groups[a].path == p;
    b :| 0 <= b < |groups| && groups[b].path == q;
    FirstBeforeIsOneWay(batches, p, q);
    if b < a {
      GroupOrder(batches, b, a);
    }
  }

  lemma BeforeAndBehind(l: seq<Value>, r: seq<Value>, y: Value, z: Value, u: nat, v: nat)
    requires y !in l && z !in r && u < |l + r| && v < |l + r| && (l + r)[u] == y && (l + r)[v] == z
    ensures v < u
  {
  }

  /** In what is handed over, every `z` comes before every `y`. */
  lemma MarkedAsGrouped(batches: seq<Batch>, mine: Files, j: nat, k: nat, y: Value, z: Value, u: nat, v: nat)
    requires j < |batches| && k < |batches| && Inverted(batches, mine, j, k) && Marked(batches, j, k, y, z)
    requires var s := KeyEntries(Grouped(batches), mine); u < |s| && v < |s| && s[u] == y && s[v] == z
    ensures v < u
  {
    var groups := Grouped(batches);
    assert HasFile(batches, batches[k].path) && HasFile(batches, batches[j].path);
    var a, b := GroupsStand(batches, batches[k].path, batches[j].path);
    GroupingKeepsEntries(batches, batches[k].path);
    NotAmong(batches, mine, 0, b, y, j);
    NotAmong(batches, mine, b, |groups|, z, k);
    var l, r := groups[0..b], groups[b..|groups|];
    assert groups == l + r;
    KeyEntriesAppend(l, r, mine);
    BeforeAndBehind(KeyEntries(l, mine), KeyEntries(r, mine), y, z, u, v);
  }

  /** A value of one batch only is in no group but that of its file. */
  lemma NotAmong(batches: seq<Batch>, mine: Files, from: nat, to: nat, v: Value, only: nat)
    requires from <= to <= |Grouped(batches)| && only < |batches|
    requires forall i :: 0 <= i < |batches| && v in batches[i].entries ==> i == only
    requires forall a :: from <= a < to ==> Grouped(batches)[a].path != batches[only].path
    ensures v !in KeyEntries(Grouped(batches)[from..to], mine)
  {
    var groups := Grouped(batches);
    KeyMember(groups[from..to], mine, v);
    if i :| 0 <= i < to - from && v in groups[from..to][i].entries {
      GroupMember(batches, from + i, v);
    }
  }

  lemma InvertedLosesOrder(batches: seq<Batch>, mine: Files, j: nat, k: nat, y: Value, z: Value)
    requires j < |batches| && k < |batches| && Inverted(batches, mine, j, k) && Marked(batches, j, k, y, z)
    ensures KeyEntries(Grouped(batches), mine) != KeyEntries(batches, mine)
  {
    var u, v := MarkedAsRead(batches, mine, j, k, y, z);
    if KeyEntries(Grouped(batches), mine) == KeyEntries(batches, mine) {
      MarkedAsGrouped(batches, mine, j, k, y, z, u, v);
    }
  }

  // ---- One drain, exactly ----

  /** The same files with as many entries each. */
  ghost predicate SameShape(a: seq<Batch>, b: seq<Batch>) {
    |a| == |b| && forall i :: 0 <= i < |a| ==> a[i].path == b[i].path && |a[i].entries| == |b[i].entries|
  }

  lemma InvertedByShape(a: seq<Batch>, b: seq<Batch>, mine: Files, j: nat, k: nat)
    requires SameShape(a, b) && j < |b| && k < |b| && Inverted(b, mine, j, k)
    ensures Inverted(a, mine, j, k)
  {
    SameFirst(b, a, b[k].path, b[j].path);
  }

  lemma ShapeDecides(a: seq<Batch>, b: seq<Batch>, mine: Files)
    requires SameShape(a, b) && InOrder(a, mine)
    ensures InOrder(b, mine)
  {
    forall j: nat, k: nat | j < |b| && k < |b|
      ensures !Inverted(b, mine, j, k)
    {
      if Inverted(b, mine, j, k) {
        InvertedByShape(a, b, mine, j, k);
      }
    }
  }

  lemma SameFirst(a: seq<Batch>, b: seq<Batch>, p: FilePath, q: FilePath)
    requires |a| == |b| && forall i :: 0 <= i < |a| ==> a[i].path == b[i].path
    requires FirstBefore(a, p, q)
    ensures FirstBefore(b, p, q)
  {
    var i :| 0 <= i < |a| && a[i].path == p && forall m :: 0 <= m <= i ==> a[m].path != q;
    assert b[i].path == p && forall m :: 0 <= m <= i ==> b[m].path != q;
  }

  const Y := Other(1)
  const Z := Other(2)

  /** What marks the entries of batch number `i`. */
  function Mark(i: nat, j: nat, k: nat): Value {
    if i == j then Y else if i == k then Z else Other(0)
  }

  /** `b` is `a`, numbered from `from` on, with entries that tell `j` and `k` from the rest. */
  ghost predicate Tells(a: seq<Batch>, b: seq<Batch>, from: nat, j: nat, k: nat) {
    SameShape(a, b) && forall i, v :: 0 <= i < |b| && v in b[i].entries ==> v == Mark(from + i, j, k)
  }

  lemma SomeTells(batches: seq<Batch>, j: nat, k: nat) returns (bs: seq<Batch>)
    ensures Tells(batches, bs, 0, j, k)
  {
    bs := seq(|batches|, i requires 0 <= i < |batches| =>
      Batch(batches[i].path, seq(|batches[i].entries|, _ => Mark(i, j, k))));
  }

  lemma TellsMarks(a: seq<Batch>, b: seq<Batch>, from: nat, j: nat, k: nat)
    requires Tells(a, b, from, from + j, from + k) && j != k && j < |a| && k < |a|
    requires a[j].entries != [] && a[k].entries != []
    ensures Marked(b, j, k, Y, Z)
  {
    assert b[j].entries[0] in b[j].entries && b[k].entries[0] in b[k].entries;
  }

  lemma TellsLoses(a: seq<Batch>, b: seq<Batch>, mine: Files, from: nat, j: nat, k: nat)
    requires Tells(a, b, from, from + j, from + k) && j < |a| && k < |a| && Inverted(a, mine, j, k)
    ensures !Kept(b, mine)
  {
    TellsMarks(a, b, from, j, k);
    InvertedByShape(b, a, mine, j, k);
    InvertedLosesOrder(b, mine, j, k, Y, Z);
  }

  lemma NotInOrderLoses(batches: seq<Batch>, mine: Files, j: nat, k: nat) returns (bs: seq<Batch>)
    requires j < |batches| && k < |batches| && Inverted(batches, mine, j, k)
    ensures SameShape(batches, bs) && !Kept(bs, mine)
  {
    bs := SomeTells(batches, j, k);
    TellsLoses(batches, bs, mine, 0, j, k);
  }

  /** Whatever the entries are, as long as there are as many of them: in one drain the entries of
      a key keep their order if and only if no batch of the key comes after one of another file
      that appeared later than its own. */
  lemma DrainKeepsKeyOrder(batches: seq<Batch>, mine: Files)
    ensures (forall bs :: SameShape(batches, bs) ==> KeyEntries(Grouped(bs), mine) == KeyEntries(bs, mine))
            <==> InOrder(batches, mine)
  {
    if InOrder(batches, mine) {
      forall bs | SameShape(batches, bs)
        ensures KeyEntries(Grouped(bs), mine) == KeyEntries(bs, mine)
      {
        ShapeDecides(batches, bs, mine);
        InOrderIsKept(bs, mine);
      }
    } else {
      var j: nat, k: nat :| j < |batches| && k < |batches| && Inverted(batches, mine, j, k);
      var bs := NotInOrderLoses(batches, mine, j, k);
    }
  }

  /** The same files, in the same order. */
  ghost predicate SameFiles(a: seq<Batch>, b: seq<Batch>) {
    |a| == |b| && forall i :: 0 <= i < |a| ==> a[i].path == b[i].path
  }

  /** Two batches of one file of the key with one of another file of the key in between. */
  ghost predicate Interrupted(batches: seq<Batch>, mine: Files, i: nat, j: nat, k: nat)
    requires i < |batches| && j < |batches| && k < |batches|
  {
    i < j < k && batches[i].path == batches[k].path != batches[j].path && mine(batches[i].path) && mine(batches[j].path)
  }

  ghost predicate NoneInterrupted(batches: seq<Batch>, mine: Files) {
    forall i: nat, j: nat, k: nat :: i < |batches| && j < |batches| && k < |batches| ==> !Interrupted(batches, mine, i, j, k)
  }

  lemma InvertedIsInterrupted(batches: seq<Batch>, mine: Files, j: nat, k: nat) returns (i: nat)
    requires j < |batches| && k < |batches| && Inverted(batches, mine, j, k)
    ensures i < |batches| && Interrupted(batches, mine, i, j, k)
  {
    i :| i < |batches| && batches[i].path == batches[k].path
         && forall m :: 0 <= m <= i ==> batches[m].path != batches[j].path;
  }

  lemma NoneInterruptedIsInOrder(batches: seq<Batch>, mine: Files)
    requires NoneInterrupted(batches, mine)
    ensures InOrder(batches, mine)
  {
    forall j: nat, k: nat | j < |batches| && k < |batches|
      ensures !Inverted(batches, mine, j, k)
    {
      if Inverted(batches, mine, j, k) {
        var i := InvertedIsInterrupted(batches, mine, j, k);
      }
    }
  }

  /** Where the first of two files appears. */
  function FirstOf(batches: seq<Batch>, p: FilePath, q: FilePath): (i: nat)
    ensures i <= |batches|
    ensures i < |batches| ==> batches[i].path == p || batches[i].path == q
    ensures forall m :: 0 <= m < i ==> batches[m].path != p && batches[m].path != q
  {
    if batches == [] || batches[0].path == p || batches[0].path == q then 0 else 1 + FirstOf(batches[1..], p, q)
  }

  lemma OneIsFirst(batches: seq<Batch>, p: FilePath, q: FilePath)
    requires p != q && HasFile(batches, p)
    ensures FirstBefore(batches, p, q) || FirstBefore(batches, q, p)
  {
    var i := FirstOf(batches, p, q);
    assert i < |batches|;
    if batches[i].path == p {
      assert forall m :: 0 <= m <= i ==> batches[m].path != q;
    } else {
      assert forall m :: 0 <= m <= i ==> batches[m].path != p;
    }
  }

  /** The same files with one entry each. */
  function Filled(batches: seq<Batch>): seq<Batch> {
    seq(|batches|, i requires 0 <= i < |batches| => Batch(batches[i].path, [Other(0)]))
  }

  /** Whichever of the two files appeared first, full batches are inverted. */
  lemma InterruptedIsInverted(batches: seq<Batch>, mine: Files, i: nat, j: nat, k: nat)
    requires i < |batches| && j < |batches| && k < |batches| && Interrupted(batches, mine, i, j, k)
    ensures !InOrder(Filled(batches), mine)
  {
    var full, p, q := Filled(batches), batches[i].path, batches[j].path;
    assert full[i].path == p && full[j].path == q && full[k].path == p;
    OneIsFirst(full, p, q);
    assert Inverted(full, mine, j, k) || Inverted(full, mine, i, j);
  }

  /** However many entries the batches have: in one drain a key keeps its order for all of them if
      and only if no two batches of one of its files have one of another in between. */
  lemma FilesKeepKeyOrder(batches: seq<Batch>, mine: Files)
    ensures (forall bs :: SameFiles(batches, bs) ==> KeyEntries(Grouped(bs), mine) == KeyEntries(bs, mine))
            <==> NoneInterrupted(batches, mine)
  {
    if NoneInterrupted(batches, mine) {
      forall bs | SameFiles(batches, bs)
        ensures KeyEntries(Grouped(bs), mine) == KeyEntries(bs, mine)
      {
        assert forall i: nat, j: nat, k: nat | i < |bs| && j < |bs| && k < |bs| ::
            Interrupted(bs, mine, i, j, k) ==> Interrupted(batches, mine, i, j, k);
        NoneInterruptedIsInOrder(bs, mine);
        InOrderIsKept(bs, mine);
      }
    } else {
      var i: nat, j: nat, k: nat :|
        i < |batches| && j < |batches| && k < |batches| && Interrupted(batches, mine, i, j, k);
      InterruptedIsInverted(batches, mine, i, j, k);
      DrainKeepsKeyOrder(Filled(batches), mine);
      var bs :| SameShape(Filled(batches), bs) && KeyEntries(Grouped(bs), mine) != KeyEntries(bs, mine);
      assert SameFiles(batches, bs);
    }
  }

  // ---- Whole runs ----

  /** What the handling of a command drains, if it drains. */
  function DrainOf(c: Config, w: Worker, command: Command): seq<seq<Batch>> {
    match command
    case Enqueue(f) => if OverLimit(c, Pushed(w, f)) then [FrameBatches(Pushed(w, f).frames)] else []
    case _ => [FrameBatches(w.frames)]
  }

  /** The batches of every drain; the flushes and the two limits decide where they end. */
  function Drains(c: Config, w: Worker, commands: seq<Command>): seq<seq<Batch>>
    decreases commands
  {
    if commands == [] then []
    else DrainOf(c, w, commands[0]) + Drains(c, MirrorWorker.Step(c)(w, commands[0]), commands[1..])
  }

  function Flat(drains: seq<seq<Batch>>): seq<Batch> {
    if drains == [] then [] else drains[0] + Flat(drains[1..])
  }

  function GroupedAll(drains: seq<seq<Batch>>): seq<Batch> {
    if drains == [] then [] else Grouped(drains[0]) + GroupedAll(drains[1..])
  }

  lemma {:induction false} FlatAppend(a: seq<seq<Batch>>, b: seq<seq<Batch>>)
    ensures Flat(a + b) == Flat(a) + Flat(b) && GroupedAll(a + b) == GroupedAll(a) + GroupedAll(b)
  {
    if a == [] {
      assert a + b == b;
    } else {
      assert (a + b)[0] == a[0] && (a + b)[1..] == a[1..] + b;
      FlatAppend(a[1..], b);
    }
  }

  lemma FlatOne(d: seq<Batch>)
    ensures Flat([d]) == d && GroupedAll([d]) == Grouped(d)
  {
    assert [d][1..] == [] && d + [] == d && Grouped(d) + [] == Grouped(d);
  }

  lemma DrainedBatches(c: Config, w: Worker)
    ensures var t, d := Drained(c, w), FrameBatches(w.frames);
            && EventBatches(t.log) == EventBatches(w.log) + GroupedAll([d])
            && d == Flat([d]) + FrameBatches(t.frames)
  {
    HandedAllBatches(c, Taken(w), Grouped(FrameBatches(w.frames)));
    FlatOne(FrameBatches(w.frames));
    assert FrameBatches(w.frames) + [] == FrameBatches(w.frames);
  }

  lemma PushedBatches(w: Worker, f: Frame)
    ensures FrameBatches(Pushed(w, f).frames) == FrameBatches(w.frames) + [f.batch] && Pushed(w, f).log == w.log
  {
    assert Pushed(w, f).frames[..|w.frames|] == w.frames;
  }

  lemma OneCommand(c: Config, w: Worker, command: Command)
    ensures var t, ds := MirrorWorker.Step(c)(w, command), DrainOf(c, w, command);
            && EventBatches(t.log) == EventBatches(w.log) + GroupedAll(ds)
            && FrameBatches(w.frames) + BatchOf(command) == Flat(ds) + FrameBatches(t.frames)
  {
    match command
    case Enqueue(f) =>
      PushedBatches(w, f);
      DrainedBatches(c, Pushed(w, f));
      assert EventBatches(w.log) + [] == EventBatches(w.log);
      assert [] + FrameBatches(Pushed(w, f).frames) == FrameBatches(Pushed(w, f).frames);
    case _ =>
      DrainedBatches(c, w);
      assert FrameBatches(w.frames) + [] == FrameBatches(w.frames);
  }

  /** A run hands over the groups of its drains, and the drains are what was enqueued, cut up. */
  lemma {:induction false} RunOfDrains(c: Config, w: Worker, commands: seq<Command>)
    ensures var t, ds := Exec(MirrorWorker.Step(c), w, commands), Drains(c, w, commands);
            && EventBatches(t.log) == EventBatches(w.log) + GroupedAll(ds)
            && FrameBatches(w.frames) + Enqueued(commands) == Flat(ds) + FrameBatches(t.frames)
    decreases commands
  {
    if commands == [] {
      assert EventBatches(w.log) + [] == EventBatches(w.log);
    } else {
      var next, rest := MirrorWorker.Step(c)(w, commands[0]), commands[1..];
      var first, later := DrainOf(c, w, commands[0]), Drains(c, next, rest);
      OneCommand(c, w, commands[0]);
      RunOfDrains(c, next, rest);
      FlatAppend(first, later);
      Regroup(EventBatches(w.log), GroupedAll(first), GroupedAll(later));
      Regroup(FrameBatches(w.frames), BatchOf(commands[0]), Enqueued(rest));
      Regroup(Flat(first), FrameBatches(next.frames), Enqueued(rest));
      Regroup(Flat(first), Flat(later), FrameBatches(Exec(MirrorWorker.Step(c), next, rest).frames));
    }
  }

  lemma ExtendedCount(groups: seq<Batch>, mine: Files, t: nat, more: seq<Value>)
    requires t < |groups|
    ensures var g := Batch(groups[t].path, groups[t].entries + more);
            |KeyEntries(groups[t := g], mine)| == |KeyEntries(groups, mine)| + (if mine(g.path) then |more| else 0)
  {
    var l, r := groups[..t], groups[t + 1..];
    var g := Batch(groups[t].path, groups[t].entries + more);
    assert groups == (l + [groups[t]]) + r && groups[t := g] == (l + [g]) + r;
    KeyEntriesAround(l, groups[t], r, mine);
    KeyEntriesAround(l, g, r, mine);
  }

  lemma {:induction false} KeyCount(batches: seq<Batch>, mine: Files)
    ensures |KeyEntries(Grouped(batches), mine)| == |KeyEntries(batches, mine)|
  {
    if batches != [] {
      var n := |batches| - 1;
      var groups, x := Grouped(batches[..n]), batches[n];
      KeyCount(batches[..n], mine);
      var t := Position(groups, x.path);
      if t == |groups| {
        KeyEntriesAppend(groups, [x], mine);
        KeyEntriesOne(x, mine);
      } else {
        ExtendedCount(groups, mine, t, x.entries);
      }
    }
  }

  /** All drains together keep the order exactly when each of them does. */
  lemma {:induction false} AllKept(drains: seq<seq<Batch>>, mine: Files)
    ensures |KeyEntries(GroupedAll(drains), mine)| == |KeyEntries(Flat(drains), mine)|
    ensures KeyEntries(GroupedAll(drains), mine) == KeyEntries(Flat(drains), mine)
            <==> forall i :: 0 <= i < |drains| ==> Kept(drains[i], mine)
  {
    if drains != [] {
      var d, rest := drains[0], drains[1..];
      KeyCount(d, mine);
      AllKept(rest, mine);
      KeyEntriesAppend(Grouped(d), GroupedAll(rest), mine);
      KeyEntriesAppend(d, Flat(rest), mine);
      SameHalves(KeyEntries(Grouped(d), mine), KeyEntries(GroupedAll(rest), mine), KeyEntries(d, mine), KeyEntries(Flat(rest), mine));
      assert forall i :: 0 <= i < |rest| ==> rest[i] == drains[i + 1];
    }
  }

  lemma SameHalves(a: seq<Value>, b: seq<Value>, c: seq<Value>, d: seq<Value>)
    requires |a| == |c|
    ensures a + b == c + d <==> a == c && b == d
  {
    assert (a + b)[..|a|] == a && (a + b)[|a|..] == b && (c + d)[..|c|] == c && (c + d)[|c|..] == d;
  }

  predicate EndsInFlush(commands: seq<Command>) {
    commands != [] && !commands[|commands| - 1].Enqueue?
  }

  lemma FlushedRun(c: Config, commands: seq<Command>)
    requires EndsInFlush(commands)
    ensures Enqueued(commands) == Flat(Drains(c, IDLE, commands))
    ensures EventBatches(Exec(MirrorWorker.Step(c), IDLE, commands).log) == GroupedAll(Drains(c, IDLE, commands))
  {
    RunOfDrains(c, IDLE, commands);
    FlushHandsOverEverything(c, commands, []);
    var ds := Drains(c, IDLE, commands);
    assert [] + Enqueued(commands) == Enqueued(commands) && Flat(ds) + [] == Flat(ds);
    assert [] + GroupedAll(ds) == GroupedAll(ds);
  }

  /** The run handed over the entries of a key in the order in which they were enqueued. */
  ghost predicate RunKeeps(c: Config, commands: seq<Command>, mine: Files) {
    KeyEntries(EventBatches(Exec(MirrorWorker.Step(c), IDLE, commands).log), mine) == KeyEntries(Enqueued(commands), mine)
  }

  /** A run keeps the order of a key exactly when each of its drains does. */
  lemma RunKeepsWhatDrainsKeep(c: Config, commands: seq<Command>, mine: Files)
    requires EndsInFlush(commands)
    ensures RunKeeps(c, commands, mine)
            <==> forall i :: 0 <= i < |Drains(c, IDLE, commands)| ==> Kept(Drains(c, IDLE, commands)[i], mine)
  {
    FlushedRun(c, commands);
    AllKept(Drains(c, IDLE, commands), mine);
  }

  // ---- Runs with other entries ----

  /** The same commands but for what the entries are: as many, with the same weights. */
  ghost predicate SameCommand(a: Command, b: Command) {
    if a.Enqueue? then
      b.Enqueue? && a.frame.bytes == b.frame.bytes && a.frame.batch.path == b.frame.batch.path
      && |a.frame.batch.entries| == |b.frame.batch.entries|
    else a == b
  }

  ghost predicate SameCommands(a: seq<Command>, b: seq<Command>) {
    |a| == |b| && forall i :: 0 <= i < |a| ==> SameCommand(a[i], b[i])
  }

  /** Two workers with the same files and weights pending. */
  ghost predicate Alike(v: Worker, w: Worker) {
    SameShape(FrameBatches(v.frames), FrameBatches(w.frames)) && v.entries == w.entries && v.bytes == w.bytes
  }

  ghost predicate SameDrains(a: seq<seq<Batch>>, b: seq<seq<Batch>>) {
    |a| == |b| && forall i :: 0 <= i < |a| ==> SameShape(a[i], b[i])
  }

  lemma AlikePush(v: Worker, w: Worker, f: Frame, g: Frame)
    requires Alike(v, w) && SameCommand(Enqueue(f), Enqueue(g))
    ensures Alike(Pushed(v, f), Pushed(w, g))
  {
    assert Pushed(v, f).frames[..|v.frames|] == v.frames && Pushed(w, g).frames[..|w.frames|] == w.frames;
  }

  lemma AlikeStep(c: Config, v: Worker, w: Worker, a: Command, b: Command)
    requires Alike(v, w) && SameCommand(a, b)
    ensures Alike(MirrorWorker.Step(c)(v, a), MirrorWorker.Step(c)(w, b))
    ensures SameDrains(DrainOf(c, v, a), DrainOf(c, w, b))
  {
    match a
    case Enqueue(f) =>
      AlikePush(v, w, f, b.frame);
      DrainLeaves(c, Pushed(v, f));
      DrainLeaves(c, Pushed(w, b.frame));
    case _ =>
      DrainLeaves(c, v);
      DrainLeaves(c, w);
  }

  lemma DrainLeaves(c: Config, w: Worker)
    ensures var t := Drained(c, w); t.frames == [] && t.entries == 0 && t.bytes == 0
  {
    HandedAllBatches(c, Taken(w), Grouped(FrameBatches(w.frames)));
  }

  lemma {:induction false} SameCommandsDrain(c: Config, v: Worker, w: Worker, a: seq<Command>, b: seq<Command>)
    requires Alike(v, w) && SameCommands(a, b)
    ensures SameDrains(Drains(c, v, a), Drains(c, w, b))
    decreases a
  {
    if a != [] {
      assert SameCommand(a[0], b[0]);
      AlikeStep(c, v, w, a[0], b[0]);
      assert forall i :: 0 <= i < |a[1..]| ==> a[1..][i] == a[i + 1] && b[1..][i] == b[i + 1];
      SameCommandsDrain(c, MirrorWorker.Step(c)(v, a[0]), MirrorWorker.Step(c)(w, b[0]), a[1..], b[1..]);
    }
  }

  /** The commands with the entries of the `j`th and `k`th frame told from the rest. */
  function Relabeled(commands: seq<Command>, from: nat, j: nat, k: nat): seq<Command> {
    if commands == [] then []
    else
      match commands[0]
      case Enqueue(f) =>
        var entries := seq(|f.batch.entries|, _ => Mark(from, j, k));
        [Enqueue(Frame(Batch(f.batch.path, entries), f.bytes))] + Relabeled(commands[1..], from + 1, j, k)
      case _ => [commands[0]] + Relabeled(commands[1..], from, j, k)
  }

  lemma RelabeledHead(commands: seq<Command>, from: nat, j: nat, k: nat)
    requires commands != []
    ensures var next := if commands[0].Enqueue? then from + 1 else from;
            var all := Relabeled(commands, from, j, k);
            && all != [] && all[1..] == Relabeled(commands[1..], next, j, k)
            && SameCommand(commands[0], all[0])
            && Tells(BatchOf(commands[0]), BatchOf(all[0]), from, j, k)
  {
    var all := Relabeled(commands, from, j, k);
    match commands[0]
    case Enqueue(f) =>
      var entries := seq(|f.batch.entries|, _ => Mark(from, j, k));
      assert all[0] == Enqueue(Frame(Batch(f.batch.path, entries), f.bytes));
    case _ => assert BatchOf(all[0]) == [];
  }

  lemma TellsAppend(a: seq<Batch>, b: seq<Batch>, x: seq<Batch>, y: seq<Batch>, from: nat, j: nat, k: nat)
    requires Tells(a, x, from, j, k) && Tells(b, y, from + |a|, j, k)
    ensures Tells(a + b, x + y, from, j, k)
  {
  }

  lemma {:induction false} RelabeledIsSame(commands: seq<Command>, from: nat, j: nat, k: nat)
    ensures SameCommands(commands, Relabeled(commands, from, j, k))
    ensures Tells(Enqueued(commands), Enqueued(Relabeled(commands, from, j, k)), from, j, k)
    decreases commands
  {
    if commands != [] {
      var next := if commands[0].Enqueue? then from + 1 else from;
      var all := Relabeled(commands, from, j, k);
      RelabeledHead(commands, from, j, k);
      RelabeledIsSame(commands[1..], next, j, k);
      TellsAppend(BatchOf(commands[0]), Enqueued(commands[1..]), BatchOf(all[0]), Enqueued(all[1..]), from, j, k);
      forall i | 0 <= i < |commands|
        ensures SameCommand(commands[i], all[i])
      {
        if i > 0 {
          assert commands[i] == commands[1..][i - 1] && all[i] == all[1..][i - 1];
        }
      }
    }
  }

  lemma {:induction false} SameDrainsFlat(a: seq<seq<Batch>>, b: seq<seq<Batch>>, t: nat)
    requires SameDrains(a, b) && t <= |a|
    ensures |Flat(a[..t])| == |Flat(b[..t])|
  {
    if t > 0 {
      SameDrainsFlat(a, b, t - 1);
      assert a[..t] == a[..t - 1] + [a[t - 1]] && b[..t] == b[..t - 1] + [b[t - 1]];
      FlatAppend(a[..t - 1], [a[t - 1]]);
      FlatAppend(b[..t - 1], [b[t - 1]]);
      FlatOne(a[t - 1]);
      FlatOne(b[t - 1]);
    }
  }

  lemma FlatAt(drains: seq<seq<Batch>>, t: nat)
    requires t < |drains|
    ensures var from := |Flat(drains[..t])|;
            from + |drains[t]| <= |Flat(drains)| && Flat(drains)[from..from + |drains[t]|] == drains[t]
  {
    var l, r := drains[..t], drains[t..];
    assert drains == l + r && r[0] == drains[t];
    FlatAppend(l, r);
  }

  lemma RelabeledRun(c: Config, commands: seq<Command>, j: nat, k: nat) returns (cs: seq<Command>)
    requires EndsInFlush(commands)
    ensures SameCommands(commands, cs) && EndsInFlush(cs)
    ensures SameDrains(Drains(c, IDLE, commands), Drains(c, IDLE, cs))
    ensures Tells(Flat(Drains(c, IDLE, commands)), Flat(Drains(c, IDLE, cs)), 0, j, k)
  {
    cs := Relabeled(commands, 0, j, k);
    RelabeledIsSame(commands, 0, j, k);
    assert SameCommand(commands[|commands| - 1], cs[|commands| - 1]);
    SameCommandsDrain(c, IDLE, IDLE, commands, cs);
    FlushedRun(c, commands);
    FlushedRun(c, cs);
  }

  lemma TellsPart(a: seq<Batch>, b: seq<Batch>, from: nat, to: nat, j: nat, k: nat)
    requires from <= to <= |a| && Tells(a, b, 0, j, k)
    ensures Tells(a[from..to], b[from..to], from, j, k)
  {
    var part := b[from..to];
    forall i, v | 0 <= i < |part| && v in part[i].entries
      ensures v == Mark(from + i, j, k)
    {
      assert part[i] == b[from + i];
    }
  }

  /** With other entries, a drain is the same part of the frames that it was before. */
  lemma RelabeledDrain(ds: seq<seq<Batch>>, es: seq<seq<Batch>>, t: nat, j: nat, k: nat)
    requires SameDrains(ds, es) && Tells(Flat(ds), Flat(es), 0, j, k) && t < |ds|
    ensures Tells(ds[t], es[t], |Flat(ds[..t])|, j, k)
  {
    var from := |Flat(ds[..t])|;
    SameDrainsFlat(ds, es, t);
    FlatAt(ds, t);
    FlatAt(es, t);
    assert SameShape(ds[t], es[t]);
    TellsPart(Flat(ds), Flat(es), from, from + |ds[t]|, j, k);
  }

  /** Whatever the entries are, as long as there are as many of the same weights: a run keeps the
      order of a key if and only if, in each of its drains, no batch of the key comes after one of
      another file that appeared later than its own. */
  lemma KeyOrderIsKept(c: Config, commands: seq<Command>, mine: Files)
    requires EndsInFlush(commands)
    ensures (forall cs :: SameCommands(commands, cs) ==> RunKeeps(c, cs, mine))
            <==> forall t :: 0 <= t < |Drains(c, IDLE, commands)| ==> InOrder(Drains(c, IDLE, commands)[t], mine)
  {
    var ds := Drains(c, IDLE, commands);
    if forall t :: 0 <= t < |ds| ==> InOrder(ds[t], mine) {
      forall cs | SameCommands(commands, cs)
        ensures RunKeeps(c, cs, mine)
      {
        InOrderRunKeeps(c, commands, cs, mine);
      }
    } else {
      var t: nat :| t < |ds| && !InOrder(ds[t], mine);
      var j: nat, k: nat :| j < |ds[t]| && k < |ds[t]| && Inverted(ds[t], mine, j, k);
      var cs := InvertedRunLoses(c, commands, ds, mine, t, j, k);
    }
  }

  lemma InOrderRunKeeps(c: Config, commands: seq<Command>, cs: seq<Command>, mine: Files)
    requires EndsInFlush(commands) && SameCommands(commands, cs)
    requires forall t :: 0 <= t < |Drains(c, IDLE, commands)| ==> InOrder(Drains(c, IDLE, commands)[t], mine)
    ensures RunKeeps(c, cs, mine)
  {
    var ds, es := Drains(c, IDLE, commands), Drains(c, IDLE, cs);
    SameCommandsDrain(c, IDLE, IDLE, commands, cs);
    assert SameCommand(commands[|commands| - 1], cs[|commands| - 1]);
    forall t | 0 <= t < |es|
      ensures Kept(es[t], mine)
    {
      assert SameShape(ds[t], es[t]);
      ShapeDecides(ds[t], es[t], mine);
      InOrderIsKept(es[t], mine);
    }
    RunKeepsWhatDrainsKeep(c, cs, mine);
  }

  lemma OneDrainLoses(c: Config, commands: seq<Command>, mine: Files, t: nat)
    requires EndsInFlush(commands) && t < |Drains(c, IDLE, commands)| && !Kept(Drains(c, IDLE, commands)[t], mine)
    ensures !RunKeeps(c, commands, mine)
  {
    RunKeepsWhatDrainsKeep(c, commands, mine);
  }

  lemma InvertedDrainLoses(ds: seq<seq<Batch>>, es: seq<seq<Batch>>, mine: Files, t: nat, j: nat, k: nat)
    requires t < |ds| && j < |ds[t]| && k < |ds[t]| && Inverted(ds[t], mine, j, k) && SameDrains(ds, es)
    requires Tells(Flat(ds), Flat(es), 0, |Flat(ds[..t])| + j, |Flat(ds[..t])| + k)
    ensures !Kept(es[t], mine)
  {
    var from := |Flat(ds[..t])|;
    RelabeledDrain(ds, es, t, from + j, from + k);
    TellsLoses(ds[t], es[t], mine, from, j, k);
  }

  lemma LosesAt(c: Config, cs: seq<Command>, ds: seq<seq<Batch>>, mine: Files, t: nat, j: nat, k: nat)
    requires EndsInFlush(cs) && SameDrains(ds, Drains(c, IDLE, cs))
    requires t < |ds| && j < |ds[t]| && k < |ds[t]| && Inverted(ds[t], mine, j, k)
    requires Tells(Flat(ds), Flat(Drains(c, IDLE, cs)), 0, |Flat(ds[..t])| + j, |Flat(ds[..t])| + k)
    ensures !RunKeeps(c, cs, mine)
  {
    InvertedDrainLoses(ds, Drains(c, IDLE, cs), mine, t, j, k);
    OneDrainLoses(c, cs, mine, t);
  }

  lemma InvertedRunLoses(c: Config, commands: seq<Command>, ds: seq<seq<Batch>>, mine: Files, t: nat, j: nat, k: nat)
    returns (cs: seq<Command>)
    requires EndsInFlush(commands) && ds == Drains(c, IDLE, commands)
    requires t < |ds| && j < |ds[t]| && k < |ds[t]| && Inverted(ds[t], mine, j, k)
    ensures SameCommands(commands, cs) && !RunKeeps(c, cs, mine)
  {
    var from := |Flat(ds[..t])|;
    cs := RelabeledRun(c, commands, from + j, from + k);
    LosesAt(c, cs, ds, mine, t, j, k);
  }

  // ---- A run that loses the order ----

  /** Three frames of two files of one key, and a flush. */
  function ThreeFrames(p: FilePath, q: FilePath, x: Value, y: Value, z: Value, bytes: nat): seq<Command> {
    [Enqueue(Frame(Batch(p, [x]), bytes)), Enqueue(Frame(Batch(q, [y]), bytes)), Enqueue(Frame(Batch(p, [z]), bytes)),
     MirrorWorker.Flush]
  }

  lemma NoDrainYet(c: Config, w: Worker, f: Frame, rest: seq<Command>)
    requires !OverLimit(c, Pushed(w, f))
    ensures Drains(c, w, [Enqueue(f)] + rest) == Drains(c, Pushed(w, f), rest)
  {
    assert ([Enqueue(f)] + rest)[1..] == rest;
    assert [] + Drains(c, Pushed(w, f), rest) == Drains(c, Pushed(w, f), rest);
  }

  lemma FlushDrains(c: Config, w: Worker)
    ensures Drains(c, w, [MirrorWorker.Flush]) == [FrameBatches(w.frames)]
  {
    assert [MirrorWorker.Flush][1..] == [];
  }

  lemma ThreeFramesDrain(c: Config, p: FilePath, q: FilePath, x: Value, y: Value, z: Value, bytes: nat)
    requires c.maxEntries >= 3 && c.maxBytes >= 3 * bytes
    ensures Drains(c, IDLE, ThreeFrames(p, q, x, y, z, bytes)) == [[Batch(p, [x]), Batch(q, [y]), Batch(p, [z])]]
  {
    var f, g, h := Frame(Batch(p, [x]), bytes), Frame(Batch(q, [y]), bytes), Frame(Batch(p, [z]), bytes);
    var w1 := Pushed(IDLE, f);
    var w2 := Pushed(w1, g);
    var w3 := Pushed(w2, h);
    NoDrainYet(c, IDLE, f, [Enqueue(g), Enqueue(h), MirrorWorker.Flush]);
    NoDrainYet(c, w1, g, [Enqueue(h), MirrorWorker.Flush]);
    NoDrainYet(c, w2, h, [MirrorWorker.Flush]);
    FlushDrains(c, w3);
    PushedBatches(IDLE, f);
    PushedBatches(w1, g);
    PushedBatches(w2, h);
    assert FrameBatches(w3.frames) == (([] + [f.batch]) + [g.batch]) + [h.batch] == [f.batch, g.batch, h.batch];
    assert ThreeFrames(p, q, x, y, z, bytes) == [Enqueue(f)] + [Enqueue(g), Enqueue(h), MirrorWorker.Flush];
    assert [Enqueue(g), Enqueue(h), MirrorWorker.Flush] == [Enqueue(g)] + [Enqueue(h), MirrorWorker.Flush];
    assert [Enqueue(h), MirrorWorker.Flush] == [Enqueue(h)] + [MirrorWorker.Flush];
  }

  /** The order of a key can be lost: `x` of one of its files, `y` of another and `z` of the first
      again are handed over as `x`, `z`, `y` at the flush. */
  lemma KeyOrderCanBreak(c: Config, mine: Files, p: FilePath, q: FilePath, x: Value, y: Value, z: Value, bytes: nat)
    requires c.maxEntries >= 3 && c.maxBytes >= 3 * bytes && p != q && mine(p) && mine(q) && y != z
    ensures var commands := ThreeFrames(p, q, x, y, z, bytes);
            && KeyEntries(Enqueued(commands), mine) == [x, y, z]
            && KeyEntries(EventBatches(Exec(MirrorWorker.Step(c), IDLE, commands).log), mine) == [x, z, y]
            && !RunKeeps(c, commands, mine)
  {
    var commands := ThreeFrames(p, q, x, y, z, bytes);
    var a, b, d := Batch(p, [x]), Batch(q, [y]), Batch(p, [z]);
    ThreeFramesDrain(c, p, q, x, y, z, bytes);
    FlushedRun(c, commands);
    FlatOne([a, b, d]);
    GroupsOfThree(p, q, x, y, z);
    ThreeEntries(a, b, d, mine);
    TwoEntries(Batch(p, [x, z]), b, mine);
  }

  lemma TwoEntries(a: Batch, b: Batch, mine: Files)
    requires mine(a.path) && mine(b.path)
    ensures KeyEntries([a, b], mine) == a.entries + b.entries
  {
    KeyEntriesAppend([a], [b], mine);
    KeyEntriesOne(a, mine);
    KeyEntriesOne(b, mine);
    assert [a] + [b] == [a, b];
  }

  lemma ThreeEntries(a: Batch, b: Batch, d: Batch, mine: Files)
    requires mine(a.path) && mine(b.path) && mine(d.path)
    ensures KeyEntries([a, b, d], mine) == a.entries + b.entries + d.entries
  {
    TwoEntries(a, b, mine);
    KeyEntriesAppend([a, b], [d], mine);
    KeyEntriesOne(d, mine);
    assert [a, b] + [d] == [a, b, d];
  }

  lemma GroupsOfThree(p: FilePath, q: FilePath, x: Value, y: Value, z: Value)
    requires p != q
    ensures Grouped([Batch(p, [x]), Batch(q, [y]), Batch(p, [z])]) == [Batch(p, [x, z]), Batch(q, [y])]
  {
    var a, b, d := Batch(p, [x]), Batch(q, [y]), Batch(p, [z]);
    assert [a, b, d][..2] == [a, b] && [a, b][..1] == [a] && [a][..0] == [];
    assert Grouped([a]) == [a] && Position([a], q) == 1;
    assert Grouped([a, b]) == [a, b] && Position([a, b], p) == 0;
    assert [x] + [z] == [x, z];
  }
}
