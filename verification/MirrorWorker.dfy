/** The transcript mirror batcher (claude-agent-sdk/src/session_store.rs:1138-1370).

    Frames are batched until a limit is passed or a flush arrives; a drain groups them by file
    and hands each group to the store, with bounded retry. The replies of the store are a
    parameter, numbered by append call. */
module MirrorWorker {
  import opened Common
  import opened SessionPaths
  import opened SessionDisk

  type FilePath = seq<Component>

  /** Entries of one file, in order. */
  datatype Batch = Batch(path: FilePath, entries: seq<Value>)

  datatype Frame = Frame(batch: Batch, bytes: nat)

  datatype Reply = Done | Refused(error: string) | TimedOut

  /** What became of one group: outside the root, or handed to the store with a result after
      some append calls. */
  datatype Event =
    | Dropped(batch: Batch)
    | Handed(batch: Batch, key: SessionKey, from: nat, calls: nat, result: Result<(), string>)

  datatype Failure = Failure(key: SessionKey, error: string)

  const MAX_PENDING_ENTRIES := 500
  const MAX_PENDING_BYTES := 1024 * 1024
  const RETRIES := 2
  const TIMEOUT_MESSAGE := "timed out"

  datatype Config = Config(root: FilePath, maxEntries: nat, maxBytes: nat, reply: nat -> Reply)

  /** The limits of the two flush policies. */
  function Policy(eager: bool, root: FilePath, reply: nat -> Reply): Config {
    if eager then Config(root, 0, 0, reply) else Config(root, MAX_PENDING_ENTRIES, MAX_PENDING_BYTES, reply)
  }

  /** Length in UTF-16 units of the entries as a JSON array. */
  function JsonWidth(width: Value -> nat, entries: seq<Value>): (w: nat)
    ensures w >= 2
  {
    if entries == [] then 2
    else if |entries| == 1 then 2 + width(entries[0])
    else width(entries[0]) + 1 + JsonWidth(width, entries[1..])
  }

  function TotalWidth(width: Value -> nat, entries: seq<Value>): nat {
    if entries == [] then 0 else TotalWidth(width, entries[..|entries| - 1]) + width(entries[|entries| - 1])
  }

  /** Two brackets, the entries, and a comma between each two. */
  lemma {:induction false} JsonWidthAdds(width: Value -> nat, entries: seq<Value>)
    ensures JsonWidth(width, entries) == 2 + TotalWidth(width, entries) + (if entries == [] then 0 else |entries| - 1)
  {
    if |entries| > 1 {
      JsonWidthAdds(width, entries[1..]);
      FirstWidth(width, entries);
    } else if |entries| == 1 {
      assert entries[..0] == [];
    }
  }

  lemma {:induction false} FirstWidth(width: Value -> nat, entries: seq<Value>)
    requires entries != []
    ensures TotalWidth(width, entries) == width(entries[0]) + TotalWidth(width, entries[1..])
  {
    var n := |entries| - 1;
    if n > 0 {
      FirstWidth(width, entries[..n]);
      assert entries[..n][1..] == entries[1..][..n - 1] && entries[1..][n - 1] == entries[n];
    } else {
      assert entries[..0] == [] && entries[1..] == [];
    }
  }

  function FrameOf(width: Value -> nat, batch: Batch): Frame {
    Frame(batch, JsonWidth(width, batch.entries))
  }

  // ---- Entries of a file in a list of batches ----

  function EntriesFor(batches: seq<Batch>, p: FilePath): seq<Value> {
    if batches == [] then []
    else
      var n := |batches| - 1;
      EntriesFor(batches[..n], p) + (if batches[n].path == p then batches[n].entries else [])
  }

  function FrameBatches(frames: seq<Frame>): (r: seq<Batch>)
    ensures |r| == |frames|
  {
    if frames == [] then [] else FrameBatches(frames[..|frames| - 1]) + [frames[|frames| - 1].batch]
  }

  function EventBatches(log: seq<Event>): (r: seq<Batch>)
    ensures |r| == |log|
  {
    if log == [] then [] else EventBatches(log[..|log| - 1]) + [log[|log| - 1].batch]
  }

  lemma {:induction false} EntriesForAppend(a: seq<Batch>, b: seq<Batch>, p: FilePath)
    ensures EntriesFor(a + b, p) == EntriesFor(a, p) + EntriesFor(b, p)
  {
    if b == [] {
      assert a + b == a;
    } else {
      var n := |b| - 1;
      EntriesForAppend(a, b[..n], p);
      assert (a + b)[..|a| + n] == a + b[..n] && (a + b)[|a| + n] == b[n];
      var last := if b[n].path == p then b[n].entries else [];
      assert EntriesFor(a, p) + (EntriesFor(b[..n], p) + last) == (EntriesFor(a, p) + EntriesFor(b[..n], p)) + last;
    }
  }

  lemma EntriesForOne(b: Batch, p: FilePath)
    ensures EntriesFor([b], p) == if b.path == p then b.entries else []
  {
    assert [b][..0] == [];
  }

  lemma {:induction false} EntriesForAbsent(batches: seq<Batch>, p: FilePath)
    requires forall b :: b in batches ==> b.path != p
    ensures EntriesFor(batches, p) == []
  {
    if batches != [] {
      var n := |batches| - 1;
      assert batches[n] in batches && forall b :: b in batches[..n] ==> b in batches;
      EntriesForAbsent(batches[..n], p);
    }
  }

  // ---- Grouping by file ----

  ghost predicate UniquePaths(groups: seq<Batch>) {
    forall i, j :: 0 <= i < j < |groups| ==> groups[i].path != groups[j].path
  }

  function Position(groups: seq<Batch>, p: FilePath): (i: nat)
    ensures i <= |groups|
    ensures i < |groups| ==> groups[i].path == p
    ensures forall j :: 0 <= j < i ==> groups[j].path != p
  {
    if groups == [] || groups[0].path == p then 0 else 1 + Position(groups[1..], p)
  }

  function AddBatch(groups: seq<Batch>, b: Batch): seq<Batch> {
    var i := Position(groups, b.path);
    if i < |groups| then groups[i := Batch(b.path, groups[i].entries + b.entries)] else groups + [b]
  }

  function Grouped(batches: seq<Batch>): seq<Batch> {
    if batches == [] then [] else AddBatch(Grouped(batches[..|batches| - 1]), batches[|batches| - 1])
  }

  lemma EntriesAround(a: seq<Batch>, g: Batch, c: seq<Batch>, p: FilePath)
    ensures EntriesFor((a + [g]) + c, p)
         == (EntriesFor(a, p) + (if g.path == p then g.entries else [])) + EntriesFor(c, p)
  {
    EntriesForAppend(a + [g], c, p);
    EntriesForAppend(a, [g], p);
    EntriesForOne(g, p);
  }

  /** Extending the only group of a file extends the entries of that file. */
  lemma UpdateEntries(groups: seq<Batch>, i: nat, more: seq<Value>, p: FilePath)
    requires UniquePaths(groups) && i < |groups|
    ensures var g := Batch(groups[i].path, groups[i].entries + more);
            EntriesFor(groups[i := g], p) == EntriesFor(groups, p) + (if groups[i].path == p then more else [])
  {
    var a, c, g := groups[..i], groups[i + 1..], Batch(groups[i].path, groups[i].entries + more);
    assert groups == (a + [groups[i]]) + c && groups[i := g] == (a + [g]) + c;
    EntriesAround(a, groups[i], c, p);
    EntriesAround(a, g, c, p);
    if g.path == p {
      EntriesForAbsent(c, p);
    } else {
      assert EntriesFor(groups, p) + [] == EntriesFor(groups, p);
    }
  }

  lemma AddBatchUnique(groups: seq<Batch>, b: Batch)
    requires UniquePaths(groups)
    ensures UniquePaths(AddBatch(groups, b))
  {
  }

  lemma AddBatchKeeps(groups: seq<Batch>, b: Batch, p: FilePath)
    requires UniquePaths(groups)
    ensures EntriesFor(AddBatch(groups, b), p) == EntriesFor(groups, p) + EntriesFor([b], p)
  {
    var i := Position(groups, b.path);
    if i < |groups| {
      EntriesForOne(b, p);
      UpdateEntries(groups, i, b.entries, p);
    } else {
      EntriesForAppend(groups, [b], p);
    }
  }

  /** Grouping keeps, file by file, all entries in order, and makes one group of each file. */
  lemma {:induction false} GroupingKeepsEntries(batches: seq<Batch>, p: FilePath)
    ensures UniquePaths(Grouped(batches))
    ensures EntriesFor(Grouped(batches), p) == EntriesFor(batches, p)
  {
    if batches != [] {
      var n := |batches| - 1;
      GroupingKeepsEntries(batches[..n], p);
      AddBatchUnique(Grouped(batches[..n]), batches[n]);
      AddBatchKeeps(Grouped(batches[..n]), batches[n], p);
      EntriesForOne(batches[n], p);
    }
  }

  // ---- Sending one group ----

  /** The append calls of one group from attempt number `attempt` on: the result, and the number
      of the next call. */
  function Attempts(reply: nat -> Reply, call: nat, attempt: nat): (r: (Result<(), string>, nat))
    requires attempt <= RETRIES
    ensures call < r.1 <= call + 3 - attempt
    decreases RETRIES - attempt
  {
    match reply(call)
    case Done => (Ok(()), call + 1)
    case TimedOut => (Err(TIMEOUT_MESSAGE), call + 1)
    case Refused(e) => if attempt == RETRIES then (Err(e), call + 1) else Attempts(reply, call + 1, attempt + 1)
  }

  /** At most three attempts: all but the last were refused; the last one succeeded, or timed
      out, or was the third refusal. */
  ghost predicate BoundedRetry(reply: nat -> Reply, from: nat, calls: nat, result: Result<(), string>) {
    && 1 <= calls <= 3
    && (forall i :: from <= i < from + calls - 1 ==> reply(i).Refused?)
    && match reply(from + calls - 1)
       case Done => result == Ok(())
       case TimedOut => result == Err(TIMEOUT_MESSAGE)
       case Refused(e) => calls == 3 && result == Err(e)
  }

  /** The same from a later attempt on. */
  ghost predicate RetriedFrom(reply: nat -> Reply, call: nat, attempt: nat, next: nat, result: Result<(), string>) {
    && call < next <= call + 3 - attempt
    && (forall i :: call <= i < next - 1 ==> reply(i).Refused?)
    && match reply(next - 1)
       case Done => result == Ok(())
       case TimedOut => result == Err(TIMEOUT_MESSAGE)
       case Refused(e) => next == call + 3 - attempt && result == Err(e)
  }

  lemma {:induction false} AttemptsFrom(reply: nat -> Reply, call: nat, attempt: nat)
    requires attempt <= RETRIES
    ensures var (result, next) := Attempts(reply, call, attempt); RetriedFrom(reply, call, attempt, next, result)
    decreases RETRIES - attempt
  {
    if reply(call).Refused? && attempt < RETRIES {
      AttemptsFrom(reply, call + 1, attempt + 1);
    }
  }

  lemma AttemptsAreBounded(reply: nat -> Reply, call: nat)
    ensures var (result, next) := Attempts(reply, call, 0); BoundedRetry(reply, call, next - call, result)
  {
    AttemptsFrom(reply, call, 0);
  }

  function Handle(c: Config, group: Batch, call: nat): Event {
    match SessionKeyFromMirrorPath(group.path, c.root)
    case None => Dropped(group)
    case Some(key) =>
      var (result, next) := Attempts(c.reply, call, 0);
      Handed(group, key, call, next - call, result)
  }

  function CallsOf(e: Event): nat {
    if e.Handed? then e.calls else 0
  }

  function Calls(log: seq<Event>): nat {
    if log == [] then 0 else Calls(log[..|log| - 1]) + CallsOf(log[|log| - 1])
  }

  function FailuresOf(log: seq<Event>): seq<Failure> {
    if log == [] then []
    else
      FailuresOf(log[..|log| - 1]) + FailureOf(log[|log| - 1])
  }

  function FailureOf(e: Event): seq<Failure> {
    if e.Handed? && e.result.Err? then [Failure(e.key, e.result.error)] else []
  }

  // ---- The worker ----

  datatype Worker = Worker(frames: seq<Frame>, entries: nat, bytes: nat, calls: nat, log: seq<Event>, failures: seq<Failure>)

  const IDLE := Worker([], 0, 0, 0, [], [])

  datatype Command = Enqueue(frame: Frame) | Flush | Close

  function HandedOver(c: Config, w: Worker, group: Batch): Worker {
    var e := Handle(c, group, w.calls);
    w.(calls := w.calls + CallsOf(e), log := w.log + [e], failures := w.failures + FailureOf(e))
  }

  /** Hand the groups over one after the other. */
  function HandedAll(c: Config, w: Worker, groups: seq<Batch>): Worker
    decreases groups
  {
    if groups == [] then w else HandedAll(c, HandedOver(c, w, groups[0]), groups[1..])
  }

  function Taken(w: Worker): Worker {
    w.(frames := [], entries := 0, bytes := 0)
  }

  function Drained(c: Config, w: Worker): Worker {
    HandedAll(c, Taken(w), Grouped(FrameBatches(w.frames)))
  }

  function Pushed(w: Worker, f: Frame): Worker {
    w.(frames := w.frames + [f], entries := w.entries + |f.batch.entries|, bytes := w.bytes + f.bytes)
  }

  predicate OverLimit(c: Config, w: Worker) {
    w.entries > c.maxEntries || w.bytes > c.maxBytes
  }

  function Step(c: Config): (Worker, Command) -> Worker {
    (w: Worker, command: Command) =>
      match command
      case Enqueue(f) => if OverLimit(c, Pushed(w, f)) then Drained(c, Pushed(w, f)) else Pushed(w, f)
      case Flush => Drained(c, w)
      case Close => Drained(c, w)
  }

  // ---- Conservation ----

  function Enqueued(commands: seq<Command>): seq<Batch>
    decreases commands
  {
    if commands == [] then [] else BatchOf(commands[0]) + Enqueued(commands[1..])
  }

  function BatchOf(command: Command): seq<Batch> {
    if command.Enqueue? then [command.frame.batch] else []
  }

  /** What went to the store or was dropped for a file, followed by what is pending for it. */
  function Accounted(w: Worker, p: FilePath): seq<Value> {
    EntriesFor(EventBatches(w.log), p) + EntriesFor(FrameBatches(w.frames), p)
  }

  lemma {:induction false} HandedAllBatches(c: Config, w: Worker, groups: seq<Batch>)
    ensures var t := HandedAll(c, w, groups);
            EventBatches(t.log) == EventBatches(w.log) + groups
            && t.frames == w.frames && t.entries == w.entries && t.bytes == w.bytes
    decreases groups
  {
    if groups == [] {
      assert EventBatches(w.log) + [] == EventBatches(w.log);
    } else {
      var next := HandedOver(c, w, groups[0]);
      HandedAllBatches(c, next, groups[1..]);
      assert next.log[..|w.log|] == w.log;
      assert EventBatches(next.log) == EventBatches(w.log) + [groups[0]];
      assert groups == [groups[0]] + groups[1..];
      Regroup(EventBatches(w.log), [groups[0]], groups[1..]);
    }
  }

  lemma DrainAccounts(c: Config, w: Worker, p: FilePath)
    ensures Accounted(Drained(c, w), p) == Accounted(w, p)
  {
    var groups := Grouped(FrameBatches(w.frames));
    HandedAllBatches(c, Taken(w), groups);
    EntriesForAppend(EventBatches(w.log), groups, p);
    GroupingKeepsEntries(FrameBatches(w.frames), p);
    NothingPending(Drained(c, w), p);
  }

  lemma NothingPending(w: Worker, p: FilePath)
    requires w.frames == []
    ensures Accounted(w, p) == EntriesFor(EventBatches(w.log), p)
  {
  }

  lemma Regroup<T>(a: seq<T>, b: seq<T>, c: seq<T>)
    ensures (a + b) + c == a + (b + c)
  {
  }

  lemma PushAccounts(w: Worker, f: Frame, p: FilePath)
    ensures Accounted(Pushed(w, f), p) == Accounted(w, p) + EntriesFor([f.batch], p)
  {
    var frames := w.frames + [f];
    assert frames[..|frames| - 1] == w.frames;
    EntriesForAppend(FrameBatches(w.frames), [f.batch], p);
    var a, b, more := EntriesFor(EventBatches(w.log), p), EntriesFor(FrameBatches(w.frames), p), EntriesFor([f.batch], p);
    assert a + (b + more) == (a + b) + more;
  }

  lemma StepAccounts(c: Config, w: Worker, command: Command, p: FilePath)
    ensures Accounted(Step(c)(w, command), p) == Accounted(w, p) + EntriesFor(BatchOf(command), p)
  {
    match command
    case Enqueue(f) =>
      PushAccounts(w, f, p);
      DrainAccounts(c, Pushed(w, f), p);
    case _ =>
      DrainAccounts(c, w, p);
      assert Accounted(w, p) + [] == Accounted(w, p);
  }

  /** Over any commands: what was handed over for a file, in all drains, followed by what is
      pending, grows by exactly the entries enqueued for that file, in order. */
  lemma {:induction false} EntriesAreConserved(c: Config, w: Worker, commands: seq<Command>, p: FilePath)
    ensures Accounted(Exec(Step(c), w, commands), p) == Accounted(w, p) + EntriesFor(Enqueued(commands), p)
    decreases commands
  {
    if commands == [] {
      assert Accounted(w, p) + [] == Accounted(w, p);
    } else {
      var next, first, rest := Step(c)(w, commands[0]), BatchOf(commands[0]), Enqueued(commands[1..]);
      StepAccounts(c, w, commands[0], p);
      EntriesAreConserved(c, next, commands[1..], p);
      EntriesForAppend(first, rest, p);
      Regroup(Accounted(w, p), EntriesFor(first, p), EntriesFor(rest, p));
    }
  }

  /** Once a flush or the end of the channel is handled, everything enqueued has been handed over. */
  lemma FlushHandsOverEverything(c: Config, commands: seq<Command>, p: FilePath)
    requires commands != [] && !commands[|commands| - 1].Enqueue?
    ensures var w := Exec(Step(c), IDLE, commands);
            w.frames == [] && EntriesFor(EventBatches(w.log), p) == EntriesFor(Enqueued(commands), p)
  {
    EntriesAreConserved(c, IDLE, commands, p);
    ExecLast(Step(c), IDLE, commands);
    var before := Exec(Step(c), IDLE, commands[..|commands| - 1]);
    HandedAllBatches(c, Taken(before), Grouped(FrameBatches(before.frames)));
    NothingPending(Drained(c, before), p);
    NothingPending(IDLE, p);
  }

  // ---- Counts and limits ----

  function TotalEntries(frames: seq<Frame>): nat {
    if frames == [] then 0 else TotalEntries(frames[..|frames| - 1]) + |frames[|frames| - 1].batch.entries|
  }

  function TotalBytes(frames: seq<Frame>): nat {
    if frames == [] then 0 else TotalBytes(frames[..|frames| - 1]) + frames[|frames| - 1].bytes
  }

  ghost predicate Counted(c: Config, w: Worker) {
    w.entries == TotalEntries(w.frames) && w.bytes == TotalBytes(w.frames) && !OverLimit(c, w)
  }

  lemma DrainCounts(c: Config, w: Worker)
    ensures Counted(c, Drained(c, w))
  {
    HandedAllBatches(c, Taken(w), Grouped(FrameBatches(w.frames)));
  }

  lemma StepCounts(c: Config, w: Worker, command: Command)
    requires Counted(c, w)
    ensures Counted(c, Step(c)(w, command))
  {
    match command
    case Enqueue(f) =>
      DrainCounts(c, Pushed(w, f));
    case _ => DrainCounts(c, w);
  }

  /** Between commands the counters are the sums over the pending frames, within both limits. */
  lemma CountsAreSums(c: Config, commands: seq<Command>)
    ensures Counted(c, Exec(Step(c), IDLE, commands))
  {
    forall w, command | Counted(c, w)
      ensures Counted(c, Step(c)(w, command))
    {
      StepCounts(c, w, command);
    }
    ExecKeeps(Step(c), w => Counted(c, w), IDLE, commands);
  }

  /** A frame weighs what its entries measure as a JSON array. */
  predicate Weighed(command: Command, width: Value -> nat) {
    command.Enqueue? ==> command.frame == FrameOf(width, command.frame.batch)
  }

  ghost predicate Eager(c: Config, w: Worker) {
    c.maxBytes == 0 && w.frames == [] && Counted(c, w)
  }

  lemma DrainEmpties(c: Config, w: Worker)
    ensures Drained(c, w).frames == []
  {
    HandedAllBatches(c, Taken(w), Grouped(FrameBatches(w.frames)));
  }

  /** A frame of any weight is too much for a limit of zero bytes. */
  lemma EagerEnqueue(c: Config, w: Worker, f: Frame)
    requires Eager(c, w) && f.bytes > 0
    ensures OverLimit(c, Pushed(w, f))
  {
  }

  lemma EagerStep(c: Config, w: Worker, command: Command, width: Value -> nat)
    requires Eager(c, w) && Weighed(command, width)
    ensures Eager(c, Step(c)(w, command))
  {
    match command
    case Enqueue(f) =>
      EagerEnqueue(c, w, f);
      DrainCounts(c, Pushed(w, f));
      DrainEmpties(c, Pushed(w, f));
    case _ =>
      DrainCounts(c, w);
      DrainEmpties(c, w);
  }

  lemma {:induction false} EagerRun(c: Config, w: Worker, commands: seq<Command>, width: Value -> nat)
    requires Eager(c, w) && forall i :: 0 <= i < |commands| ==> Weighed(commands[i], width)
    ensures Eager(c, Exec(Step(c), w, commands))
    decreases commands
  {
    if commands != [] {
      EagerStep(c, w, commands[0], width);
      EagerRun(c, Step(c)(w, commands[0]), commands[1..], width);
    }
  }

  /** The eager policy has both limits at zero, and even a frame without entries has the weight of
      an empty array: nothing is pending between commands. */
  lemma EagerLeavesNothing(root: FilePath, reply: nat -> Reply, commands: seq<Command>, width: Value -> nat)
    requires forall i :: 0 <= i < |commands| ==> Weighed(commands[i], width)
    ensures Exec(Step(Policy(true, root, reply)), IDLE, commands).frames == []
  {
    var c, start := Policy(true, root, reply), IDLE;
    assert Eager(c, start);
    EagerRun(c, start, commands, width);
  }

  // ---- Outcomes ----

  ghost predicate EventSound(c: Config, e: Event, calls: nat) {
    match e
    case Dropped(b) => SessionKeyFromMirrorPath(b.path, c.root).None?
    case Handed(b, key, from, n, result) =>
      SessionKeyFromMirrorPath(b.path, c.root) == Some(key) && from == calls && BoundedRetry(c.reply, from, n, result)
  }

  /** Every group has one outcome of its own: dropped because no key is found, or handed to the
      store under its key with the append calls that follow those of the groups before it. */
  ghost predicate LogSound(c: Config, log: seq<Event>) {
    log == [] || (LogSound(c, log[..|log| - 1]) && EventSound(c, log[|log| - 1], Calls(log[..|log| - 1])))
  }

  ghost predicate OutcomesSound(c: Config, w: Worker) {
    LogSound(c, w.log) && w.calls == Calls(w.log) && w.failures == FailuresOf(w.log)
  }

  lemma OneEvent(log: seq<Event>, e: Event)
    ensures (log + [e])[..|log|] == log && (log + [e])[|log|] == e
    ensures Calls(log + [e]) == Calls(log) + CallsOf(e)
    ensures FailuresOf(log + [e]) == FailuresOf(log) + FailureOf(e)
  {
    assert (log + [e])[..|log|] == log;
  }

  lemma HandleSound(c: Config, group: Batch, call: nat)
    ensures EventSound(c, Handle(c, group, call), call)
  {
    AttemptsAreBounded(c.reply, call);
  }

  lemma LogGrows(c: Config, log: seq<Event>, e: Event)
    requires LogSound(c, log) && EventSound(c, e, Calls(log))
    ensures LogSound(c, log + [e])
  {
    OneEvent(log, e);
  }

  lemma HandedOverSound(c: Config, w: Worker, group: Batch)
    requires OutcomesSound(c, w)
    ensures OutcomesSound(c, HandedOver(c, w, group))
  {
    var e := Handle(c, group, w.calls);
    HandleSound(c, group, w.calls);
    LogGrows(c, w.log, e);
    OneEvent(w.log, e);
  }

  lemma {:induction false} HandedAllSound(c: Config, w: Worker, groups: seq<Batch>)
    requires OutcomesSound(c, w)
    ensures OutcomesSound(c, HandedAll(c, w, groups))
    decreases groups
  {
    if groups != [] {
      HandedOverSound(c, w, groups[0]);
      HandedAllSound(c, HandedOver(c, w, groups[0]), groups[1..]);
    }
  }

  lemma DrainSound(c: Config, w: Worker)
    requires OutcomesSound(c, w)
    ensures OutcomesSound(c, Drained(c, w))
  {
    HandedAllSound(c, Taken(w), Grouped(FrameBatches(w.frames)));
  }

  lemma StepSound(c: Config, w: Worker, command: Command)
    requires OutcomesSound(c, w)
    ensures OutcomesSound(c, Step(c)(w, command))
  {
    match command
    case Enqueue(f) => DrainSound(c, Pushed(w, f));
    case _ => DrainSound(c, w);
  }

  /** Over any commands every group ends in success after at most three attempts, in exactly one
      failure report, or in the drop of a file outside the root. */
  lemma OutcomesAreSound(c: Config, commands: seq<Command>)
    ensures OutcomesSound(c, Exec(Step(c), IDLE, commands))
  {
    forall w, command | OutcomesSound(c, w)
      ensures OutcomesSound(c, Step(c)(w, command))
    {
      StepSound(c, w, command);
    }
    ExecKeeps(Step(c), w => OutcomesSound(c, w), IDLE, commands);
  }

  // ---- The worker object ----

  /** The index map names exactly the groups. */
  ghost predicate Indexed(groups: seq<Batch>, indexes: map<FilePath, nat>) {
    && (forall p :: p in indexes ==> indexes[p] < |groups| && groups[indexes[p]].path == p)
    && (forall i :: 0 <= i < |groups| ==> groups[i].path in indexes)
  }

  lemma IndexedPosition(groups: seq<Batch>, indexes: map<FilePath, nat>, p: FilePath)
    requires UniquePaths(groups) && Indexed(groups, indexes)
    ensures Position(groups, p) == if p in indexes then indexes[p] else |groups|
  {
    if p in indexes {
    } else {
      assert forall i :: 0 <= i < |groups| ==> groups[i].path != p;
    }
  }

  lemma IndexGrows(groups: seq<Batch>, indexes: map<FilePath, nat>, b: Batch)
    requires UniquePaths(groups) && Indexed(groups, indexes)
    ensures UniquePaths(AddBatch(groups, b))
    ensures Indexed(AddBatch(groups, b), if b.path in indexes then indexes else indexes[b.path := |groups|])
    ensures AddBatch(groups, b)
         == if b.path in indexes then groups[indexes[b.path] := Batch(b.path, groups[indexes[b.path]].entries + b.entries)]
            else groups + [b]
  {
    AddBatchUnique(groups, b);
    IndexedPosition(groups, indexes, b.path);
  }

  class TranscriptMirrorWorker {
    const config: Config
    var frames: seq<Frame>
    var entries: nat
    var bytes: nat
    var calls: nat              // append calls made so far
    var log: seq<Event>
    var failures: seq<Failure>  // what the failure channel received

    ghost function Abstract(): Worker
      reads this
    {
      Worker(frames, entries, bytes, calls, log, failures)
    }

    constructor (config: Config)
      ensures Abstract() == IDLE && this.config == config
    {
      this.config := config;
      frames, entries, bytes, calls, log, failures := [], 0, 0, 0, [], [];
    }

    method GroupFrames(taken: seq<Frame>) returns (groups: seq<Batch>)
      ensures groups == Grouped(FrameBatches(taken))
    {
      groups := [];
      var indexes: map<FilePath, nat> := map[];
      for i := 0 to |taken|
        invariant groups == Grouped(FrameBatches(taken[..i])) && UniquePaths(groups) && Indexed(groups, indexes)
      {
        var b := taken[i].batch;
        IndexGrows(groups, indexes, b);
        BatchesGrow(taken, i);
        if b.path in indexes {
          var index := indexes[b.path];
          groups := groups[index := Batch(b.path, groups[index].entries + b.entries)];
        } else {
          indexes := indexes[b.path := |groups|];
          groups := groups + [b];
        }
      }
      assert taken[..|taken|] == taken;
    }

    /** At most three append calls. */
    method SendWithRetry() returns (result: Result<(), string>)
      modifies this`calls
      ensures (result, calls) == Attempts(config.reply, old(calls), 0)
    {
      for attempt := 0 to RETRIES + 1
        invariant Attempts(config.reply, old(calls), 0) == Attempts(config.reply, calls, if attempt <= RETRIES then attempt else RETRIES)
        invariant attempt <= RETRIES
      {
        var reply := config.reply(calls);
        calls := calls + 1;
        match reply
        case Done => return Ok(());
        case TimedOut => return Err(TIMEOUT_MESSAGE);
        case Refused(error) =>
          if attempt == RETRIES {
            return Err(error);
          }
      }
    }

    /** Take the pending frames, group them, and hand the groups over one by one. */
    method Drain()
      modifies this
      ensures Abstract() == Drained(config, old(Abstract()))
    {
      entries, bytes := 0, 0;
      var taken := frames;
      frames := [];
      var groups := GroupFrames(taken);
      ghost var start := Abstract();
      for i := 0 to |groups|
        invariant HandedAll(config, Abstract(), groups[i..]) == HandedAll(config, start, groups)
      {
        assert groups[i..][1..] == groups[i + 1..];
        HandOver(groups[i]);
      }
    }

    /** Hand one group to the store and report its failure. */
    method HandOver(group: Batch)
      modifies this`calls, this`log, this`failures
      ensures Abstract() == HandedOver(config, old(Abstract()), group)
    {
      assert failures + [] == failures;
      var key := SessionKeyFromMirrorPath(group.path, config.root);
      if key.None? {
        log := log + [Dropped(group)];
        return;
      }
      var from := calls;
      var result := SendWithRetry();
      log := log + [Handed(group, key.value, from, calls - from, result)];
      if result.Err? {
        failures := failures + [Failure(key.value, result.error)];
      }
    }

    /** Take one frame in; drain as soon as a limit is passed. */
    method Enqueue(width: Value -> nat, path: FilePath, batch: seq<Value>)
      modifies this
      ensures Abstract() == Step(config)(old(Abstract()), Command.Enqueue(FrameOf(width, Batch(path, batch))))
    {
      var frame := FrameOf(width, Batch(path, batch));
      entries := entries + |batch|;
      bytes := bytes + frame.bytes;
      frames := frames + [frame];
      if entries > config.maxEntries || bytes > config.maxBytes {
        Drain();
      }
    }

    method Flush()
      modifies this
      ensures Abstract() == Step(config)(old(Abstract()), Command.Flush)
    {
      Drain();
    }
  }

  lemma BatchesGrow(taken: seq<Frame>, i: nat)
    requires i < |taken|
    ensures Grouped(FrameBatches(taken[..i + 1])) == AddBatch(Grouped(FrameBatches(taken[..i])), taken[i].batch)
  {
    var now := taken[..i + 1];
    assert now[..i] == taken[..i];
    var batches := FrameBatches(now);
    assert batches[..i] == FrameBatches(taken[..i]);
  }
}
