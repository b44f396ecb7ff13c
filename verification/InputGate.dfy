/** When a Claude run may close its standard input (garyx-bridge/src/claude_provider.rs,
    claude-agent-sdk/src/run_streaming.rs).

    One message loop reads the stream and decides; any number of `add_streaming_input` calls
    enqueue, send and roll back at the same time; an abort may unregister the run. Every
    lock-protected block is one step, and `Exec` over a list of steps is one interleaving. */
module InputGate {
  import opened Common
  import opened Text
  import opened AckQueue

  // ---- The message loop's own state ----

  /** What a stream message is to the gate. */
  datatype Msg =
    | Nested                                        // an envelope of a nested tool run
    | ToolResults                                   // a user message carrying tool results
    | UserEcho
    | NoResponsePlaceholder                         // the synthetic assistant message
    | Assistant
    | TurnResult
    | StreamEvent
    | StopHook(statuses: Option<seq<Option<string>>>)
    | System(subtype: string, tasks: Option<seq<Option<string>>>, key: Option<string>,
             status: Option<string>, patchStatus: Option<string>)
    | DrainRefused                                  // the drain window ended with inputs still queued

  predicate IsTerminal(status: string) {
    status in ["completed", "failed", "cancelled", "canceled", "errored", "error", "interrupted", "aborted",
               "killed", "stopped"]
  }

  predicate StillRunning(status: Option<string>) {
    status.None? || !IsTerminal(Trim(status.value))
  }

  /** A task update without a terminal status keeps its task alive. */
  predicate EndsTask(m: Msg)
    requires m.System?
  {
    var status := if m.status.Some? then m.status else m.patchStatus;
    status.Some? && Trim(status.value) != [] && IsTerminal(Trim(status.value))
  }

  function Present(ids: seq<Option<string>>): (r: set<string>)
    ensures forall t :: t in r <==> exists i :: 0 <= i < |ids| && ids[i].Some? && Trim(ids[i].value) == t && t != []
  {
    set i | 0 <= i < |ids| && ids[i].Some? && Trim(ids[i].value) != [] :: Trim(ids[i].value)
  }

  datatype Locals = Locals(resultSeen: bool, tasks: set<string>, stopHookHolds: bool, inputEnded: bool,
                           activity: bool)

  const FRESH_LOOP := Locals(false, {}, false, false, false)

  function UpdateTasks(tasks: set<string>, m: Msg): set<string>
    requires m.System?
  {
    if m.subtype == "background_tasks_changed" then
      if m.tasks.Some? then Present(m.tasks.value) else tasks
    else if m.key.None? then tasks
    else if m.subtype == "task_started" then tasks + {m.key.value}
    else if m.subtype == "task_updated" || m.subtype == "task_notification" then
      if EndsTask(m) then tasks - {m.key.value} else tasks + {m.key.value}
    else tasks
  }

  predicate ReportsWork(statuses: seq<Option<string>>) {
    exists i :: 0 <= i < |statuses| && StillRunning(statuses[i])
  }

  function ObserveMessage(l: Locals, m: Msg): Locals {
    match m
    case UserEcho => l.(resultSeen := false)
    case Assistant => l.(resultSeen := false, activity := true)
    case TurnResult => l.(resultSeen := true)
    case StreamEvent => l.(resultSeen := false)
    case DrainRefused => l.(resultSeen := false)
    case StopHook(Some(statuses)) => l.(stopHookHolds := ReportsWork(statuses))
    case System(subtype, _, _, _, _) =>
      l.(tasks := UpdateTasks(l.tasks, m), resultSeen := l.resultSeen && subtype != "task_notification")
    case _ => l
  }

  predicate WaitingToEndInput(l: Locals) {
    !l.inputEnded && l.resultSeen && l.tasks == {} && !l.stopHookHolds
  }

  // ---- What the history of messages says, read backwards ----

  predicate TurnRelevant(m: Msg) {
    m.UserEcho? || m.Assistant? || m.TurnResult? || m.StreamEvent? || m.DrainRefused?
    || (m.System? && m.subtype == "task_notification")
  }

  /** The latest message that opens or closes a turn is a result. */
  predicate ResultIsLatest(history: seq<Msg>) {
    history != [] &&
    var m := history[|history| - 1];
    if TurnRelevant(m) then m.TurnResult? else ResultIsLatest(history[..|history| - 1])
  }

  /** What one message says about task `t`: alive, gone, or nothing. */
  function SaysAbout(m: Msg, t: string): Option<bool> {
    if !m.System? then None
    else if m.subtype == "background_tasks_changed" then
      if m.tasks.Some? then Some(t in Present(m.tasks.value)) else None
    else if m.key != Some(t) then None
    else if m.subtype == "task_started" then Some(true)
    else if m.subtype == "task_updated" || m.subtype == "task_notification" then
      var status := if m.status.Some? then m.status else m.patchStatus;
      Some(status.None? || !IsTerminal(Trim(status.value)))
    else None
  }

  /** The latest message about task `t` says it is alive. */
  predicate Tracked(history: seq<Msg>, t: string) {
    history != [] &&
    var m := history[|history| - 1];
    if SaysAbout(m, t).Some? then SaysAbout(m, t).value else Tracked(history[..|history| - 1], t)
  }

  /** The latest stop-hook snapshot that lists tasks lists one still running. */
  predicate HookHolds(history: seq<Msg>) {
    history != [] &&
    var m := history[|history| - 1];
    if m.StopHook? && m.statuses.Some? then
      exists status :: status in m.statuses.value && (status.None? || !IsTerminal(Trim(status.value)))
    else HookHolds(history[..|history| - 1])
  }

  ghost predicate Reflects(l: Locals, history: seq<Msg>) {
    && l.resultSeen == ResultIsLatest(history)
    && (forall t :: t in l.tasks <==> Tracked(history, t))
    && l.stopHookHolds == HookHolds(history)
  }

  /** The loop's variables always say what the whole history says. */
  lemma ObserveReflects(l: Locals, history: seq<Msg>, m: Msg)
    requires Reflects(l, history)
    ensures Reflects(ObserveMessage(l, m), history + [m])
  {
    var longer := history + [m];
    assert longer[..|history|] == history && longer[|history|] == m;
    forall t
      ensures t in ObserveMessage(l, m).tasks <==> Tracked(longer, t)
    {
      TaskReflects(l, history, m, t);
    }
    HookReflects(l, history, m);
  }

  lemma TaskReflects(l: Locals, history: seq<Msg>, m: Msg, t: string)
    requires t in l.tasks <==> Tracked(history, t)
    ensures t in ObserveMessage(l, m).tasks <==> Tracked(history + [m], t)
  {
    var longer := history + [m];
    assert longer[..|history|] == history && longer[|history|] == m;
  }

  lemma HookReflects(l: Locals, history: seq<Msg>, m: Msg)
    requires l.stopHookHolds == HookHolds(history)
    ensures ObserveMessage(l, m).stopHookHolds == HookHolds(history + [m])
  {
    var longer := history + [m];
    assert longer[..|history|] == history && longer[|history|] == m;
  }

  // ---- The run shared by all tasks ----

  /** Who holds the lock on the client, and how far it got. */
  datatype Holder = Free | Checking(id: string) | Writing(id: string) | Ender | Closer

  /** `close` and `finish`: swap the closed flag, store the ended flag, lock, drop the pipe. */
  datatype CloseStage = NotClosing | Swapped | Stored | Locked | Closed

  /** The control handle: its lock, its two flags, and the pipe behind it. */
  datatype Control = Control(lock: Holder, closing: CloseStage, inputEnded: bool, stdinOpen: bool)

  predicate IsClosed(c: Control) {
    !c.closing.NotClosing?
  }

  /** `end_input`: look at the closed flag, lock, look again, swap the ended flag, close the pipe. */
  datatype EndStage = ToLook | ToLock | ToCheck | ToSwap | ToPipe

  datatype Phase = Reading | Closing(stage: EndStage) | Finished

  datatype State = State(
    queue: Option<seq<Marker>>,      // the run's entry in run_pending_inputs
    control: Control,
    phase: Phase, locals: Locals, history: seq<Msg>,
    sending: multiset<string>,       // enqueued, not yet handed to the SDK
    failing: multiset<string>,       // refused by the SDK, not yet rolled back
    // bookkeeping
    enqueued: multiset<string>, acked: multiset<string>, rolled: multiset<string>,
    accepted: multiset<string>, refused: multiset<string>, written: seq<string>,
    dropped: multiset<string>,       // still queued when an abort removed the queue
    gateCloses: nat)

  const START := State(Some([Root]), Control(Free, NotClosing, false, true), Reading, FRESH_LOOP, [],
                       multiset{}, multiset{}, multiset{}, multiset{}, multiset{}, multiset{}, multiset{}, [],
                       multiset{}, 0)

  datatype Step =
    | Message(m: Msg)            // the loop handles one message
    | DrainEnds                  // the post-result window passes without a message
    | EndInput(ok: bool)         // the next stage of the loop's end_input; `ok` is the pipe's answer
    | LoopEnds                   // end of stream, stream error or idle timeout
    | Add(id: string)            // add_streaming_input enqueues its input
    | SendRefused(id: string)    // ... finds the run closed before it locks
    | SendLocks(id: string)      // ... locks the client
    | SendChecks                 // ... looks at both flags
    | SendWrites(ok: bool)       // ... and writes
    | Rollback(id: string)       // ... or takes its input back
    | Unregister                 // abort, stale-run cleanup or end of the attempt
    | Close                      // the next stage of close or finish

  function Handle(s: State, m: Msg): State {
    var s1 := s.(locals := ObserveMessage(s.locals, m), history := s.history + [m]);
    if m.UserEcho? && s.queue.Some? then
      var (id, markers) := Acknowledged(s.queue.value, s.locals.activity);
      s1.(queue := Some(markers), acked := s.acked + (if id.Some? then multiset{id.value} else multiset{}))
    else s1
  }

  /** The emptiness check and the removal of the queue are one step. */
  function ClosedIfEmpty(s: State): State {
    if s.queue.Some? && HasQueued(s.queue.value) then Handle(s, DrainRefused)
    else s.(queue := None, phase := Closing(ToLook))
  }

  function Hold(s: State, lock: Holder): State {
    s.(control := s.control.(lock := lock))
  }

  /** What the stages of `end_input` touch: the handle, the loop's place in it, whether the loop
      takes its input as ended, and how often it closed the pipe. */
  datatype Gate = Gate(control: Control, phase: Phase, ended: bool, closes: nat)

  function GateOf(s: State): Gate {
    Gate(s.control, s.phase, s.locals.inputEnded, s.gateCloses)
  }

  function WithLock(g: Gate, lock: Holder, phase: Phase): Gate {
    g.(control := g.control.(lock := lock), phase := phase)
  }

  /** Whoever comes second after a concurrent close leaves the pipe to it; a pipe that fails to
      close takes the flag back. */
  function EndStep(g: Gate, ok: bool): Gate {
    match g.phase
    case Closing(ToLook) => g.(phase := if IsClosed(g.control) then Finished else Closing(ToLock))
    case Closing(ToLock) => if g.control.lock.Free? then WithLock(g, Ender, Closing(ToCheck)) else g
    case Closing(ToCheck) => if IsClosed(g.control) then WithLock(g, Free, Finished) else g.(phase := Closing(ToSwap))
    case Closing(ToSwap) =>
      if g.control.inputEnded then WithLock(g, Free, Reading).(ended := true)
      else g.(control := g.control.(inputEnded := true), phase := Closing(ToPipe))
    case Closing(ToPipe) =>
      if ok then Gate(g.control.(stdinOpen := false, lock := Free), Reading, true, g.closes + 1)
      else g.(control := g.control.(inputEnded := false, lock := Free), phase := Finished)
    case _ => g
  }

  function TakeEndInput(s: State, ok: bool): State {
    var g := EndStep(GateOf(s), ok);
    s.(control := g.control, phase := g.phase, locals := s.locals.(inputEnded := g.ended), gateCloses := g.closes)
  }

  function TakeClose(c: Control): Control {
    match c.closing
    case NotClosing => c.(closing := Swapped)
    case Swapped => c.(closing := Stored, inputEnded := true)
    case Stored => if c.lock.Free? then c.(closing := Locked, lock := Closer) else c
    case Locked => c.(closing := Closed, lock := Free, stdinOpen := false)
    case Closed => c
  }

  function TakeAdd(s: State, id: string): State {
    if s.queue.None? || Trim(id) == [] then s
    else
      s.(queue := Some(s.queue.value + [Queued(id)]), enqueued := s.enqueued + multiset{id},
         sending := s.sending + multiset{id})
  }

  /** What the sender holding the lock sends. */
  function InHand(lock: Holder): multiset<string> {
    match lock
    case Checking(id) => multiset{id}
    case Writing(id) => multiset{id}
    case _ => multiset{}
  }

  function TakeSend(s: State, step: Step): State {
    match step
    case SendRefused(id) =>
      if id !in s.sending || !IsClosed(s.control) then s
      else s.(sending := s.sending - multiset{id}, failing := s.failing + multiset{id})
    case SendLocks(id) =>
      if id !in s.sending || !s.control.lock.Free? then s
      else Hold(s, Checking(id)).(sending := s.sending - multiset{id})
    case SendChecks =>
      if !s.control.lock.Checking? then s
      else if IsClosed(s.control) || s.control.inputEnded then
        Hold(s, Free).(failing := s.failing + InHand(s.control.lock))
      else Hold(s, Writing(s.control.lock.id))
    case SendWrites(ok) =>
      if !s.control.lock.Writing? then s
      else if ok && s.control.stdinOpen then
        Hold(s, Free).(accepted := s.accepted + InHand(s.control.lock), written := s.written + [s.control.lock.id])
      else Hold(s, Free).(failing := s.failing + InHand(s.control.lock))
    case _ => s
  }

  function TakeRollback(s: State, id: string): State {
    if id !in s.failing then s
    else
      var s1 := s.(failing := s.failing - multiset{id}, refused := s.refused + multiset{id});
      if s.queue.Some? && Queued(id) in s.queue.value then
        s1.(queue := Some(Rolled(s.queue.value, id)), rolled := s.rolled + multiset{id})
      else s1
  }

  function Take(s: State, step: Step): State {
    match step
    case Message(m) => if s.phase.Reading? && !m.DrainRefused? then Handle(s, m) else s
    case DrainEnds => if s.phase.Reading? && WaitingToEndInput(s.locals) then ClosedIfEmpty(s) else s
    case EndInput(ok) => TakeEndInput(s, ok)
    case LoopEnds => if s.phase.Reading? then s.(phase := Finished) else s
    case Add(id) => TakeAdd(s, id)
    case SendRefused(_) => TakeSend(s, step)
    case SendLocks(_) => TakeSend(s, step)
    case SendChecks => TakeSend(s, step)
    case SendWrites(_) => TakeSend(s, step)
    case Rollback(id) => TakeRollback(s, id)
    case Unregister => s.(queue := None, dropped := s.dropped + QueuedIds(s.queue))
    case Close => s.(control := TakeClose(s.control))
  }

  function Taker(): (State, Step) -> State {
    (s: State, step: Step) => Take(s, step)
  }

  // ---- What every step keeps ----

  function IdsOf(markers: seq<Marker>): multiset<string> {
    if markers == [] then multiset{}
    else (if markers[0].Queued? then multiset{markers[0].id} else multiset{}) + IdsOf(markers[1..])
  }

  /** The inputs waiting in the run's queue, if it still has one. */
  function QueuedIds(queue: Option<seq<Marker>>): multiset<string> {
    match queue case None => multiset{} case Some(markers) => IdsOf(markers)
  }

  lemma {:induction false} IdsOfAppend(a: seq<Marker>, b: seq<Marker>)
    ensures IdsOf(a + b) == IdsOf(a) + IdsOf(b)
  {
    if a == [] {
      assert a + b == b;
    } else {
      IdsOfAppend(a[1..], b);
      assert (a + b)[1..] == a[1..] + b && (a + b)[0] == a[0];
      var first := if a[0].Queued? then multiset{a[0].id} else multiset{};
      assert IdsOf(a + b) == first + IdsOf(a[1..] + b);
      Associate(first, IdsOf(a[1..]), IdsOf(b));
    }
  }

  lemma Associate(a: multiset<string>, b: multiset<string>, c: multiset<string>)
    ensures (a + b) + c == a + (b + c)
  {
  }

  lemma {:induction false} NothingQueued(markers: seq<Marker>)
    requires !HasQueued(markers)
    ensures IdsOf(markers) == multiset{}
  {
    if markers != [] {
      assert !markers[0].Queued?;
      forall i | 0 <= i < |markers[1..]|
        ensures !markers[1..][i].Queued?
      {
        assert markers[1..][i] == markers[i + 1];
      }
      NothingQueued(markers[1..]);
    }
  }

  lemma AckTakesOne(markers: seq<Marker>, prefer: bool)
    ensures var (id, rest) := Acknowledged(markers, prefer);
            IdsOf(markers) == (if id.Some? then multiset{id.value} else multiset{}) + IdsOf(rest)
  {
  }

  lemma IdsOfMiddle(a: seq<Marker>, id: string, b: seq<Marker>)
    ensures IdsOf(a + ([Queued(id)] + b)) == multiset{id} + IdsOf(a + b)
  {
    IdsOfAppend(a, [Queued(id)] + b);
    assert ([Queued(id)] + b)[1..] == b;
    IdsOfAppend(a, b);
  }

  lemma RollbackTakesOne(markers: seq<Marker>, id: string)
    requires Queued(id) in markers
    ensures IdsOf(markers) == multiset{id} + IdsOf(Rolled(markers, id))
  {
    var i := IndexOf(markers, Queued(id));
    var a, b := markers[..i], markers[i + 1..];
    IdsOfMiddle(a, id, b);
    assert markers == a + ([Queued(id)] + b);
    assert Rolled(markers, id) == a + b;
  }

  /** Every input put in the queue is still there, acknowledged, rolled back, or was dropped with
      the queue by an abort. */
  ghost predicate QueueBooks(s: State) {
    s.enqueued == s.acked + s.rolled + s.dropped + QueuedIds(s.queue)
  }

  /** Every input is with its sender, accepted, failing or refused, and only refused ones were
      rolled back. */
  ghost predicate CallBooks(s: State) {
    s.enqueued == s.sending + InHand(s.control.lock) + s.accepted + s.failing + s.refused && s.rolled <= s.refused
  }

  ghost predicate Books(s: State) {
    QueueBooks(s) && CallBooks(s)
  }

  /** The lock is held by whoever is between its lock and its unlock. */
  predicate LockKept(c: Control, phase: Phase) {
    && (c.lock.Ender? <==> phase.Closing? && !phase.stage.ToLook? && !phase.stage.ToLock?)
    && (c.lock.Closer? <==> c.closing.Locked?)
    && (phase == Closing(ToPipe) ==> c.inputEnded)
  }

  /** Once the loop takes its input as ended, the handle has it ended, and nobody is writing. */
  predicate EndKept(g: Gate) {
    && g.closes <= (if g.ended then 1 else 0)
    && (g.closes > 0 ==> !g.control.stdinOpen)
    && (g.ended ==> g.control.inputEnded && !g.phase.Closing? && !g.control.lock.Writing?)
  }

  /** The pipe is dropped by the gate or at the end of a close, and never under a writer. */
  predicate PipeKept(g: Gate) {
    && (!g.control.stdinOpen ==> g.closes > 0 || g.control.closing.Closed?)
    && (g.control.lock.Writing? ==> g.control.stdinOpen)
  }

  predicate GateKept(g: Gate) {
    LockKept(g.control, g.phase) && EndKept(g) && PipeKept(g)
  }

  /** The loop ends its input only on the gate's condition, once its queue is gone. */
  predicate QueueGone(s: State) {
    && (s.phase.Closing? ==> WaitingToEndInput(s.locals) && s.queue.None?)
    && (s.locals.inputEnded ==> s.queue.None?)
  }

  ghost predicate Controlled(s: State) {
    Reflects(s.locals, s.history) && GateKept(GateOf(s)) && QueueGone(s)
  }

  lemma HandleFrame(s: State, m: Msg)
    ensures var t := Handle(s, m);
            && (s.queue.None? <==> t.queue.None?) && t.phase == s.phase && t.gateCloses == s.gateCloses
            && t.enqueued == s.enqueued && t.written == s.written && t.accepted == s.accepted
            && t.control == s.control && t.locals.inputEnded == s.locals.inputEnded
            && t.locals == ObserveMessage(s.locals, m) && t.history == s.history + [m]
  {
    assert ObserveMessage(s.locals, m).inputEnded == s.locals.inputEnded;
  }

  lemma HandleKeeps(s: State, m: Msg)
    ensures Books(s) ==> Books(Handle(s, m))
    ensures Controlled(s) && s.phase.Reading? ==> Controlled(Handle(s, m))
  {
    HandleFrame(s, m);
    if s.queue.Some? {
      var (id, rest) := Acknowledged(s.queue.value, s.locals.activity);
      AckTakesOne(s.queue.value, s.locals.activity);
      AckedMoves(s.acked, s.rolled, s.dropped, IdsOf(rest), if id.Some? then multiset{id.value} else multiset{});
    }
    if Controlled(s) {
      ObserveReflects(s.locals, s.history, m);
    }
  }

  lemma TryCloseKeeps(s: State)
    requires s.phase.Reading? && WaitingToEndInput(s.locals)
    ensures Books(s) ==> Books(ClosedIfEmpty(s))
    ensures Controlled(s) ==> Controlled(ClosedIfEmpty(s))
  {
    if s.queue.Some? {
      if HasQueued(s.queue.value) {
        HandleKeeps(s, DrainRefused);
      } else {
        NothingQueued(s.queue.value);
      }
    }
  }

  lemma OneQueued(id: string)
    ensures IdsOf([Queued(id)]) == multiset{id}
  {
    assert [Queued(id)][1..] == [];
  }

  lemma AddQueueBooks(s: State, id: string)
    requires QueueBooks(s)
    ensures QueueBooks(TakeAdd(s, id))
  {
    if s.queue.Some? {
      IdsOfAppend(s.queue.value, [Queued(id)]);
      OneQueued(id);
      Associate(s.acked + s.rolled + s.dropped, IdsOf(s.queue.value), multiset{id});
    }
  }

  lemma AddCallBooks(s: State, id: string)
    requires CallBooks(s)
    ensures CallBooks(TakeAdd(s, id))
  {
  }

  lemma AddControlled(s: State, id: string)
    requires Controlled(s)
    ensures Controlled(TakeAdd(s, id))
  {
  }

  lemma RollbackControlled(s: State, id: string)
    requires Controlled(s)
    ensures Controlled(TakeRollback(s, id))
  {
  }

  lemma RolledMoves(a: multiset<string>, r: multiset<string>, d: multiset<string>, q: multiset<string>, x: multiset<string>)
    ensures a + (r + x) + d + q == a + r + d + (x + q)
  {
  }

  lemma AckedMoves(a: multiset<string>, r: multiset<string>, d: multiset<string>, q: multiset<string>, x: multiset<string>)
    ensures (a + x) + r + d + q == a + r + d + (x + q)
  {
  }

  lemma RollbackQueueBooks(s: State, id: string)
    requires QueueBooks(s)
    ensures QueueBooks(TakeRollback(s, id))
  {
    if s.queue.Some? && Queued(id) in s.queue.value {
      RollbackTakesOne(s.queue.value, id);
      var left := IdsOf(Rolled(s.queue.value, id));
      RolledMoves(s.acked, s.rolled, s.dropped, left, multiset{id});
    }
  }

  lemma RollbackCallBooks(s: State, id: string)
    requires CallBooks(s)
    ensures CallBooks(TakeRollback(s, id))
  {
    if id in s.failing {
      var open := s.sending + InHand(s.control.lock) + s.accepted;
      Associate(open, s.failing, s.refused);
      Associate(open, s.failing - multiset{id}, s.refused + multiset{id});
    }
  }

  lemma SendingMoves(a: multiset<string>, h: multiset<string>, c: multiset<string>, f: multiset<string>, r: multiset<string>,
                     x: multiset<string>)
    requires x <= a
    ensures (a - x) + h + c + (f + x) + r == a + h + c + f + r
    ensures h == multiset{} ==> (a - x) + x + c + f + r == a + h + c + f + r
  {
  }

  lemma HandMoves(a: multiset<string>, h: multiset<string>, c: multiset<string>, f: multiset<string>, r: multiset<string>)
    ensures a + multiset{} + c + (f + h) + r == a + h + c + f + r
    ensures a + multiset{} + (c + h) + f + r == a + h + c + f + r
  {
  }

  lemma RefuseBooks(s: State, id: string)
    requires CallBooks(s)
    ensures CallBooks(TakeSend(s, SendRefused(id)))
  {
    if id in s.sending {
      SendingMoves(s.sending, InHand(s.control.lock), s.accepted, s.failing, s.refused, multiset{id});
    }
  }

  lemma LockBooks(s: State, id: string)
    requires CallBooks(s)
    ensures CallBooks(TakeSend(s, SendLocks(id)))
  {
    if id in s.sending {
      SendingMoves(s.sending, InHand(s.control.lock), s.accepted, s.failing, s.refused, multiset{id});
    }
  }

  lemma CheckBooks(s: State)
    requires CallBooks(s)
    ensures CallBooks(TakeSend(s, SendChecks))
  {
    HandMoves(s.sending, InHand(s.control.lock), s.accepted, s.failing, s.refused);
  }

  lemma WriteBooks(s: State, ok: bool)
    requires CallBooks(s)
    ensures CallBooks(TakeSend(s, SendWrites(ok)))
  {
    HandMoves(s.sending, InHand(s.control.lock), s.accepted, s.failing, s.refused);
  }

  lemma SendFrame(s: State, step: Step)
    ensures var t := TakeSend(s, step);
            && t.queue == s.queue && t.enqueued == s.enqueued && t.acked == s.acked && t.rolled == s.rolled
            && t.dropped == s.dropped && t.locals == s.locals && t.history == s.history && t.phase == s.phase
            && t.gateCloses == s.gateCloses && t.control == s.control.(lock := t.control.lock)
  {
  }

  lemma SendLock(s: State, step: Step)
    ensures var l, r := TakeSend(s, step).control.lock, s.control.lock;
            || l == r
            || (r.Free? && l.Checking?)
            || (r.Checking? && l.Writing? && !IsClosed(s.control) && !s.control.inputEnded)
            || ((r.Checking? || r.Writing?) && l.Free?)
  {
  }

  lemma SendGate(s: State, step: Step)
    requires GateKept(GateOf(s))
    ensures GateKept(GateOf(TakeSend(s, step)))
  {
    SendFrame(s, step);
    SendLock(s, step);
  }

  lemma SendKeeps(s: State, step: Step)
    requires Books(s) && Controlled(s)
    requires step.SendRefused? || step.SendLocks? || step.SendChecks? || step.SendWrites?
    ensures Books(TakeSend(s, step)) && Controlled(TakeSend(s, step))
  {
    match step {
      case SendRefused(id) => RefuseBooks(s, id);
      case SendLocks(id) => LockBooks(s, id);
      case SendChecks => CheckBooks(s);
      case SendWrites(ok) => WriteBooks(s, ok);
    }
    SendFrame(s, step);
    SendGate(s, step);
  }

  /** Neither the gate's stages nor those of a close touch the books. */
  lemma ControlFrame(s: State, t: State)
    requires Books(s) && InHand(t.control.lock) == InHand(s.control.lock)
    requires t.queue == s.queue && t.dropped == s.dropped && t.enqueued == s.enqueued && t.acked == s.acked
    requires t.rolled == s.rolled && t.sending == s.sending && t.accepted == s.accepted && t.failing == s.failing
    requires t.refused == s.refused
    ensures Books(t)
  {
  }

  lemma EndStepHand(g: Gate, ok: bool)
    requires LockKept(g.control, g.phase)
    ensures InHand(EndStep(g, ok).control.lock) == InHand(g.control.lock)
  {
  }

  lemma EndStepLock(g: Gate, ok: bool)
    requires LockKept(g.control, g.phase)
    ensures var h := EndStep(g, ok); LockKept(h.control, h.phase)
  {
  }

  lemma EndStepEnd(g: Gate, ok: bool)
    requires GateKept(g) && (g.phase.Closing? ==> !g.ended)
    ensures EndKept(EndStep(g, ok))
  {
  }

  lemma EndStepPipe(g: Gate, ok: bool)
    requires GateKept(g)
    ensures PipeKept(EndStep(g, ok))
  {
  }

  lemma EndStepFlags(g: Gate, ok: bool)
    requires g.phase.Closing? ==> !g.ended
    ensures var h := EndStep(g, ok);
            (h.phase.Closing? ==> g.phase.Closing? && !h.ended) && (h.ended ==> g.ended || g.phase.Closing?)
  {
  }

  lemma EndStepKeeps(g: Gate, ok: bool)
    requires GateKept(g) && (g.phase.Closing? ==> !g.ended)
    ensures GateKept(EndStep(g, ok))
  {
    EndStepLock(g, ok);
    EndStepEnd(g, ok);
    EndStepPipe(g, ok);
  }

  lemma EndInputKeeps(s: State, ok: bool)
    requires Books(s) && Controlled(s)
    ensures Books(TakeEndInput(s, ok)) && Controlled(TakeEndInput(s, ok))
  {
    var t := TakeEndInput(s, ok);
    EndStepKeeps(GateOf(s), ok);
    EndStepHand(GateOf(s), ok);
    EndStepFlags(GateOf(s), ok);
    assert GateOf(t) == EndStep(GateOf(s), ok);
    ControlFrame(s, t);
    assert Reflects(t.locals, t.history);
  }

  lemma TakeCloseHand(c: Control)
    requires c.lock.Closer? <==> c.closing.Locked?
    ensures InHand(TakeClose(c).lock) == InHand(c.lock)
  {
  }

  lemma TakeCloseLock(c: Control, phase: Phase)
    requires LockKept(c, phase)
    ensures LockKept(TakeClose(c), phase)
  {
  }

  lemma TakeCloseEnd(g: Gate)
    requires GateKept(g)
    ensures EndKept(g.(control := TakeClose(g.control)))
  {
  }

  lemma TakeClosePipe(g: Gate)
    requires GateKept(g)
    ensures PipeKept(g.(control := TakeClose(g.control)))
  {
  }

  lemma CloseKeeps(s: State)
    requires Books(s) && Controlled(s)
    ensures var t := s.(control := TakeClose(s.control)); Books(t) && Controlled(t)
  {
    TakeCloseHand(s.control);
    TakeCloseLock(s.control, s.phase);
    TakeCloseEnd(GateOf(s));
    TakeClosePipe(GateOf(s));
    assert GateOf(s).(control := TakeClose(s.control)) == GateOf(s.(control := TakeClose(s.control)));
    ControlFrame(s, s.(control := TakeClose(s.control)));
  }

  lemma TakeKeeps(s: State, step: Step)
    requires Books(s) && Controlled(s)
    ensures Books(Take(s, step)) && Controlled(Take(s, step))
  {
    match step
    case Message(m) => HandleKeeps(s, m);
    case DrainEnds => if s.phase.Reading? && WaitingToEndInput(s.locals) { TryCloseKeeps(s); }
    case EndInput(ok) => EndInputKeeps(s, ok);
    case Add(id) => AddQueueBooks(s, id); AddCallBooks(s, id); AddControlled(s, id);
    case Rollback(id) => RollbackControlled(s, id); RollbackQueueBooks(s, id); RollbackCallBooks(s, id);
    case Close => CloseKeeps(s);
    case Unregister =>
    case LoopEnds =>
    case _ => SendKeeps(s, step);
  }

  lemma Reached(steps: seq<Step>)
    ensures var s := Exec(Taker(), START, steps); Books(s) && Controlled(s)
  {
    var inv := (s: State) => Books(s) && Controlled(s);
    forall s, step | inv(s)
      ensures inv(Taker()(s, step))
    {
      TakeKeeps(s, step);
    }
    assert IdsOf([Root]) == multiset{} by {
      assert [Root][1..] == [];
    }
    ExecKeeps(Taker(), inv, START, steps);
  }

  // ---- The gate ----

  /** In every interleaving, when the gate closes standard input it does so for the first time;
      a result is the latest turn-relevant message, no background task is tracked and the last
      stop-hook snapshot reports none; and nobody is in the middle of a write. Every input
      accepted so far, and every one still on its way, is then already acknowledged if and only
      if every input that an abort has dropped with the queue was refused and taken back; so it
      always is when no abort has unregistered the run. */
  lemma GateClosesSafely(steps: seq<Step>, step: Step)
    ensures var s := Exec(Taker(), START, steps);
            var t := Take(s, step);
            t.gateCloses > s.gateCloses ==>
              && s.gateCloses == 0 && t.gateCloses == 1 && !t.control.stdinOpen
              && ResultIsLatest(s.history)
              && (forall id :: !Tracked(s.history, id))
              && !HookHolds(s.history)
              && s.control.lock.Ender?
              && (s.accepted + s.sending + s.failing <= s.acked <==> s.rolled + s.dropped <= s.refused)
              && (s.dropped == multiset{} ==> s.accepted + s.sending + s.failing <= s.acked)
  {
    Reached(steps);
    var s := Exec(Taker(), START, steps);
    OnlyEndInputCloses(s, step);
    if s.phase.Closing? && s.control.lock.Ender? {
      AckedCoversAccepted(s);
    }
  }

  lemma OnlyEndInputCloses(s: State, step: Step)
    ensures Take(s, step).gateCloses > s.gateCloses ==> step == EndInput(true) && s.phase == Closing(ToPipe)
  {
    match step
    case Message(m) => HandleFrame(s, m);
    case DrainEnds => HandleFrame(s, DrainRefused);
    case _ =>
  }

  lemma AckedCoversAccepted(s: State)
    requires Books(s) && s.queue.None? && InHand(s.control.lock) == multiset{}
    ensures s.accepted + s.sending + s.failing <= s.acked <==> s.rolled + s.dropped <= s.refused
    ensures s.dropped == multiset{} ==> s.accepted + s.sending + s.failing <= s.acked
  {
    forall id
      ensures s.accepted[id] + s.sending[id] + s.failing[id] + s.refused[id] == s.acked[id] + s.rolled[id] + s.dropped[id]
    {
      CountedTwice(s, id);
    }
    Sums(s.accepted, s.sending, s.failing);
    assert forall id :: s.rolled[id] <= s.refused[id];
  }

  lemma Sums(a: multiset<string>, b: multiset<string>, c: multiset<string>)
    ensures forall id :: (a + b + c)[id] == a[id] + b[id] + c[id]
  {
  }

  /** Both books count the same inputs. */
  lemma CountedTwice(s: State, id: string)
    requires Books(s) && s.queue.None? && InHand(s.control.lock) == multiset{}
    ensures s.accepted[id] + s.sending[id] + s.failing[id] + s.refused[id] == s.acked[id] + s.rolled[id] + s.dropped[id]
  {
    assert s.enqueued[id] == s.acked[id] + s.rolled[id] + s.dropped[id];
    assert s.enqueued[id] == s.sending[id] + InHand(s.control.lock)[id] + s.accepted[id] + s.failing[id] + s.refused[id];
  }

  lemma TakeWithoutQueue(s: State, step: Step)
    requires s.queue.None?
    ensures var t := Take(s, step); t.queue.None? && t.enqueued == s.enqueued
  {
    match step
    case Message(m) => HandleFrame(s, m);
    case _ =>
  }

  /** Once the queue is gone, whatever steps follow, no enqueue for the run succeeds. */
  lemma NoEnqueueAfterRemoval(s: State, steps: seq<Step>)
    requires s.queue.None?
    ensures var t := Exec(Taker(), s, steps); t.queue.None? && t.enqueued == s.enqueued
  {
    var inv := (t: State) => t.queue.None? && t.enqueued == s.enqueued;
    forall t, step | inv(t)
      ensures inv(Taker()(t, step))
    {
      TakeWithoutQueue(t, step);
    }
    ExecKeeps(Taker(), inv, s, steps);
  }

  ghost predicate InputOver(s: State) {
    s.locals.inputEnded && EndKept(GateOf(s)) && s.queue.None?
  }

  lemma TakeAfterEnd(s: State, step: Step)
    requires InputOver(s)
    ensures var t := Take(s, step);
            InputOver(t) && t.gateCloses == s.gateCloses && t.written == s.written && t.accepted == s.accepted
            && t.enqueued == s.enqueued
  {
    match step
    case Message(m) => HandleFrame(s, m);
    case _ =>
  }

  /** Once the loop has ended its input, by closing the pipe or because a concurrent close does,
      then whatever steps follow, the gate closes nothing again and nothing more is written,
      accepted, or put in the queue. */
  lemma AfterTheGate(before: seq<Step>, after: seq<Step>)
    requires Exec(Taker(), START, before).locals.inputEnded || Exec(Taker(), START, before).gateCloses > 0
    ensures var s := Exec(Taker(), START, before);
            var t := Exec(Taker(), s, after);
            && t.gateCloses == s.gateCloses <= 1
            && t.written == s.written && t.accepted == s.accepted && t.enqueued == s.enqueued
  {
    Reached(before);
    var s := Exec(Taker(), START, before);
    var inv := (t: State) =>
      InputOver(t) && t.gateCloses == s.gateCloses
      && t.written == s.written && t.accepted == s.accepted && t.enqueued == s.enqueued;
    forall t, step | inv(t)
      ensures inv(Taker()(t, step))
    {
      TakeAfterEnd(t, step);
    }
    ExecKeeps(Taker(), inv, s, after);
  }

  const ACCEPTED_ONE :=
    START.(queue := Some([Root, Queued("a")]), enqueued := multiset{"a"}, accepted := multiset{"a"}, written := ["a"])

  const ADDED_ONE := START.(queue := Some([Root, Queued("a")]), enqueued := multiset{"a"}, sending := multiset{"a"})

  lemma AddOne()
    ensures Take(START, Add("a")) == ADDED_ONE
  {
    TrimFixed("a");
    assert [Root] + [Queued("a")] == [Root, Queued("a")];
  }

  lemma LockOne()
    ensures Take(ADDED_ONE, SendLocks("a")) == Hold(ADDED_ONE, Checking("a")).(sending := multiset{})
  {
  }

  lemma WriteOne()
    ensures var s := Hold(ADDED_ONE, Writing("a")).(sending := multiset{}); Take(s, SendWrites(true)) == ACCEPTED_ONE
  {
  }

  /** One input is sent, with nobody in between. */
  lemma AcceptOne() returns (steps: seq<Step>)
    ensures Exec(Taker(), START, steps) == ACCEPTED_ONE
  {
    AddOne();
    LockOne();
    WriteOne();
    var s := Hold(ADDED_ONE, Checking("a")).(sending := multiset{});
    steps := Then([], START, Add("a"));
    steps := Then(steps, ADDED_ONE, SendLocks("a"));
    steps := Then(steps, s, SendChecks);
    steps := Then(steps, Hold(s, Writing("a")), SendWrites(true));
  }

  lemma Then(steps: seq<Step>, s: State, step: Step) returns (longer: seq<Step>)
    requires Exec(Taker(), START, steps) == s
    ensures Exec(Taker(), START, longer) == Take(s, step)
  {
    ExecSnoc(Taker(), START, steps, step);
    longer := steps + [step];
  }

  function AfterAbort(s: State): State {
    s.(locals := s.locals.(resultSeen := true), history := s.history + [TurnResult], queue := None, dropped := multiset{"a"})
  }

  /** The gate's own stages, with nobody in between. */
  lemma EndInputAlone(steps: seq<Step>, s: State) returns (longer: seq<Step>, t: State)
    requires Exec(Taker(), START, steps) == s && s.phase == Closing(ToLook)
    requires s.control == Control(Free, NotClosing, false, true)
    ensures Exec(Taker(), START, longer) == t
    ensures t.gateCloses == s.gateCloses + 1 && t.accepted == s.accepted && t.acked == s.acked
    ensures t.refused == s.refused && t.dropped == s.dropped
  {
    var s1 := s.(phase := Closing(ToLock));
    var s2 := Hold(s, Ender).(phase := Closing(ToCheck));
    var s3 := s2.(phase := Closing(ToSwap));
    var s4 := s3.(control := s3.control.(inputEnded := true), phase := Closing(ToPipe));
    longer := Then(steps, s, EndInput(true));
    longer := Then(longer, s1, EndInput(true));
    longer := Then(longer, s2, EndInput(true));
    longer := Then(longer, s3, EndInput(true));
    longer := Then(longer, s4, EndInput(true));
    t := Take(s4, EndInput(true));
  }

  /** The other case is real: an abort that has unregistered the run, but not closed it yet, lets
      the gate close standard input on an input that was accepted, dropped and never acknowledged. */
  lemma AbortLosesTheAck()
    ensures exists steps ::
              var s := Exec(Taker(), START, steps);
              s.gateCloses == 1 && s.accepted == multiset{"a"} == s.dropped && s.acked == multiset{} == s.refused
  {
    var steps := AcceptOne();
    var s := ACCEPTED_ONE;
    var seen := Handle(s, TurnResult);
    var gone := AfterAbort(s);
    assert QueuedIds(seen.queue) == multiset{"a"} by {
      assert [Root, Queued("a")][1..] == [Queued("a")] && [Queued("a")][1..] == [];
    }
    assert Take(seen, Unregister) == gone;
    steps := Then(steps, s, Message(TurnResult));
    steps := Then(steps, seen, Unregister);
    steps := Then(steps, gone, DrainEnds);
    assert ClosedIfEmpty(gone) == gone.(phase := Closing(ToLook));
    var t;
    steps, t := EndInputAlone(steps, gone.(phase := Closing(ToLook)));
  }

  // ---- What the gate does when it may ----

  /** Some task is alive, as far as the history says. */
  ghost predicate SomeTaskAlive(history: seq<Msg>) {
    exists t :: IsTracked(history, t)
  }

  predicate IsTracked(history: seq<Msg>, t: string) {
    Tracked(history, t)
  }

  lemma NoneTracked(l: Locals, history: seq<Msg>)
    requires Reflects(l, history)
    ensures l.tasks == {} <==> !SomeTaskAlive(history)
  {
    forall t
      ensures IsTracked(history, t) <==> t in l.tasks
    {
      assert t in l.tasks <==> Tracked(history, t);
    }
    if l.tasks != {} {
      var t :| t in l.tasks;
      assert IsTracked(history, t);
    }
  }

  /** The gate may end the input, as far as the history says. */
  ghost predicate MayEnd(s: State) {
    && s.phase.Reading? && !s.locals.inputEnded
    && ResultIsLatest(s.history) && !SomeTaskAlive(s.history) && !HookHolds(s.history)
  }

  /** Every input that was ever put in the queue is acknowledged, rolled back, or was dropped. */
  predicate AllSettled(s: State) {
    s.enqueued == s.acked + s.rolled + s.dropped
  }

  lemma {:induction false} SomethingQueued(markers: seq<Marker>, i: nat)
    requires i < |markers| && markers[i].Queued?
    ensures markers[i].id in IdsOf(markers)
  {
    if i > 0 {
      SomethingQueued(markers[1..], i - 1);
    }
  }

  lemma SettledHasNoneQueued(s: State)
    requires QueueBooks(s)
    ensures AllSettled(s) <==> s.queue.None? || !HasQueued(s.queue.value)
  {
    if s.queue.Some? {
      if HasQueued(s.queue.value) {
        var i: nat :| i < |s.queue.value| && s.queue.value[i].Queued?;
        SomethingQueued(s.queue.value, i);
        assert s.enqueued[s.queue.value[i].id] > (s.acked + s.rolled + s.dropped)[s.queue.value[i].id];
      } else {
        NothingQueued(s.queue.value);
      }
    }
  }

  lemma MayEndWaits(s: State)
    requires Controlled(s)
    ensures MayEnd(s) <==> s.phase.Reading? && WaitingToEndInput(s.locals)
  {
    NoneTracked(s.locals, s.history);
  }

  /** What the end of the post-result window decides, in every interleaving: nothing unless the
      history lets the input end; if it does, the queue goes and the closing starts when every
      input is settled, and otherwise the gate waits for another result. */
  lemma DrainEndsDecides(steps: seq<Step>)
    ensures var s := Exec(Taker(), START, steps);
            var t := Take(s, DrainEnds);
            if !MayEnd(s) then t == s
            else if AllSettled(s) then t == s.(queue := None, phase := Closing(ToLook))
            else
              && t.phase.Reading? && !MayEnd(t) && t.history == s.history + [DrainRefused]
              && t.queue == s.queue && t.control == s.control && AllSettled(t) == AllSettled(s)
  {
    var s := Exec(Taker(), START, steps);
    Reached(steps);
    MayEndWaits(s);
    SettledHasNoneQueued(s);
    if MayEnd(s) && !AllSettled(s) {
      HandleFrame(s, DrainRefused);
      HandleKeeps(s, DrainRefused);
      MayEndWaits(Handle(s, DrainRefused));
    }
  }

  /** The handle's flag is the loop's own, or that of a close. */
  predicate FlagKept(g: Gate) {
    g.control.inputEnded ==> g.ended || IsClosed(g.control) || g.phase == Closing(ToPipe)
  }

  lemma FlagStays(s: State, step: Step)
    requires FlagKept(GateOf(s)) && (s.phase == Closing(ToPipe) ==> !s.locals.inputEnded)
    ensures FlagKept(GateOf(Take(s, step)))
  {
    match step
    case Message(m) => HandleFrame(s, m);
    case DrainEnds => HandleFrame(s, DrainRefused);
    case _ =>
  }

  lemma FlagReached(steps: seq<Step>)
    ensures var s := Exec(Taker(), START, steps); Books(s) && Controlled(s) && FlagKept(GateOf(s))
  {
    var inv := (s: State) => Books(s) && Controlled(s) && FlagKept(GateOf(s));
    forall s, step | inv(s)
      ensures inv(Taker()(s, step))
    {
      TakeKeeps(s, step);
      FlagStays(s, step);
    }
    Reached([]);
    ExecKeeps(Taker(), inv, START, steps);
  }

  const END_INPUT := [EndInput(true), EndInput(true), EndInput(true), EndInput(true), EndInput(true)]

  function Ended(s: State): State {
    s.(control := Control(Free, NotClosing, true, false), phase := Reading, locals := s.locals.(inputEnded := true),
       gateCloses := s.gateCloses + 1)
  }

  /** All stages of the loop's `end_input`, with nobody in between, shut the pipe. */
  lemma EndInputShuts(s: State)
    requires s.phase == Closing(ToLook) && s.control == Control(Free, NotClosing, false, true) && !s.locals.inputEnded
    ensures Exec(Taker(), s, END_INPUT) == Ended(s)
  {
    var s1 := s.(phase := Closing(ToLock));
    var s2 := Hold(s, Ender).(phase := Closing(ToCheck));
    var s3 := s2.(phase := Closing(ToSwap));
    var s4 := s3.(control := s3.control.(inputEnded := true), phase := Closing(ToPipe));
    var step := EndInput(true);
    assert Take(s, step) == s1 && Take(s1, step) == s2 && Take(s2, step) == s3 && Take(s3, step) == s4;
    assert Take(s4, step) == Ended(s);
    ExecFive(s, step);
  }

  lemma ExecFive(s: State, step: Step)
    ensures Exec(Taker(), s, [step, step, step, step, step])
         == Take(Take(Take(Take(Take(s, step), step), step), step), step)
  {
    var five, four, three, two := [step, step, step, step, step], [step, step, step, step], [step, step, step], [step, step];
    assert five == [step] + four && four == [step] + three && three == [step] + two && two == [step] + [step] + [];
    ExecCons(Taker(), s, step, four);
    ExecCons(Taker(), Take(s, step), step, three);
    ExecCons(Taker(), Take(Take(s, step), step), step, two);
    ExecCons(Taker(), Take(Take(Take(s, step), step), step), step, [step]);
    ExecCons(Taker(), Take(Take(Take(Take(s, step), step), step), step), step, []);
    assert [step] + [] == [step] && two == [step] + [step];
  }

  /** And the gate does close: wherever a run stands, when the history lets the input end, every
      input is settled, no close has begun and nobody holds the lock, the end of the window and
      the stages of `end_input` close standard input, once. */
  lemma GateCloses(steps: seq<Step>)
    ensures var s := Exec(Taker(), START, steps);
            MayEnd(s) && AllSettled(s) && s.control.lock.Free? && s.control.closing.NotClosing? ==>
              && Exec(Taker(), s, [DrainEnds] + END_INPUT) == Ended(s.(queue := None))
              && s.gateCloses == 0
  {
    var s := Exec(Taker(), START, steps);
    FlagReached(steps);
    DrainEndsDecides(steps);
    if MayEnd(s) && AllSettled(s) && s.control.lock.Free? && s.control.closing.NotClosing? {
      ExecCons(Taker(), s, DrainEnds, END_INPUT);
      EndInputShuts(Take(s, DrainEnds));
      assert Ended(Take(s, DrainEnds)) == Ended(s.(queue := None));
    }
  }

  /** The plain run: a turn ends, nothing is queued, and standard input is closed. */
  lemma PlainTurnCloses()
    ensures var s := Exec(Taker(), START, [Message(TurnResult), DrainEnds] + END_INPUT);
            s.gateCloses == 1 && !s.control.stdinOpen && s.queue.None? && s.history == [TurnResult]
  {
    var s := Handle(START, TurnResult);
    var before := [Message(TurnResult)];
    ExecSnoc(Taker(), START, [], Message(TurnResult));
    assert [] + before == before;
    assert [Message(TurnResult), DrainEnds] + END_INPUT == before + ([DrainEnds] + END_INPUT);
    ExecAppend(Taker(), START, before, [DrainEnds] + END_INPUT);
    assert [TurnResult][..0] == [];
    NoneTracked(s.locals, s.history);
    GateCloses(before);
  }

  /** A task starts, is updated, and the turn ends. */
  function TaskTurn(task: string, status: Option<string>): seq<Msg> {
    [System("task_started", None, Some(task), None, None), System("task_updated", None, Some(task), status, None), TurnResult]
  }

  /** A background task holds the input until an update gives it one of these statuses; one without
      a status does not. */
  lemma TaskHoldsTheInput(task: string, status: Option<string>)
    ensures var s := Exec(Taker(), START, Messages(TaskTurn(task, status)));
            MayEnd(s) <==>
            status.Some? && Trim(status.value) in ["completed", "failed", "cancelled", "canceled", "errored", "error",
                                                   "interrupted", "aborted", "killed", "stopped"]
  {
    var ms := TaskTurn(task, status);
    var a := Handle(START, ms[0]);
    var b := Handle(a, ms[1]);
    ExecThree(START, Message(ms[0]), Message(ms[1]), Message(ms[2]));
    assert Messages(ms) == [Message(ms[0]), Message(ms[1]), Message(ms[2])];
    Reached(Messages(ms));
    var s := Handle(b, TurnResult);
    assert Exec(Taker(), START, Messages(ms)) == s;
    MayEndWaits(s);
    assert a.locals.tasks == {task};
    assert s.locals.tasks == b.locals.tasks == if EndsTask(ms[1]) then {} else {task};
  }

  lemma ExecThree(s: State, x: Step, y: Step, z: Step)
    ensures Exec(Taker(), s, [x, y, z]) == Take(Take(Take(s, x), y), z)
  {
    assert [x, y, z] == [x] + [y, z] && [y, z] == [y] + [z] && [z] == [z] + [];
    ExecCons(Taker(), s, x, [y, z]);
    ExecCons(Taker(), Take(s, x), y, [z]);
    ExecCons(Taker(), Take(Take(s, x), y), z, []);
  }

  // ---- What an echo, an enqueue and a rollback do to the queue ----

  function WaitingIds(markers: seq<Marker>): seq<string> {
    if markers == [] then []
    else (if markers[0].Queued? then [markers[0].id] else []) + WaitingIds(markers[1..])
  }

  /** The root marker stands in front or is gone. */
  predicate RootInFront(queue: Option<seq<Marker>>) {
    queue.Some? ==> forall i :: 0 < i < |queue.value| ==> queue.value[i].Queued?
  }

  ghost predicate SawActivity(history: seq<Msg>) {
    exists i :: 0 <= i < |history| && history[i].Assistant?
  }

  lemma {:induction false} WaitingAppend(a: seq<Marker>, b: seq<Marker>)
    ensures WaitingIds(a + b) == WaitingIds(a) + WaitingIds(b)
  {
    if a == [] {
      assert a + b == b;
    } else {
      WaitingAppend(a[1..], b);
      assert (a + b)[1..] == a[1..] + b && (a + b)[0] == a[0];
    }
  }

  lemma {:induction false} WaitingIn(markers: seq<Marker>, id: string)
    ensures id in WaitingIds(markers) <==> Queued(id) in markers
  {
    if markers != [] {
      WaitingIn(markers[1..], id);
      assert Queued(id) in markers <==> Queued(id) == markers[0] || Queued(id) in markers[1..];
    }
  }

  lemma WaitingOfOne(id: string)
    ensures WaitingIds([Queued(id)]) == [id] && WaitingIds([Root]) == []
  {
    assert [Queued(id)][1..] == [] && [Root][1..] == [];
  }

  lemma RemoveMiddle(a: seq<string>, x: string, b: seq<string>)
    requires x !in a
    ensures var whole := a + ([x] + b); IndexOf(whole, x) == |a| && RemoveAt(whole, |a|) == a + b
  {
    assert (a + ([x] + b))[|a|] == x;
  }

  lemma WaitingMiddle(a: seq<Marker>, id: string, b: seq<Marker>)
    ensures WaitingIds(a + ([Queued(id)] + b)) == WaitingIds(a) + ([id] + WaitingIds(b))
  {
    WaitingAppend(a, [Queued(id)] + b);
    WaitingAppend([Queued(id)], b);
    WaitingOfOne(id);
  }

  lemma RolledSplits(markers: seq<Marker>, id: string)
    requires Queued(id) in markers
    ensures var i := IndexOf(markers, Queued(id));
            && markers == markers[..i] + ([Queued(id)] + markers[i + 1..])
            && Rolled(markers, id) == markers[..i] + markers[i + 1..]
            && Queued(id) !in markers[..i]
  {
  }

  lemma WaitingRolled(markers: seq<Marker>, id: string)
    requires Queued(id) in markers
    ensures var ids := WaitingIds(markers); id in ids && WaitingIds(Rolled(markers, id)) == RemoveAt(ids, IndexOf(ids, id))
  {
    var i := IndexOf(markers, Queued(id));
    var a, b := markers[..i], markers[i + 1..];
    RolledSplits(markers, id);
    WaitingWithout(markers, a, id, b);
  }

  lemma WaitingWithout(markers: seq<Marker>, a: seq<Marker>, id: string, b: seq<Marker>)
    requires markers == a + ([Queued(id)] + b) && Queued(id) !in a
    ensures var ids := WaitingIds(markers); id in ids && WaitingIds(a + b) == RemoveAt(ids, IndexOf(ids, id))
  {
    WaitingMiddle(a, id, b);
    WaitingAppend(a, b);
    WaitingIn(a, id);
    RemoveMiddle(WaitingIds(a), id, WaitingIds(b));
  }

  lemma RolledRootInFront(markers: seq<Marker>, id: string)
    requires RootInFront(Some(markers)) && Queued(id) in markers
    ensures RootInFront(Some(Rolled(markers, id)))
  {
    var i, rest := IndexOf(markers, Queued(id)), Rolled(markers, id);
    assert forall j :: 0 < j < |rest| ==> rest[j] == markers[if j < i then j else j + 1];
  }

  ghost predicate Ordered(s: State) {
    RootInFront(s.queue) && (s.locals.activity <==> SawActivity(s.history))
  }

  lemma HandleOrdered(s: State, m: Msg)
    requires Ordered(s)
    ensures Ordered(Handle(s, m))
  {
    var t := Handle(s, m);
    assert t.history == s.history + [m] && t.history[|s.history|] == m;
    assert forall i :: 0 <= i < |s.history| ==> t.history[i] == s.history[i];
    assert t.locals.activity <==> s.locals.activity || m.Assistant?;
  }

  lemma TakeOrdered(s: State, step: Step)
    requires Ordered(s)
    ensures Ordered(Take(s, step))
  {
    match step
    case Message(m) => HandleOrdered(s, m);
    case DrainEnds => HandleOrdered(s, DrainRefused);
    case Rollback(id) =>
      if s.queue.Some? && Queued(id) in s.queue.value {
        RolledRootInFront(s.queue.value, id);
      }
    case _ =>
  }

  lemma OrderedReached(steps: seq<Step>)
    ensures Ordered(Exec(Taker(), START, steps))
  {
    var inv := (s: State) => Ordered(s);
    forall s, step | inv(s)
      ensures inv(Taker()(s, step))
    {
      TakeOrdered(s, step);
    }
    ExecKeeps(Taker(), inv, START, steps);
  }

  /** A user echo, wherever the run stands, acknowledges the input that waits longest; only while
      the assistant has not said anything, an echo of the turn's own message takes the root
      marker instead. */
  lemma EchoAcknowledges(steps: seq<Step>)
    ensures var s := Exec(Taker(), START, steps);
            var t := Take(s, Message(UserEcho));
            s.phase.Reading? && s.queue.Some? ==>
              var waiting := WaitingIds(s.queue.value);
              && t.queue.Some? && Root !in t.queue.value
              && if waiting != [] && (SawActivity(s.history) || Root !in s.queue.value)
                 then t.acked == s.acked + multiset{waiting[0]} && WaitingIds(t.queue.value) == waiting[1..]
                 else t.acked == s.acked && WaitingIds(t.queue.value) == waiting
  {
    OrderedReached(steps);
    var s := Exec(Taker(), START, steps);
    if s.phase.Reading? && s.queue.Some? {
      EchoTakes(s.queue.value, s.locals.activity);
    }
  }

  lemma EchoTakes(markers: seq<Marker>, activity: bool)
    requires RootInFront(Some(markers))
    ensures var (id, rest) := Acknowledged(markers, activity);
            var waiting := WaitingIds(markers);
            && Root !in rest
            && if waiting != [] && (activity || Root !in markers)
               then id == Some(waiting[0]) && WaitingIds(rest) == waiting[1..]
               else id == None && WaitingIds(rest) == waiting
  {
    if markers != [] {
      var rest := markers[1..];
      assert forall i :: 0 <= i < |rest| ==> rest[i] == markers[i + 1] && rest[i].Queued?;
      OnlyQueued(rest);
      assert Root in markers <==> markers[0].Root?;
      assert HasQueued(markers) <==> markers[0].Queued? || rest != [] by {
        if rest != [] {
          assert markers[1].Queued?;
        }
      }
      if markers[0].Root? {
        assert WaitingIds(markers) == [] + WaitingIds(rest) == WaitingIds(rest);
      }
    }
  }

  lemma OnlyQueued(markers: seq<Marker>)
    requires forall i :: 0 <= i < |markers| ==> markers[i].Queued?
    ensures Root !in markers && (WaitingIds(markers) == [] <==> markers == [])
    ensures markers != [] ==>
              WaitingIds(markers)[0] == markers[0].id && WaitingIds(markers)[1..] == WaitingIds(markers[1..])
              && Root !in markers[1..]
  {
    if markers != [] {
      assert WaitingIds(markers) == [markers[0].id] + WaitingIds(markers[1..]);
    }
  }

  /** An input that is added to a registered run waits behind all others. */
  lemma AddedWaitsLast(s: State, id: string)
    requires s.queue.Some? && Trim(id) != []
    ensures var t := Take(s, Add(id));
            && t.queue.Some? && WaitingIds(t.queue.value) == WaitingIds(s.queue.value) + [id]
            && t.sending == s.sending + multiset{id} && t.enqueued == s.enqueued + multiset{id}
  {
    WaitingAppend(s.queue.value, [Queued(id)]);
    WaitingOfOne(id);
  }

  /** The input is refused, and out of the queue if it still waited there. */
  ghost predicate TakenBack(s: State, t: State, id: string) {
    && t.refused == s.refused + multiset{id}
    && match s.queue
       case None => t.queue.None? && t.rolled == s.rolled
       case Some(markers) =>
         var waiting := WaitingIds(markers);
         && t.queue.Some?
         && WaitingIds(t.queue.value) == (if id in waiting then RemoveAt(waiting, IndexOf(waiting, id)) else waiting)
         && t.rolled == s.rolled + (if id in waiting then multiset{id} else multiset{})
  }

  /** An input that failed is taken back. */
  lemma FailedIsTakenBack(s: State, id: string)
    requires id in s.failing
    ensures var t := Take(s, Rollback(id));
            TakenBack(s, t, id) && t.sending == s.sending && t.failing == s.failing - multiset{id}
  {
    if s.queue.Some? {
      WaitingIn(s.queue.value, id);
      if id in WaitingIds(s.queue.value) {
        WaitingRolled(s.queue.value, id);
      }
    }
  }

  /** Once the run is closed, an input that was not sent yet is refused and taken back. */
  lemma RefusedIsTakenBack(s: State, id: string)
    requires IsClosed(s.control) && id in s.sending
    ensures var t := Take(Take(s, SendRefused(id)), Rollback(id));
            TakenBack(s, t, id) && t.sending == s.sending - multiset{id} && t.failing == s.failing
  {
    var s1 := s.(sending := s.sending - multiset{id}, failing := s.failing + multiset{id});
    assert Take(s, SendRefused(id)) == s1;
    assert s1.failing - multiset{id} == s.failing;
    FailedIsTakenBack(s1, id);
  }

  function Messages(ms: seq<Msg>): seq<Step> {
    seq(|ms|, i requires 0 <= i < |ms| => Message(ms[i]))
  }

  /** Every message that comes in while the loop reads is heard, in order. */
  lemma {:induction false} MessagesAreHeard(s: State, ms: seq<Msg>)
    requires s.phase.Reading? && DrainRefused !in ms
    ensures var t := Exec(Taker(), s, Messages(ms)); t.history == s.history + ms && t.phase.Reading?
    decreases ms
  {
    if ms != [] {
      var t := Take(s, Message(ms[0]));
      HandleFrame(s, ms[0]);
      MessagesAreHeard(t, ms[1..]);
      assert Messages(ms)[1..] == Messages(ms[1..]) && s.history + ms == t.history + ms[1..];
    }
  }

  lemma TakeWhenOver(s: State, step: Step)
    requires s.phase.Finished?
    ensures var t := Take(s, step); t.phase.Finished? && t.history == s.history && t.gateCloses == s.gateCloses
  {
  }

  /** Once the loop is over, whatever comes, nothing is heard and the gate closes nothing. */
  lemma LoopIsOver(s: State, steps: seq<Step>)
    requires s.phase.Reading?
    ensures var t := Exec(Taker(), s, [LoopEnds] + steps);
            t.phase.Finished? && t.history == s.history && t.gateCloses == s.gateCloses
  {
    var inv := (t: State) => t.phase.Finished? && t.history == s.history && t.gateCloses == s.gateCloses;
    forall t, step | inv(t)
      ensures inv(Taker()(t, step))
    {
      TakeWhenOver(t, step);
    }
    ExecCons(Taker(), s, LoopEnds, steps);
    ExecKeeps(Taker(), inv, Take(s, LoopEnds), steps);
  }

  /** What the lock is for: a sender that has passed its checks finds the pipe open, whatever
      the gate and a concurrent close do in between. */
  lemma NoWriteIsCutOff(steps: seq<Step>)
    ensures var s := Exec(Taker(), START, steps); s.control.lock.Writing? ==> s.control.stdinOpen
  {
    Reached(steps);
  }

  // ---- The objects behind the steps ----

  /** The provider's queues of pending inputs, one per registered run. Every method holds the lock. */
  class PendingInputs {
    var queues: map<string, seq<Marker>>

    constructor ()
      ensures queues == map[]
    {
      queues := map[];
    }

    function Queue(run: string): Option<seq<Marker>>
      reads this
    {
      if run in queues then Some(queues[run]) else None
    }

    /** Where the machine starts. */
    method Initialize(run: string)
      modifies this
      ensures queues == old(queues)[run := START.queue.value] && Queue(run) == START.queue
    {
      queues := queues[run := [Root]];
    }

    /** What `Add` does to the run of the machine; `ok` tells the caller whether it was registered. */
    method Enqueue(run: string, id: string) returns (ok: bool)
      modifies this
      ensures ok == (run in old(queues)) && queues.Keys == old(queues).Keys
      ensures forall s: State | s.queue == old(Queue(run)) && Trim(id) != [] :: Queue(run) == TakeAdd(s, id).queue
      ensures forall other :: other != run ==> Queue(other) == old(Queue(other))
    {
      ok := run in queues;
      if ok {
        queues := queues[run := queues[run] + [Queued(id)]];
      }
    }

    /** What `Rollback` does. */
    method Rollback(run: string, id: string)
      modifies this
      ensures queues.Keys == old(queues).Keys
      ensures forall s: State | s.queue == old(Queue(run)) && id in s.failing :: Queue(run) == TakeRollback(s, id).queue
      ensures forall other :: other != run ==> Queue(other) == old(Queue(other))
    {
      if run in queues && Queued(id) in queues[run] {
        queues := queues[run := Rolled(queues[run], id)];
      }
    }

    /** What a user echo does; the id goes to the caller. */
    method AcknowledgeNext(run: string, preferQueued: bool) returns (id: Option<string>)
      modifies this
      ensures queues.Keys == old(queues).Keys
      ensures match old(Queue(run))
              case None => id.None?
              case Some(markers) => (id, Queue(run).value) == Acknowledged(markers, preferQueued)
      ensures forall other :: other != run ==> Queue(other) == old(Queue(other))
    {
      id := None;
      if run in queues {
        var (taken, rest) := Acknowledged(queues[run], preferQueued);
        id := taken;
        queues := queues[run := rest];
      }
    }

    /** The emptiness check and the removal: what `DrainEnds` does. */
    method TryClose(run: string) returns (closed: bool)
      modifies this
      ensures forall s: State | s.queue == old(Queue(run)) && s.phase.Reading? ::
                Queue(run) == ClosedIfEmpty(s).queue && closed == ClosedIfEmpty(s).phase.Closing?
      ensures closed <==> (run in old(queues) ==> forall m :: m in old(queues)[run] ==> m == Root)
      ensures queues == if closed then old(queues) - {run} else old(queues)
      ensures forall other :: other != run ==> Queue(other) == old(Queue(other))
    {
      if run in queues {
        if HasQueued(queues[run]) {
          assert exists m :: m in queues[run] && m != Root by {
            var i :| 0 <= i < |queues[run]| && queues[run][i].Queued?;
            assert queues[run][i] in queues[run];
          }
          return false;
        }
        queues := queues - {run};
      }
      return true;
    }

    /** What `Unregister` does. */
    method Clear(run: string)
      modifies this
      ensures queues == old(queues) - {run}
      ensures forall s: State | s.queue == old(Queue(run)) :: Queue(run) == Take(s, Unregister).queue
    {
      queues := queues - {run};
    }
  }

  /** All the stages of `end_input`, with nobody in between. */
  function EndAlone(c: Control, ok: bool): Gate {
    var g := EndStep(EndStep(Gate(c, Closing(ToLook), false, 0), ok), ok);
    EndStep(EndStep(EndStep(g, ok), ok), ok)
  }

  function SendAlone(s: State, id: string, pipe: bool): State {
    TakeSend(TakeSend(TakeSend(s, SendLocks(id)), SendChecks), SendWrites(pipe))
  }

  /** Where a send ends. */
  function Sent(s: State, id: string, ok: bool): State {
    var left := s.sending - multiset{id};
    if ok then s.(sending := left, accepted := s.accepted + multiset{id}, written := s.written + [id])
    else s.(sending := left, failing := s.failing + multiset{id})
  }

  lemma SendStops(s: State, id: string, pipe: bool)
    requires s.control.lock.Free? && id in s.sending && (IsClosed(s.control) || s.control.inputEnded)
    ensures SendAlone(s, id, pipe) == Sent(s, id, false)
  {
    var s1 := TakeSend(s, SendLocks(id));
    assert TakeSend(s1, SendChecks) == Sent(s, id, false);
  }

  lemma SendGoesOn(s: State, id: string, pipe: bool)
    requires s.control.lock.Free? && id in s.sending && !IsClosed(s.control) && !s.control.inputEnded
    ensures SendAlone(s, id, pipe) == Sent(s, id, s.control.stdinOpen && pipe)
  {
    var s1 := TakeSend(s, SendLocks(id));
    assert TakeSend(s1, SendChecks) == Hold(s, Writing(id)).(sending := s.sending - multiset{id});
  }

  /** With nobody in between, a send succeeds exactly on an open handle whose input is not ended
      and whose pipe is open and answers. */
  lemma SendAloneIs(s: State, id: string, pipe: bool)
    requires s.control.lock.Free? && id in s.sending
    ensures SendAlone(s, id, pipe)
         == Sent(s, id, !IsClosed(s.control) && !s.control.inputEnded && s.control.stdinOpen && pipe)
  {
    if IsClosed(s.control) || s.control.inputEnded {
      SendStops(s, id, pipe);
    } else {
      SendGoesOn(s, id, pipe);
    }
  }

  /** With nobody in between: a closed run refuses, an ended input stays ended, and otherwise the
      pipe is shut, unless it fails to close. */
  lemma EndAloneIs(c: Control, ok: bool)
    requires c.lock.Free?
    ensures EndAlone(c, ok) ==
            if IsClosed(c) then Gate(c, Finished, false, 0)
            else if c.inputEnded then Gate(c, Reading, true, 0)
            else if ok then Gate(c.(inputEnded := true, stdinOpen := false), Reading, true, 1)
            else Gate(c, Finished, false, 0)
  {
  }

  function CloseAlone(c: Control): Control {
    TakeClose(TakeClose(TakeClose(TakeClose(c))))
  }

  /** With nobody in between a close ends in a shut pipe, and a second one changes nothing. */
  lemma CloseAloneShuts(c: Control)
    requires c.lock.Free?
    ensures c.closing.NotClosing? ==> CloseAlone(c) == Control(Free, Closed, true, false)
    ensures c.closing.Closed? ==> CloseAlone(c) == c
  {
  }

  /** The control handle of a run; each method here has the lock to itself from start to end. */
  class RunControl {
    var closed: bool
    var inputEnded: bool
    var stdinOpen: bool
    var sent: seq<string>

    constructor ()
      ensures Abstract() == START.control && sent == []
    {
      closed, inputEnded, stdinOpen, sent := false, false, true, [];
    }

    function Abstract(): Control
      reads this
    {
      Control(Free, if closed then Closed else NotClosing, inputEnded, stdinOpen)
    }

    /** What `SendLocks`, `SendChecks` and `SendWrites` do to the machine together: a message
        that was sent is accepted, any other is to be rolled back. */
    method SendUserMessage(content: string, pipe: bool) returns (ok: bool)
      modifies this`sent
      ensures forall s: State | s.control == Abstract() && s.written == old(sent) && content in s.sending ::
                var t := SendAlone(s, content, pipe);
                && t.control == Abstract() && t.written == sent && t.sending == s.sending - multiset{content}
                && t.accepted == s.accepted + (if ok then multiset{content} else multiset{})
                && t.failing == s.failing + (if ok then multiset{} else multiset{content})
      ensures ok <==> sent != old(sent)
    {
      forall s: State | s.control == Abstract() && content in s.sending
        ensures SendAlone(s, content, pipe) == Sent(s, content, !closed && !inputEnded && stdinOpen && pipe)
      {
        SendAloneIs(s, content, pipe);
      }
      if closed || inputEnded {
        return false;
      }
      ok := pipe && stdinOpen;
      if ok {
        sent := sent + [content];
      }
    }

    /** All stages of `EndInput`; it fails on a closed run and when the pipe fails to close. */
    method EndInput(pipe: bool) returns (ok: bool)
      modifies this
      ensures Abstract() == EndAlone(old(Abstract()), pipe).control && sent == old(sent)
      ensures ok == EndAlone(old(Abstract()), pipe).ended
    {
      if closed {
        return false;
      }
      if inputEnded {
        return true;
      }
      inputEnded := true;
      if !pipe {
        inputEnded := false;
        return false;
      }
      stdinOpen := false;
      return true;
    }

    /** All stages of `Close`. */
    method Close()
      modifies this
      ensures Abstract() == CloseAlone(old(Abstract())) && sent == old(sent)
    {
      if closed {
        return;
      }
      closed := true;
      inputEnded := true;
      stdinOpen := false;
    }
  }

  /** The variables of one message loop. */
  class MessageLoop {
    var resultSeen: bool
    var activeBackgroundTasks: set<string>
    var stopHookHoldsInput: bool
    var inputEnded: bool
    var activitySeen: bool
    ghost var history: seq<Msg>

    ghost function Abstract(): Locals
      reads this
    {
      Locals(resultSeen, activeBackgroundTasks, stopHookHoldsInput, inputEnded, activitySeen)
    }

    ghost predicate Valid()
      reads this
    {
      Reflects(Abstract(), history)
    }

    constructor ()
      ensures Valid() && Abstract() == FRESH_LOOP && history == []
    {
      resultSeen, activeBackgroundTasks, stopHookHoldsInput, inputEnded, activitySeen := false, {}, false, false, false;
      history := [];
    }

    method UpdateBackgroundTasks(m: Msg)
      requires m.System?
      modifies this`activeBackgroundTasks
      ensures activeBackgroundTasks == UpdateTasks(old(activeBackgroundTasks), m)
    {
      if m.subtype == "background_tasks_changed" {
        if m.tasks.Some? {
          activeBackgroundTasks := Present(m.tasks.value);
        }
        return;
      }
      if m.key.None? {
        return;
      }
      if m.subtype == "task_started" {
        activeBackgroundTasks := activeBackgroundTasks + {m.key.value};
      } else if m.subtype == "task_updated" || m.subtype == "task_notification" {
        if EndsTask(m) {
          activeBackgroundTasks := activeBackgroundTasks - {m.key.value};
        } else {
          activeBackgroundTasks := activeBackgroundTasks + {m.key.value};
        }
      }
    }

    method ReportsBackgroundWork(statuses: seq<Option<string>>) returns (work: bool)
      ensures work == ReportsWork(statuses)
    {
      for i := 0 to |statuses|
        invariant forall j :: 0 <= j < i ==> !StillRunning(statuses[j])
      {
        if StillRunning(statuses[i]) {
          return true;
        }
      }
      return false;
    }

    method Update(m: Msg)
      modifies this`resultSeen, this`activeBackgroundTasks, this`stopHookHoldsInput, this`activitySeen
      ensures Abstract() == ObserveMessage(old(Abstract()), m)
    {
      match m {
        case UserEcho => resultSeen := false;
        case Assistant => resultSeen, activitySeen := false, true;
        case TurnResult => resultSeen := true;
        case StreamEvent => resultSeen := false;
        case DrainRefused => resultSeen := false;
        case StopHook(statuses) =>
          if statuses.Some? {
            stopHookHoldsInput := ReportsBackgroundWork(statuses.value);
          }
        case System(subtype, _, _, _, _) =>
          UpdateBackgroundTasks(m);
          if subtype == "task_notification" {
            resultSeen := false;
          }
        case _ =>
      }
    }

    /** Take one message into account; the variables go on saying what the whole history says. */
    method Observe(m: Msg)
      requires Valid()
      modifies this
      ensures Valid() && history == old(history) + [m] && Abstract() == ObserveMessage(old(Abstract()), m)
    {
      ObserveReflects(Abstract(), history, m);
      Update(m);
      history := history + [m];
    }

    /** The gate's question, answered from the history. */
    method WaitsToEndInput() returns (waits: bool)
      requires Valid()
      ensures waits == (!inputEnded && ResultIsLatest(history) && !SomeTaskAlive(history) && !HookHolds(history))
    {
      waits := !inputEnded && resultSeen && activeBackgroundTasks == {} && !stopHookHoldsInput;
      NoneTracked(Abstract(), history);
    }
  }
}
