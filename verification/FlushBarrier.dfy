/** The reader's flush barrier (claude-agent-sdk/src/client.rs:95-120, 589-767) in front of the
    mirror worker (claude-agent-sdk/src/session_store.rs:1285-1348), as interleaved steps.

    The worker is the one of module MirrorWorker, taken apart at the points where the reader can
    see it: taking a command, handing over one group, answering a flush. */
module FlushBarrier {
  import opened Common
  import opened MirrorWorker

  /** Why the reader flushes. */
  datatype Cause = AtResult | AtEnd | AtReadError

  datatype ReaderPhase =
    | Reading
    | AwaitingFlush(cause: Cause)
    | Forwarding(cause: Cause)
    | Exited

  /** What the consumer receives. */
  datatype Message = MirrorError(failure: Failure) | TurnResult | Ordinary | StreamError

  datatype State = State(
    read: seq<Batch>,             // every mirror frame read so far
    reader: ReaderPhase,
    commands: seq<Command>,       // command channel
    handled: seq<Command>,        // every command the worker has taken from it
    worker: Worker,
    groups: seq<Batch>,           // groups of the current drain still to be handed over
    serving: bool,                // the drain is for a flush
    done: bool,                   // the worker has answered the flush
    received: nat,                // failures taken from the failure channel
    messages: seq<Message>)

  const INIT := State([], Reading, [], [], IDLE, [], false, false, 0, [])

  datatype Action =
    | ReadFrame(frame: Frame)
    | ReadOther
    | ReadFlushing(cause: Cause)
    | TakeFailure                 // the select arm of the failure channel
    | FlushAnswered
    | ForwardFailure
    | ForwardDone
    | Stop                        // closed, or the consumer is gone
    | TakeCommand
    | HandOverGroup
    | AnswerFlush

  function FinalMessage(cause: Cause): seq<Message> {
    match cause
    case AtResult => [TurnResult]
    case AtEnd => []
    case AtReadError => [StreamError]
  }

  /** The failure channel is empty. */
  predicate NoneWaiting(s: State) {
    s.received >= |s.worker.failures|
  }

  function Received(s: State): State {
    if NoneWaiting(s) then s
    else s.(received := s.received + 1, messages := s.messages + [MirrorError(s.worker.failures[s.received])])
  }

  function ReaderStep(s: State, action: Action): State {
    match action
    case ReadFrame(f) =>
      if s.reader.Reading? then s.(read := s.read + [f.batch], commands := s.commands + [Enqueue(f)]) else s
    case ReadOther => if s.reader.Reading? then s.(messages := s.messages + [Ordinary]) else s
    case ReadFlushing(cause) =>
      if s.reader.Reading? then s.(reader := AwaitingFlush(cause), commands := s.commands + [Flush]) else s
    case TakeFailure => if s.reader.Reading? then Received(s) else s
    case FlushAnswered =>
      if s.reader.AwaitingFlush? && s.done then s.(reader := Forwarding(s.reader.cause), done := false) else s
    case ForwardFailure => if s.reader.Forwarding? then Received(s) else s
    case ForwardDone =>
      if s.reader.Forwarding? && NoneWaiting(s) then
        s.(messages := s.messages + FinalMessage(s.reader.cause),
           reader := if s.reader.cause.AtResult? then Reading else Exited)
      else s
    case Stop => s.(reader := Exited)
    case _ => s
  }

  predicate WorkerIdle(s: State) {
    s.groups == [] && !s.serving
  }

  /** The worker begins a drain of what `w` has pending. */
  function Draining(s: State, w: Worker): State {
    s.(worker := Taken(w), groups := Grouped(FrameBatches(w.frames)))
  }

  function Commanded(c: Config, s: State, command: Command): State {
    match command
    case Enqueue(f) =>
      var w := Pushed(s.worker, f);
      if OverLimit(c, w) then Draining(s, w) else s.(worker := w)
    case _ => Draining(s, s.worker).(serving := true)
  }

  function WorkerStep(c: Config, s: State, action: Action): State {
    match action
    case TakeCommand =>
      if !WorkerIdle(s) || s.commands == [] then s
      else Commanded(c, s.(commands := s.commands[1..], handled := s.handled + [s.commands[0]]), s.commands[0])
    case HandOverGroup =>
      if s.groups == [] then s else s.(worker := HandedOver(c, s.worker, s.groups[0]), groups := s.groups[1..])
    case AnswerFlush => if s.serving && s.groups == [] then s.(serving := false, done := true) else s
    case _ => s
  }

  function Next(c: Config): (State, Action) -> State {
    (s: State, action: Action) =>
      if action.TakeCommand? || action.HandOverGroup? || action.AnswerFlush? then WorkerStep(c, s, action)
      else ReaderStep(s, action)
  }

  // ---- What every step keeps ----

  /** Once the groups at hand are handed over, the worker is where the commands it has taken
      lead when they are handled one after the other. */
  ghost predicate WorkerRefines(c: Config, s: State) {
    HandedAll(c, s.worker, s.groups) == Exec(MirrorWorker.Step(c), IDLE, s.handled)
  }

  ghost predicate NothingLost(s: State) {
    Enqueued(s.handled + s.commands) == s.read
  }

  function ErrorsOf(messages: seq<Message>): seq<Failure> {
    if messages == [] then []
    else
      var m := messages[|messages| - 1];
      ErrorsOf(messages[..|messages| - 1]) + (if m.MirrorError? then [m.failure] else [])
  }

  /** Failures reach the consumer once each, in the order the worker sends them. */
  ghost predicate FailuresInOrder(s: State) {
    s.received <= |s.worker.failures| && ErrorsOf(s.messages) == s.worker.failures[..s.received]
  }

  ghost predicate NothingInFlight(s: State) {
    s.commands == [] && s.worker.frames == [] && WorkerIdle(s)
  }

  predicate LastIsFlush(commands: seq<Command>) {
    commands != [] && commands[|commands| - 1] == Flush && Flush !in commands[..|commands| - 1]
  }

  /** The one outstanding flush is last in the channel, being served, or answered. */
  ghost predicate FlushUnderWay(s: State) {
    || (!s.done && !s.serving && LastIsFlush(s.commands))
    || (!s.done && s.serving && s.commands == [] && s.worker.frames == [])
    || (s.done && NothingInFlight(s))
  }

  ghost predicate Phased(s: State) {
    match s.reader
    case Reading => !s.done && !s.serving && Flush !in s.commands
    case AwaitingFlush(_) => FlushUnderWay(s)
    case Forwarding(_) => !s.done && NothingInFlight(s)
    case Exited => true
  }

  ghost predicate Inv(c: Config, s: State) {
    Phased(s) && WorkerRefines(c, s) && NothingLost(s) && FailuresInOrder(s) && Close !in s.commands
  }

  lemma {:induction false} EnqueuedAppend(a: seq<Command>, b: seq<Command>)
    ensures Enqueued(a + b) == Enqueued(a) + Enqueued(b)
  {
    if a == [] {
      assert a + b == b;
    } else {
      EnqueuedAppend(a[1..], b);
      assert (a + b)[0] == a[0] && (a + b)[1..] == a[1..] + b;
      Regroup(BatchOf(a[0]), Enqueued(a[1..]), Enqueued(b));
    }
  }

  lemma Sent(s: State, command: Command)
    requires NothingLost(s)
    ensures Enqueued(s.handled + (s.commands + [command])) == s.read + BatchOf(command)
  {
    Regroup(s.handled, s.commands, [command]);
    EnqueuedAppend(s.handled + s.commands, [command]);
    assert [command][1..] == [] && BatchOf(command) + [] == BatchOf(command);
  }

  lemma ReaderKeepsAll(s: State, action: Action)
    requires NothingLost(s)
    ensures NothingLost(ReaderStep(s, action))
  {
    if s.reader.Reading? {
      match action
      case ReadFrame(f) => Sent(s, Enqueue(f));
      case ReadFlushing(_) =>
        Sent(s, Flush);
        assert s.read + [] == s.read;
      case _ =>
    }
  }

  lemma OneMessage(messages: seq<Message>, m: Message)
    ensures ErrorsOf(messages + [m]) == ErrorsOf(messages) + (if m.MirrorError? then [m.failure] else [])
  {
    assert (messages + [m])[..|messages|] == messages;
  }

  lemma ReceivedInOrder(s: State)
    requires FailuresInOrder(s)
    ensures FailuresInOrder(Received(s))
  {
    if !NoneWaiting(s) {
      OneMessage(s.messages, MirrorError(s.worker.failures[s.received]));
    }
  }

  lemma LastInOrder(s: State, last: seq<Message>)
    requires FailuresInOrder(s) && (last == [] || (|last| == 1 && !last[0].MirrorError?))
    ensures FailuresInOrder(s.(messages := s.messages + last))
  {
    if last == [] {
      assert s.messages + last == s.messages;
    } else {
      OneMessage(s.messages, last[0]);
      assert last == [last[0]];
    }
  }

  lemma ReaderKeepsPhase(s: State, action: Action)
    requires Phased(s)
    ensures Phased(ReaderStep(s, action))
  {
    if action.ReadFlushing? {
      assert (s.commands + [Flush])[..|s.commands|] == s.commands;
    }
  }

  lemma ReaderFrame(s: State, action: Action)
    ensures var t := ReaderStep(s, action);
            t.worker == s.worker && t.groups == s.groups && t.handled == s.handled
            && (Close in t.commands ==> Close in s.commands)
  {
  }

  lemma ReaderKeeps(c: Config, s: State, action: Action)
    requires Inv(c, s)
    ensures Inv(c, ReaderStep(s, action))
  {
    ReaderKeepsAll(s, action);
    ReceivedInOrder(s);
    LastInOrder(s, [Ordinary]);
    if s.reader.Forwarding? {
      LastInOrder(s, FinalMessage(s.reader.cause));
    }
    ReaderKeepsPhase(s, action);
    ReaderFrame(s, action);
  }

  lemma HandOverFailures(c: Config, w: Worker, group: Batch)
    ensures var t := HandedOver(c, w, group); |w.failures| <= |t.failures| && t.failures[..|w.failures|] == w.failures
  {
  }

  /** The worker only sends failures; what the reader has received stays what it was. */
  lemma WorkerKeepsOrder(c: Config, s: State, action: Action)
    requires FailuresInOrder(s)
    ensures FailuresInOrder(WorkerStep(c, s, action))
  {
    if action.HandOverGroup? && s.groups != [] {
      HandOverFailures(c, s.worker, s.groups[0]);
      var failures := HandedOver(c, s.worker, s.groups[0]).failures;
      assert failures[..s.received] == failures[..|s.worker.failures|][..s.received];
    }
  }

  lemma RestIsFlush(commands: seq<Command>)
    requires LastIsFlush(commands) && |commands| > 1
    ensures LastIsFlush(commands[1..]) && commands[0] != Flush
  {
    var rest, front := commands[1..], commands[..|commands| - 1];
    assert rest[..|rest| - 1] == front[1..] && commands[0] == front[0];
  }

  lemma CommandedPhase(c: Config, s: State, command: Command)
    ensures var t := Commanded(c, s, command);
            && t.commands == s.commands && t.done == s.done && t.reader == s.reader
            && t.handled == s.handled && t.read == s.read && t.received == s.received && t.messages == s.messages
            && t.worker.failures == s.worker.failures
            && t.serving == (s.serving || !command.Enqueue?)
            && (command.Enqueue? || t.worker.frames == [])
  {
  }

  lemma WorkerKeepsPhase(c: Config, s: State, action: Action)
    requires Phased(s) && Close !in s.commands
    ensures Phased(WorkerStep(c, s, action))
  {
    if action.TakeCommand? && WorkerIdle(s) && s.commands != [] {
      var command, rest := s.commands[0], s.commands[1..];
      CommandedPhase(c, s.(commands := rest, handled := s.handled + [command]), command);
      assert command in s.commands && forall x :: x in rest ==> x in s.commands;
      if LastIsFlush(s.commands) && |s.commands| > 1 {
        RestIsFlush(s.commands);
      }
    }
  }

  /** Taking a command is the whole of the worker's handling of it, up to the groups at hand. */
  lemma CommandRefines(c: Config, s: State, command: Command)
    requires WorkerIdle(s)
    ensures var t := Commanded(c, s, command); HandedAll(c, t.worker, t.groups) == MirrorWorker.Step(c)(s.worker, command)
  {
    match command
    case Enqueue(f) =>
      var w := Pushed(s.worker, f);
      if OverLimit(c, w) {
        assert MirrorWorker.Step(c)(s.worker, command) == Drained(c, w);
      } else {
        assert MirrorWorker.Step(c)(s.worker, command) == w == HandedAll(c, w, []);
      }
    case _ => assert MirrorWorker.Step(c)(s.worker, command) == Drained(c, s.worker);
  }

  lemma WorkerKeepsRefining(c: Config, s: State, action: Action)
    requires WorkerRefines(c, s)
    ensures WorkerRefines(c, WorkerStep(c, s, action))
  {
    if action.TakeCommand? && WorkerIdle(s) && s.commands != [] {
      var command := s.commands[0];
      var t := s.(commands := s.commands[1..], handled := s.handled + [command]);
      CommandedPhase(c, t, command);
      CommandRefines(c, t, command);
      ExecSnoc(MirrorWorker.Step(c), IDLE, s.handled, command);
    }
  }

  lemma WorkerKeepsAll(c: Config, s: State, action: Action)
    requires NothingLost(s) && Close !in s.commands
    ensures NothingLost(WorkerStep(c, s, action)) && Close !in WorkerStep(c, s, action).commands
  {
    if action.TakeCommand? && WorkerIdle(s) && s.commands != [] {
      var command, rest := s.commands[0], s.commands[1..];
      CommandedPhase(c, s.(commands := rest, handled := s.handled + [command]), command);
      assert s.commands == [command] + rest;
      Regroup(s.handled, [command], rest);
    }
  }

  lemma WorkerKeeps(c: Config, s: State, action: Action)
    requires Inv(c, s)
    ensures Inv(c, WorkerStep(c, s, action))
  {
    WorkerKeepsOrder(c, s, action);
    WorkerKeepsPhase(c, s, action);
    WorkerKeepsRefining(c, s, action);
    WorkerKeepsAll(c, s, action);
  }

  lemma EveryRunKeeps(c: Config, actions: seq<Action>)
    ensures Inv(c, Exec(Next(c), INIT, actions))
  {
    forall s, action | Inv(c, s)
      ensures Inv(c, Next(c)(s, action))
    {
      WorkerKeeps(c, s, action);
      ReaderKeeps(c, s, action);
    }
    assert INIT.handled + INIT.commands == [];
    ExecKeeps(Next(c), s => Inv(c, s), INIT, actions);
  }

  // ---- Results ----

  /** Every frame read is settled: file by file the groups handed over hold exactly the entries
      read, in order; every group was appended, dropped as outside the root, or failed; and the
      consumer has received the error of each that failed, and no other. */
  ghost predicate AllSettled(c: Config, s: State) {
    && (forall p :: EntriesFor(EventBatches(s.worker.log), p) == EntriesFor(s.read, p))
    && LogSound(c, s.worker.log)
    && ErrorsOf(s.messages) == FailuresOf(s.worker.log)
  }

  /** When nothing is under way, the worker is where its commands have led it, and these are
      all that was ever sent. */
  lemma AtRest(c: Config, s: State)
    requires WorkerRefines(c, s) && NothingLost(s) && NothingInFlight(s)
    ensures s.worker == Exec(MirrorWorker.Step(c), IDLE, s.handled) && Enqueued(s.handled) == s.read
  {
    assert s.handled + [] == s.handled;
  }

  /** Where its commands lead the worker, it accounts for everything they enqueued. */
  lemma AllAccounted(c: Config, handled: seq<Command>, p: FilePath)
    ensures MirrorWorker.Accounted(Exec(MirrorWorker.Step(c), IDLE, handled), p) == EntriesFor(Enqueued(handled), p)
  {
    EntriesAreConserved(c, IDLE, handled, p);
    assert MirrorWorker.Accounted(IDLE, p) == [];
  }

  lemma EntriesAtRest(c: Config, s: State, p: FilePath)
    requires WorkerRefines(c, s) && NothingLost(s) && NothingInFlight(s)
    ensures EntriesFor(EventBatches(s.worker.log), p) == EntriesFor(s.read, p)
  {
    AtRest(c, s);
    AllAccounted(c, s.handled, p);
    NothingPending(s.worker, p);
  }

  lemma SettledAtRest(c: Config, s: State)
    requires Inv(c, s) && NothingInFlight(s) && NoneWaiting(s)
    ensures AllSettled(c, s)
  {
    AtRest(c, s);
    OutcomesAreSound(c, s.handled);
    assert s.worker.failures[..s.received] == s.worker.failures;
    forall p
      ensures EntriesFor(EventBatches(s.worker.log), p) == EntriesFor(s.read, p)
    {
      EntriesAtRest(c, s, p);
    }
  }

  /** The barrier: whenever an action hands the consumer a result message, every mirror frame
      read before it is settled, and nothing of it is left in a channel or in the worker. */
  lemma ResultComesAfterItsFrames(c: Config, actions: seq<Action>, action: Action)
    requires var s := Exec(Next(c), INIT, actions); Next(c)(s, action).messages == s.messages + [TurnResult]
    ensures var s := Exec(Next(c), INIT, actions); AllSettled(c, s) && NothingInFlight(s) && NoneWaiting(s)
  {
    var s := Exec(Next(c), INIT, actions);
    EveryRunKeeps(c, actions);
    LastMessage(c, s, action);
    SettledAtRest(c, s);
  }

  lemma LastMessage(c: Config, s: State, action: Action)
    requires Next(c)(s, action).messages == s.messages + [TurnResult]
    ensures action.ForwardDone? && s.reader.Forwarding? && NoneWaiting(s)
  {
    var t := Next(c)(s, action);
    assert t.messages[|s.messages|] == TurnResult;
    if action.TakeCommand? && WorkerIdle(s) && s.commands != [] {
      CommandedPhase(c, s.(commands := s.commands[1..], handled := s.handled + [s.commands[0]]), s.commands[0]);
    }
  }

  /** The same when the stream ends or breaks: the reader leaves only after the barrier, unless it
      was stopped. */
  lemma EndComesAfterItsFrames(c: Config, actions: seq<Action>, action: Action)
    requires var s := Exec(Next(c), INIT, actions);
             !s.reader.Exited? && Next(c)(s, action).reader.Exited? && !action.Stop?
    ensures AllSettled(c, Exec(Next(c), INIT, actions))
  {
    var s := Exec(Next(c), INIT, actions);
    EveryRunKeeps(c, actions);
    if action.TakeCommand? && WorkerIdle(s) && s.commands != [] {
      CommandedPhase(c, s.(commands := s.commands[1..], handled := s.handled + [s.commands[0]]), s.commands[0]);
    }
    SettledAtRest(c, s);
  }

  lemma HandedIsAccounted(c: Config, s: State, p: FilePath)
    ensures EntriesFor(EventBatches(s.worker.log), p) <= MirrorWorker.Accounted(HandedAll(c, s.worker, s.groups), p)
  {
    var log, t := EventBatches(s.worker.log), HandedAll(c, s.worker, s.groups);
    HandedAllBatches(c, s.worker, s.groups);
    EntriesForAppend(log, s.groups, p);
    assert EntriesFor(log, p) <= EntriesFor(EventBatches(t.log), p) <= MirrorWorker.Accounted(t, p);
  }

  lemma HandedIsRead(c: Config, s: State, p: FilePath)
    requires WorkerRefines(c, s) && NothingLost(s)
    ensures EntriesFor(EventBatches(s.worker.log), p) <= EntriesFor(s.read, p)
  {
    HandedIsAccounted(c, s, p);
    AllAccounted(c, s.handled, p);
    EnqueuedAppend(s.handled, s.commands);
    EntriesForAppend(Enqueued(s.handled), Enqueued(s.commands), p);
  }

  /** At any time, in any interleaving: the consumer has received the first errors of the groups
      that failed, each once and in order, and the worker has handed over no more and no other
      entries of a file than the frames read for it, in order. */
  lemma NothingIsInvented(c: Config, actions: seq<Action>, p: FilePath)
    ensures var s := Exec(Next(c), INIT, actions);
            && ErrorsOf(s.messages) <= s.worker.failures
            && EntriesFor(EventBatches(s.worker.log), p) <= EntriesFor(s.read, p)
  {
    EveryRunKeeps(c, actions);
    HandedIsRead(c, Exec(Next(c), INIT, actions), p);
  }

  // ---- What the consumer is told ----

  /** What the consumer is to be told of what the reader has read. */
  function ToTell(action: Action): seq<Message> {
    match action
    case ReadOther => [Ordinary]
    case ReadFlushing(AtResult) => [TurnResult]
    case ReadFlushing(AtReadError) => [StreamError]
    case _ => []
  }

  /** All that was read in a run from `s`, in order. */
  function Heard(c: Config, s: State, actions: seq<Action>): seq<Message>
    decreases actions
  {
    if actions == [] then []
    else (if s.reader.Reading? then ToTell(actions[0]) else []) + Heard(c, Next(c)(s, actions[0]), actions[1..])
  }

  /** What waits behind the barrier. */
  function Owed(reader: ReaderPhase): seq<Message> {
    match reader
    case AwaitingFlush(cause) => ToTell(ReadFlushing(cause))
    case Forwarding(cause) => ToTell(ReadFlushing(cause))
    case _ => []
  }

  /** The messages that are no mirror errors. */
  function Told(messages: seq<Message>): seq<Message> {
    if messages == [] then []
    else
      var m := messages[|messages| - 1];
      Told(messages[..|messages| - 1]) + (if m.MirrorError? then [] else [m])
  }

  lemma ToldOneMore(messages: seq<Message>, m: Message)
    ensures Told(messages + [m]) == Told(messages) + (if m.MirrorError? then [] else [m])
  {
    assert (messages + [m])[..|messages|] == messages;
  }

  lemma WorkerTellsNothing(c: Config, s: State, action: Action)
    ensures var t := WorkerStep(c, s, action); t.messages == s.messages && t.reader == s.reader && t.read == s.read
  {
    if action.TakeCommand? && WorkerIdle(s) && s.commands != [] {
      CommandedPhase(c, s.(commands := s.commands[1..], handled := s.handled + [s.commands[0]]), s.commands[0]);
    }
  }

  lemma ReceivedTellsNothing(s: State)
    ensures Told(Received(s).messages) == Told(s.messages) && Received(s).reader == s.reader
  {
    if !NoneWaiting(s) {
      ToldOneMore(s.messages, MirrorError(s.worker.failures[s.received]));
    }
  }

  lemma DoneTells(s: State)
    requires s.reader.Forwarding? && NoneWaiting(s)
    ensures var t := ReaderStep(s, ForwardDone);
            Told(t.messages) == Told(s.messages) + Owed(s.reader) && Owed(t.reader) == []
  {
    assert ReaderStep(s, ForwardDone).messages == s.messages + FinalMessage(s.reader.cause);
    FinalIsTold(s.messages, s.reader.cause);
  }

  lemma FinalIsTold(messages: seq<Message>, cause: Cause)
    ensures Told(messages + FinalMessage(cause)) == Told(messages) + ToTell(ReadFlushing(cause))
  {
    match cause
    case AtResult => ToldOneMore(messages, TurnResult);
    case AtReadError => ToldOneMore(messages, StreamError);
    case AtEnd => assert messages + [] == messages;
  }

  lemma ReaderTellsOne(s: State, action: Action)
    requires !action.Stop?
    ensures var t := ReaderStep(s, action);
            Told(t.messages) + Owed(t.reader)
            == Told(s.messages) + Owed(s.reader) + (if s.reader.Reading? then ToTell(action) else [])
  {
    match action
    case ReadOther => ToldOneMore(s.messages, Ordinary);
    case TakeFailure => ReceivedTellsNothing(s);
    case ForwardFailure => ReceivedTellsNothing(s);
    case ForwardDone => if s.reader.Forwarding? && NoneWaiting(s) { DoneTells(s); }
    case _ =>
  }

  lemma TellsOne(c: Config, s: State, action: Action)
    requires !action.Stop?
    ensures var t := Next(c)(s, action);
            Told(t.messages) + Owed(t.reader)
            == Told(s.messages) + Owed(s.reader) + (if s.reader.Reading? then ToTell(action) else [])
  {
    ReaderTellsOne(s, action);
    WorkerTellsNothing(c, s, action);
  }

  lemma {:induction false} TellsAll(c: Config, s: State, actions: seq<Action>)
    requires Stop !in actions
    ensures var t := Exec(Next(c), s, actions);
            Told(t.messages) + Owed(t.reader) == Told(s.messages) + Owed(s.reader) + Heard(c, s, actions)
    decreases actions
  {
    if actions != [] {
      var t := Next(c)(s, actions[0]);
      assert actions[0] in actions && forall a :: a in actions[1..] ==> a in actions;
      TellsOne(c, s, actions[0]);
      TellsAll(c, t, actions[1..]);
      Regroup(Told(s.messages) + Owed(s.reader), if s.reader.Reading? then ToTell(actions[0]) else [],
              Heard(c, t, actions[1..]));
    } else {
      assert Heard(c, s, []) == [];
    }
  }

  /** Until somebody stops the reader the consumer is told exactly what was read, in order: every
      ordinary message, every result, and a read error as one error at its end, with at most the
      last of them still behind the barrier; a clean end adds nothing. */
  lemma EverythingReadIsTold(c: Config, actions: seq<Action>)
    requires Stop !in actions
    ensures var s := Exec(Next(c), INIT, actions); Told(s.messages) + Owed(s.reader) == Heard(c, INIT, actions)
  {
    TellsAll(c, INIT, actions);
  }

  /** The frames read in a run from `s`, in order. */
  function FramesHeard(c: Config, s: State, actions: seq<Action>): seq<Batch>
    decreases actions
  {
    if actions == [] then []
    else (if s.reader.Reading? && actions[0].ReadFrame? then [actions[0].frame.batch] else [])
         + FramesHeard(c, Next(c)(s, actions[0]), actions[1..])
  }

  lemma {:induction false} FramesFrom(c: Config, s: State, actions: seq<Action>)
    ensures Exec(Next(c), s, actions).read == s.read + FramesHeard(c, s, actions)
    decreases actions
  {
    if actions != [] {
      WorkerTellsNothing(c, s, actions[0]);
      var t := Next(c)(s, actions[0]);
      FramesFrom(c, t, actions[1..]);
      var first := if s.reader.Reading? && actions[0].ReadFrame? then [actions[0].frame.batch] else [];
      assert t.read == s.read + first;
      Regroup(s.read, first, FramesHeard(c, t, actions[1..]));
    }
  }

  /** Every mirror frame that comes in while the reader reads is one of the frames read. */
  lemma EveryFrameIsRead(c: Config, actions: seq<Action>)
    ensures Exec(Next(c), INIT, actions).read == FramesHeard(c, INIT, actions)
  {
    FramesFrom(c, INIT, actions);
  }

  lemma OverStaysOver(c: Config, s: State, action: Action)
    requires s.reader.Exited?
    ensures var t := Next(c)(s, action); t.reader.Exited? && t.messages == s.messages && t.read == s.read
  {
    WorkerTellsNothing(c, s, action);
  }

  /** After a stop, whatever comes, nothing more is read or told. */
  lemma NothingAfterStop(c: Config, s: State, actions: seq<Action>)
    ensures var t := Exec(Next(c), s, [Stop] + actions); t.messages == s.messages && t.read == s.read
  {
    var inv := (t: State) => t.reader.Exited? && t.messages == s.messages && t.read == s.read;
    forall t, action | inv(t)
      ensures inv(Next(c)(t, action))
    {
      OverStaysOver(c, t, action);
    }
    ExecCons(Next(c), s, Stop, actions);
    ExecKeeps(Next(c), inv, Next(c)(s, Stop), actions);
  }

  /** While it reads, the reader can pass on the oldest failure that waits. */
  lemma WaitingFailureIsTold(c: Config, actions: seq<Action>)
    ensures var s := Exec(Next(c), INIT, actions);
            var t := Next(c)(s, TakeFailure);
            s.reader.Reading? && !NoneWaiting(s) ==>
              t.worker == s.worker && ErrorsOf(t.messages) == s.worker.failures[..s.received + 1]
  {
    EveryRunKeeps(c, actions + [TakeFailure]);
    EveryRunKeeps(c, actions);
    ExecSnoc(Next(c), INIT, actions, TakeFailure);
  }

  // ---- The barrier opens ----

  predicate AtBarrier(reader: ReaderPhase) {
    reader.AwaitingFlush? || reader.Forwarding?
  }

  /** What happens next behind a barrier when the reader and the worker go on. */
  function NextAtBarrier(s: State): Action {
    if s.groups != [] then HandOverGroup
    else if s.serving then AnswerFlush
    else if s.reader.Forwarding? then if NoneWaiting(s) then ForwardDone else ForwardFailure
    else if s.done then FlushAnswered
    else TakeCommand
  }

  lemma StepAtBarrier(c: Config, s: State)
    requires Inv(c, s) && AtBarrier(s.reader)
    ensures var action := NextAtBarrier(s);
            var t := Next(c)(s, action);
            && Inv(c, t) && !action.Stop? && t.read == s.read
            && Told(t.messages) + Owed(t.reader) == Told(s.messages) + Owed(s.reader)
            && if action.ForwardDone? then t.reader == (if s.reader.cause.AtResult? then Reading else Exited)
               else AtBarrier(t.reader) && t.reader.cause == s.reader.cause
  {
    var action := NextAtBarrier(s);
    WorkerKeeps(c, s, action);
    ReaderKeeps(c, s, action);
    WorkerTellsNothing(c, s, action);
    TellsOne(c, s, action);
    assert Told(s.messages) + Owed(s.reader) + [] == Told(s.messages) + Owed(s.reader);
  }

  lemma WorkerComesCloser(c: Config, s: State)
    requires s.groups != [] || s.serving || s.commands != []
    ensures var t := WorkerStep(c, s, if s.groups != [] then HandOverGroup else if s.serving then AnswerFlush else TakeCommand);
            || |t.commands| < |s.commands|
            || (t.commands == s.commands && |t.groups| < |s.groups|)
            || (t.commands == s.commands && t.groups == s.groups && s.serving && !t.serving)
  {
    if s.groups == [] && !s.serving {
      CommandedPhase(c, s.(commands := s.commands[1..], handled := s.handled + [s.commands[0]]), s.commands[0]);
    }
  }

  /** Once the worker is done, the reader comes closer. */
  lemma ReaderComesCloser(s: State)
    requires AtBarrier(s.reader) && s.groups == [] && !s.serving && (s.reader.AwaitingFlush? ==> s.done)
    ensures var action := NextAtBarrier(s);
            var t := ReaderStep(s, action);
            && t.commands == s.commands && t.groups == s.groups && !t.serving && t.worker == s.worker
            && if s.reader.AwaitingFlush? then t.reader.Forwarding?
               else action.ForwardDone? || (t.reader.Forwarding? && s.received < t.received <= |s.worker.failures|)
  {
  }

  /** From wherever the reader waits, the worker can finish its work and answer the flush, and the
      reader pass on every failure and then what it holds back. */
  lemma {:induction false} OpenBarrier(c: Config, s: State) returns (more: seq<Action>)
    requires Inv(c, s) && AtBarrier(s.reader)
    ensures var t := Exec(Next(c), s, more);
            && Stop !in more && t.read == s.read
            && t.reader == (if s.reader.cause.AtResult? then Reading else Exited)
            && Told(t.messages) == Told(s.messages) + Owed(s.reader)
    decreases |s.commands|, |s.groups|, if s.serving then 1 else 0, if s.reader.AwaitingFlush? then 1 else 0,
              |s.worker.failures| - s.received
  {
    var action := NextAtBarrier(s);
    var t := Next(c)(s, action);
    StepAtBarrier(c, s);
    if s.groups == [] && !s.serving && (s.reader.AwaitingFlush? ==> s.done) {
      ReaderComesCloser(s);
    } else {
      WorkerComesCloser(c, s);
    }
    if action.ForwardDone? {
      more := [action];
      ExecCons(Next(c), s, action, []);
      assert [action] + [] == more && Told(t.messages) + [] == Told(t.messages);
    } else {
      var rest := OpenBarrier(c, t);
      more := [action] + rest;
      ExecCons(Next(c), s, action, rest);
    }
  }

  /** No flush is lost: in every interleaving, a reader at its barrier can get past it, without
      reading anything, and the consumer is then told what waited there. */
  lemma EveryBarrierOpens(c: Config, actions: seq<Action>)
    requires AtBarrier(Exec(Next(c), INIT, actions).reader)
    ensures var s := Exec(Next(c), INIT, actions);
            exists more ::
              var t := Exec(Next(c), s, more);
              && Stop !in more && t.read == s.read
              && t.reader == (if s.reader.cause.AtResult? then Reading else Exited)
              && Told(t.messages) == Told(s.messages) + Owed(s.reader)
  {
    EveryRunKeeps(c, actions);
    var more := OpenBarrier(c, Exec(Next(c), INIT, actions));
  }

  // ---- The forwarding loop ----

  function Errors(failures: seq<Failure>): (messages: seq<Message>)
    ensures |messages| == |failures|
  {
    if failures == [] then [] else Errors(failures[..|failures| - 1]) + [MirrorError(failures[|failures| - 1])]
  }

  /** Forward every failure that is ready, the oldest first. */
  method ForwardReadyMirrorFailures(ready: seq<Failure>, messages: seq<Message>) returns (left: seq<Failure>, sent: seq<Message>)
    ensures left == [] && sent == messages + Errors(ready)
    ensures ErrorsOf(sent) == ErrorsOf(messages) + ready
  {
    left, sent := ready, messages;
    ghost var taken := 0;
    assert messages + [] == messages && ErrorsOf(messages) + [] == ErrorsOf(messages);
    while left != []
      invariant taken <= |ready| && left == ready[taken..]
      invariant sent == messages + Errors(ready[..taken])
      invariant ErrorsOf(sent) == ErrorsOf(messages) + ready[..taken]
      decreases left
    {
      assert ready[..taken + 1][..taken] == ready[..taken] && left[0] == ready[taken];
      assert ready[..taken + 1] == ready[..taken] + [ready[taken]];
      sent := sent + [MirrorError(left[0])];
      left := left[1..];
      taken := taken + 1;
    }
    assert ready[..taken] == ready;
  }
}
