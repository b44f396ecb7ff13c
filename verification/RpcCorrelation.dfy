/** Request correlation of the Codex JSON-RPC transport (codex-sdk/src/transport.rs:277-294,
    436-504, 596-647, 796-825; the roles of section 5 of the JSON-RPC 2.0 specification).

    Callers, the reader, the tasks that report a fatal error and the one that shuts down are
    interleaved. Every block between two awaits, or under one lock, is one step. A request is
    followed from its fatal check through its insertion into the pending map and its write to the
    one outcome it ends with; its mailbox, its sender and its place always agree, and everything
    stated about one request holds of every request. */
module RpcCorrelation {
  import opened Common

  datatype Reply = Response(payload: nat) | FatalReply(error: string) | ShutdownReply

  datatype Outcome = AlreadyClosed | NotInitialized | Fatal(error: string) | WriteError | TimedOut | Answered(reply: Reply)

  /** Where a request is. From `Allocated` on it has an id. */
  datatype Phase =
    | Fresh
    | Healthy                   // not closed
    | Ready                     // initialized, or it is the initialize request
    | NoFatal                   // no fatal error was recorded when it looked
    | Allocated(id: nat)
    | Inserted(id: nat)         // its sender is in the pending map
    | Waiting(id: nat)          // written
    | WriteFailed(id: nat)
    | TimingOut(id: nat)        // the timeout fired, the entry is still to be removed
    | Ended(ticket: Option<nat>, outcome: Outcome)

  /** The first fatal error: recorded, then pending drained, then broadcast. */
  datatype FatalPhase = NoError | ToDrain | ToBroadcast | Reported

  datatype ShutdownPhase = Open | Swapped | NotReady | ShutDown

  datatype State = State(
    nextId: nat,
    requests: map<nat, Phase>,
    pending: set<nat>,
    mail: map<nat, Reply>,      // what the one-shot channel of an id received
    received: seq<(nat, nat)>,  // responses read from the server: id and payload
    fatal: Option<string>,
    fatalPhase: FatalPhase,
    broadcasts: seq<string>,
    closed: bool,
    ready: bool,
    shutdown: ShutdownPhase,
    beforeDrain: set<nat>,      // ids inserted before pending was drained for the fatal error
    inserted: set<nat>)         // ids ever inserted

  const INIT := State(1, map[], {}, map[], [], None, NoError, [], false, false, Open, {}, {})

  datatype Step =
    | CheckClosed(c: nat)
    | CheckReady(c: nat, initialize: bool)
    | CheckFatal(c: nat)
    | Allocate(c: nat)
    | Insert(c: nat)
    | Write(c: nat, ok: bool)
    | CleanUpWrite(c: nat)
    | Receive(c: nat)
    | Timeout(c: nat)
    | CleanUpTimeout(c: nat)
    | BecomeReady
    | ServerResponse(id: nat, payload: nat)
    | RecordFatal(error: string)
    | DrainFatal
    | BroadcastFatal
    | SwapClosed
    | ClearReady
    | DrainShutdown

  function PhaseOf(s: State, c: nat): Phase {
    if c in s.requests then s.requests[c] else Fresh
  }

  function Move(s: State, c: nat, p: Phase): State {
    s.(requests := s.requests[c := p])
  }

  function IdOf(p: Phase): Option<nat> {
    match p
    case Allocated(id) => Some(id)
    case Inserted(id) => Some(id)
    case Waiting(id) => Some(id)
    case WriteFailed(id) => Some(id)
    case TimingOut(id) => Some(id)
    case Ended(ticket, _) => ticket
    case _ => None
  }

  /** Send a reply to every pending request and empty the map. */
  function DrainAll(s: State, reply: Reply): State {
    s.(mail := map id | id in s.mail.Keys + s.pending :: if id in s.pending then reply else s.mail[id], pending := {})
  }

  function CallerStep(s: State, step: Step): State {
    match step
    case CheckClosed(c) =>
      if PhaseOf(s, c) != Fresh then s
      else Move(s, c, if s.closed then Ended(None, AlreadyClosed) else Healthy)
    case CheckReady(c, initialize) =>
      if PhaseOf(s, c) != Healthy then s
      else Move(s, c, if !initialize && !s.ready then Ended(None, NotInitialized) else Ready)
    case CheckFatal(c) =>
      if PhaseOf(s, c) != Ready then s
      else Move(s, c, if s.fatal.Some? then Ended(None, Fatal(s.fatal.value)) else NoFatal)
    case Allocate(c) =>
      if PhaseOf(s, c) != NoFatal then s
      else Move(s, c, Allocated(s.nextId)).(nextId := s.nextId + 1)
    case Insert(c) =>
      (match PhaseOf(s, c)
       case Allocated(id) => Move(s, c, Inserted(id)).(pending := s.pending + {id}, inserted := s.inserted + {id})
       case _ => s)
    case Write(c, ok) =>
      (match PhaseOf(s, c)
       case Inserted(id) => Move(s, c, if ok then Waiting(id) else WriteFailed(id))
       case _ => s)
    case CleanUpWrite(c) =>
      (match PhaseOf(s, c)
       case WriteFailed(id) => Move(s, c, Ended(Some(id), WriteError)).(pending := s.pending - {id})
       case _ => s)
    case Receive(c) =>
      (match PhaseOf(s, c)
       case Waiting(id) => if id in s.mail then Move(s, c, Ended(Some(id), Answered(s.mail[id]))) else s
       case _ => s)
    case Timeout(c) =>
      (match PhaseOf(s, c)
       case Waiting(id) => Move(s, c, TimingOut(id))
       case _ => s)
    case CleanUpTimeout(c) =>
      (match PhaseOf(s, c)
       case TimingOut(id) => Move(s, c, Ended(Some(id), TimedOut)).(pending := s.pending - {id})
       case _ => s)
    case _ => s
  }

  function TransportStep(s: State, step: Step): State {
    match step
    case BecomeReady => s.(ready := true)
    case ServerResponse(id, payload) =>
      var read := s.(received := s.received + [(id, payload)]);
      if id in s.pending then read.(pending := s.pending - {id}, mail := s.mail[id := Response(payload)]) else read
    case RecordFatal(error) => if s.fatal.Some? then s else s.(fatal := Some(error), fatalPhase := ToDrain)
    case DrainFatal =>
      if s.fatalPhase.ToDrain? && s.fatal.Some? then
        DrainAll(s, FatalReply(s.fatal.value)).(fatalPhase := ToBroadcast, beforeDrain := s.inserted)
      else s
    case BroadcastFatal =>
      if s.fatalPhase.ToBroadcast? && s.fatal.Some? then
        s.(broadcasts := s.broadcasts + [s.fatal.value], fatalPhase := Reported)
      else s
    case SwapClosed => if s.closed then s else s.(closed := true, shutdown := Swapped)
    case ClearReady => if s.shutdown.Swapped? then s.(ready := false, shutdown := NotReady) else s
    case DrainShutdown => if s.shutdown.NotReady? then DrainAll(s, ShutdownReply).(shutdown := ShutDown) else s
    case _ => s
  }

  function Next(s: State, step: Step): State {
    match step
    case BecomeReady => TransportStep(s, step)
    case ServerResponse(_, _) => TransportStep(s, step)
    case RecordFatal(_) => TransportStep(s, step)
    case DrainFatal => TransportStep(s, step)
    case BroadcastFatal => TransportStep(s, step)
    case SwapClosed => TransportStep(s, step)
    case ClearReady => TransportStep(s, step)
    case DrainShutdown => TransportStep(s, step)
    case _ => CallerStep(s, step)
  }

  // ---- The invariant ----

  /** What holds of one request. */
  ghost predicate RequestOk(s: State, c: nat) {
    var p := PhaseOf(s, c);
    && (IdOf(p).Some? ==> 0 < IdOf(p).value < s.nextId)
    && match p
       case Allocated(id) => id !in s.pending && id !in s.mail && id !in s.inserted
       case Inserted(id) => (id in s.pending || id in s.mail) && id in s.inserted
       case Waiting(id) => (id in s.pending || id in s.mail) && id in s.inserted
       case WriteFailed(id) => id in s.inserted
       case TimingOut(id) => id in s.inserted
       case Ended(Some(id), outcome) =>
         id !in s.pending && id in s.inserted && (outcome.Answered? ==> id in s.mail && s.mail[id] == outcome.reply)
       case _ => true
  }

  ghost predicate IdsDiffer(s: State, c: nat, d: nat) {
    c != d && IdOf(PhaseOf(s, c)).Some? ==> IdOf(PhaseOf(s, c)) != IdOf(PhaseOf(s, d))
  }

  /** What holds of one id. */
  ghost predicate IdOk(s: State, id: nat) {
    && (id in s.pending || id in s.mail || id in s.inserted ==> id < s.nextId)
    && (id in s.pending ==> id !in s.mail && id in s.inserted)
    && (id in s.mail ==> match s.mail[id]
                         case Response(payload) => (id, payload) in s.received
                         case FatalReply(error) => s.fatal == Some(error)
                         case ShutdownReply => s.closed)
    && (id in s.pending && id in s.beforeDrain ==> false)
  }

  ghost predicate FatalOk(s: State) {
    match s.fatalPhase
    case NoError => s.fatal.None? && s.broadcasts == [] && s.beforeDrain == {}
    case ToDrain => s.fatal.Some? && s.broadcasts == [] && s.beforeDrain == {}
    case ToBroadcast => s.fatal.Some? && s.broadcasts == [] && s.beforeDrain <= s.inserted
    case Reported => s.fatal.Some? && s.broadcasts == [s.fatal.value] && s.beforeDrain <= s.inserted
  }

  ghost predicate ShutdownOk(s: State) {
    s.nextId > 0 && (s.closed <==> !s.shutdown.Open?)
  }

  ghost predicate Inv(s: State) {
    && FatalOk(s) && ShutdownOk(s)
    && (forall c :: RequestOk(s, c))
    && (forall c, d :: IdsDiffer(s, c, d))
    && (forall id :: IdOk(s, id))
  }

  /** The request a step belongs to. */
  function Mover(step: Step): nat {
    match step
    case CheckClosed(c) => c
    case CheckReady(c, _) => c
    case CheckFatal(c) => c
    case Allocate(c) => c
    case Insert(c) => c
    case Write(c, _) => c
    case CleanUpWrite(c) => c
    case Receive(c) => c
    case Timeout(c) => c
    case CleanUpTimeout(c) => c
    case _ => 0
  }

  lemma CallerKeepsRequest(s: State, step: Step, c: nat)
    requires Inv(s)
    ensures RequestOk(CallerStep(s, step), c)
  {
    var m := Mover(step);
    assert RequestOk(s, c) && RequestOk(s, m) && IdsDiffer(s, c, m);
    if IdOf(PhaseOf(s, m)).Some? {
      assert IdOk(s, IdOf(PhaseOf(s, m)).value);
    }
    assert IdOk(s, s.nextId);
  }

  lemma CallerKeepsIds(s: State, step: Step, c: nat, d: nat)
    requires Inv(s)
    ensures IdsDiffer(CallerStep(s, step), c, d)
  {
    assert RequestOk(s, c) && RequestOk(s, d) && IdsDiffer(s, c, d);
  }

  lemma CallerKeepsId(s: State, step: Step, id: nat)
    requires Inv(s)
    ensures IdOk(CallerStep(s, step), id)
  {
    assert IdOk(s, id) && RequestOk(s, Mover(step));
  }

  lemma CallerKeeps(s: State, step: Step)
    requires Inv(s)
    ensures Inv(CallerStep(s, step))
  {
    var t := CallerStep(s, step);
    forall c ensures RequestOk(t, c) { CallerKeepsRequest(s, step, c); }
    forall c, d ensures IdsDiffer(t, c, d) { CallerKeepsIds(s, step, c, d); }
    forall id ensures IdOk(t, id) { CallerKeepsId(s, step, id); }
  }

  lemma TransportKeepsRequest(s: State, step: Step, c: nat)
    requires Inv(s)
    ensures RequestOk(TransportStep(s, step), c)
  {
    assert RequestOk(s, c);
    if IdOf(PhaseOf(s, c)).Some? {
      assert IdOk(s, IdOf(PhaseOf(s, c)).value);
    }
  }

  lemma TransportKeepsId(s: State, step: Step, id: nat)
    requires Inv(s)
    ensures IdOk(TransportStep(s, step), id)
  {
    assert IdOk(s, id);
    if step.ServerResponse? {
      assert IdOk(s, step.id);
    }
  }

  lemma TransportMovesNoRequest(s: State, step: Step)
    ensures TransportStep(s, step).requests == s.requests
  {
  }

  lemma TransportKeeps(s: State, step: Step)
    requires Inv(s)
    ensures Inv(TransportStep(s, step))
  {
    var t := TransportStep(s, step);
    forall c ensures RequestOk(t, c) { TransportKeepsRequest(s, step, c); }
    forall c, d
      ensures IdsDiffer(t, c, d)
    {
      TransportMovesNoRequest(s, step);
      assert IdsDiffer(s, c, d);
    }
    forall id ensures IdOk(t, id) { TransportKeepsId(s, step, id); }
  }

  lemma EveryRunKeeps(steps: seq<Step>)
    ensures Inv(Exec(Next, INIT, steps))
  {
    forall s, step | Inv(s)
      ensures Inv(Next(s, step))
    {
      CallerKeeps(s, step);
      TransportKeeps(s, step);
    }
    ExecKeeps(Next, Inv, INIT, steps);
  }

  // ---- Results ----

  /** No two requests ever get the same id. */
  lemma IdsAreFresh(steps: seq<Step>, c: nat, d: nat)
    requires c != d
    ensures var s := Exec(Next, INIT, steps);
            IdOf(PhaseOf(s, c)).Some? ==> IdOf(PhaseOf(s, c)) != IdOf(PhaseOf(s, d))
  {
    EveryRunKeeps(steps);
    assert IdsDiffer(Exec(Next, INIT, steps), c, d);
  }

  /** A request that is answered got the reply to its own id: a response the server sent for that
      id, the recorded fatal error, or the notice of a shutdown. */
  lemma AnswerIsItsOwn(steps: seq<Step>, c: nat)
    requires var p := PhaseOf(Exec(Next, INIT, steps), c); p.Ended? && p.outcome.Answered?
    ensures var s := Exec(Next, INIT, steps);
            var p := PhaseOf(s, c);
            p.ticket.Some? && p.ticket.value in s.inserted
            && match p.outcome.reply
               case Response(payload) => (p.ticket.value, payload) in s.received
               case FatalReply(error) => s.fatal == Some(error)
               case ShutdownReply => s.closed
  {
    EveryRunKeeps(steps);
    AnsweredHasTicket(steps, c);
    var s := Exec(Next, INIT, steps);
    assert RequestOk(s, c) && IdOk(s, PhaseOf(s, c).ticket.value);
  }

  predicate Ticketed(p: Phase) {
    p.Ended? && p.outcome.Answered? ==> p.ticket.Some?
  }

  lemma AnsweredHasTicket(steps: seq<Step>, c: nat)
    ensures Ticketed(PhaseOf(Exec(Next, INIT, steps), c))
  {
    forall s, step | Ticketed(PhaseOf(s, c))
      ensures Ticketed(PhaseOf(Next(s, step), c))
    {
    }
    ExecKeeps(Next, (s: State) => Ticketed(PhaseOf(s, c)), INIT, steps);
  }

  lemma {:induction false} OutcomeStays(s: State, more: seq<Step>, c: nat)
    requires PhaseOf(s, c).Ended?
    ensures PhaseOf(Exec(Next, s, more), c) == PhaseOf(s, c)
    decreases more
  {
    if more != [] {
      EndedStays(s, more[0], c);
      OutcomeStays(Next(s, more[0]), more[1..], c);
    }
  }

  lemma EndedStays(s: State, step: Step, c: nat)
    requires PhaseOf(s, c).Ended?
    ensures PhaseOf(Next(s, step), c) == PhaseOf(s, c)
  {
  }

  /** A request has at most one outcome: what has ended never moves again. */
  lemma OneOutcome(steps: seq<Step>, more: seq<Step>, c: nat)
    requires PhaseOf(Exec(Next, INIT, steps), c).Ended?
    ensures PhaseOf(Exec(Next, INIT, steps + more), c) == PhaseOf(Exec(Next, INIT, steps), c)
  {
    ExecAppend(Next, INIT, steps, more);
    OutcomeStays(Exec(Next, INIT, steps), more, c);
  }

  lemma MailStays(s: State, step: Step, id: nat)
    requires Inv(s) && id in s.mail
    ensures id in Next(s, step).mail && Next(s, step).mail[id] == s.mail[id]
  {
    assert IdOk(s, id);
  }

  lemma {:induction false} MailStaysOverRun(s: State, more: seq<Step>, id: nat)
    requires Inv(s) && id in s.mail
    ensures var t := Exec(Next, s, more); id in t.mail && t.mail[id] == s.mail[id]
    decreases more
  {
    if more != [] {
      MailStays(s, more[0], id);
      CallerKeeps(s, more[0]);
      TransportKeeps(s, more[0]);
      MailStaysOverRun(Next(s, more[0]), more[1..], id);
    }
  }

  /** A request gets at most one reply: the first one is never replaced. */
  lemma OneReply(steps: seq<Step>, more: seq<Step>, id: nat)
    requires id in Exec(Next, INIT, steps).mail
    ensures id in Exec(Next, INIT, steps + more).mail
            && Exec(Next, INIT, steps + more).mail[id] == Exec(Next, INIT, steps).mail[id]
  {
    EveryRunKeeps(steps);
    ExecAppend(Next, INIT, steps, more);
    MailStaysOverRun(Exec(Next, INIT, steps), more, id);
  }

  /** A response for an id that was answered, whose request has ended, or that was never sent
      out changes nothing but the record of what was read. */
  lemma LateResponsesAreIgnored(steps: seq<Step>, id: nat, payload: nat, c: nat)
    requires var s := Exec(Next, INIT, steps);
             id in s.mail || (PhaseOf(s, c).Ended? && PhaseOf(s, c).ticket == Some(id)) || id !in s.inserted
    ensures var s := Exec(Next, INIT, steps);
            Next(s, ServerResponse(id, payload)) == s.(received := s.received + [(id, payload)])
  {
    EveryRunKeeps(steps);
    var s := Exec(Next, INIT, steps);
    assert IdOk(s, id) && RequestOk(s, c);
  }

  /** A waiting request can always still be answered or time out: its sender is pending or its
      reply has arrived; the channel is never dropped under it. */
  lemma WaitingIsNeverAbandoned(steps: seq<Step>, c: nat)
    requires PhaseOf(Exec(Next, INIT, steps), c).Waiting?
    ensures var s := Exec(Next, INIT, steps);
            var id := PhaseOf(s, c).id;
            id in s.pending <==> id !in s.mail
  {
    EveryRunKeeps(steps);
    var s := Exec(Next, INIT, steps);
    assert RequestOk(s, c) && IdOk(s, PhaseOf(s, c).id);
  }

  // ---- Fatal errors ----

  ghost predicate FirstFatal(s: State, error: string) {
    s.fatal == Some(error) && FatalOk(s)
  }

  lemma FatalStays(s: State, step: Step, error: string)
    requires FirstFatal(s, error) && Inv(s)
    ensures FirstFatal(Next(s, step), error)
  {
    CallerKeeps(s, step);
    TransportKeeps(s, step);
  }

  lemma {:induction false} FatalStaysOverRun(s: State, more: seq<Step>, error: string)
    requires FirstFatal(s, error) && Inv(s)
    ensures FirstFatal(Exec(Next, s, more), error)
    decreases more
  {
    if more != [] {
      FatalStays(s, more[0], error);
      CallerKeeps(s, more[0]);
      TransportKeeps(s, more[0]);
      FatalStaysOverRun(Next(s, more[0]), more[1..], error);
    }
  }

  /** The first fatal error is the only one recorded and the only one broadcast, once. */
  lemma FirstFatalOnly(steps: seq<Step>, more: seq<Step>, error: string)
    requires Exec(Next, INIT, steps).fatal == Some(error)
    ensures var t := Exec(Next, INIT, steps + more);
            t.fatal == Some(error) && (t.broadcasts == [] || t.broadcasts == [error])
  {
    EveryRunKeeps(steps);
    ExecAppend(Next, INIT, steps, more);
    FatalStaysOverRun(Exec(Next, INIT, steps), more, error);
  }

  predicate Drained(s: State) {
    s.fatalPhase.ToBroadcast? || s.fatalPhase.Reported?
  }

  /** The drain ends every request that was inserted before it: such a request is pending no
      more, and if it waits its reply is there. */
  lemma DrainReachesAllInserted(steps: seq<Step>, c: nat)
    requires var s := Exec(Next, INIT, steps);
             Drained(s) && PhaseOf(s, c).Waiting? && PhaseOf(s, c).id in s.beforeDrain
    ensures var s := Exec(Next, INIT, steps); PhaseOf(s, c).id in s.mail && PhaseOf(s, c).id !in s.pending
  {
    EveryRunKeeps(steps);
    var s := Exec(Next, INIT, steps);
    assert RequestOk(s, c) && IdOk(s, PhaseOf(s, c).id);
  }

  /** A request on its own after the drain: no reply has come for it. */
  ghost predicate Unanswered(s: State, c: nat) {
    var p := PhaseOf(s, c);
    && Inv(s) && Drained(s)
    && (p.NoFatal? || p.Allocated?
        || ((p.Inserted? || p.Waiting? || p.WriteFailed? || p.TimingOut?) && p.id !in s.mail)
        || (p.Ended? && (p.outcome == TimedOut || p.outcome == WriteError)))
  }

  /** The step answers nobody but others: no response to the id of request `c`, no shutdown. */
  predicate LeavesAlone(s: State, step: Step, c: nat) {
    !step.DrainShutdown? && (step.ServerResponse? ==> IdOf(PhaseOf(s, c)) != Some(step.id))
  }

  predicate LeftAlone(s: State, more: seq<Step>, c: nat)
    decreases more
  {
    more == [] || (LeavesAlone(s, more[0], c) && LeftAlone(Next(s, more[0]), more[1..], c))
  }

  lemma UnansweredByCallers(s: State, step: Step, c: nat)
    requires Unanswered(s, c)
    ensures Unanswered(CallerStep(s, step), c)
  {
    CallerKeeps(s, step);
    assert RequestOk(s, c);
    assert IdOk(s, s.nextId);
  }

  lemma UnansweredByTransport(s: State, step: Step, c: nat)
    requires Unanswered(s, c) && LeavesAlone(s, step, c)
    ensures Unanswered(TransportStep(s, step), c)
  {
    TransportKeeps(s, step);
    assert RequestOk(s, c);
  }

  lemma UnansweredStays(s: State, step: Step, c: nat)
    requires Unanswered(s, c) && LeavesAlone(s, step, c)
    ensures Unanswered(Next(s, step), c)
  {
    UnansweredByCallers(s, step, c);
    UnansweredByTransport(s, step, c);
  }

  /** A request that looked for a fatal error before it was recorded and inserts after the drain
      is not ended by it: as long as the server sends no response to its own id and nobody shuts
      down, whatever else happens, the only outcomes left are the timeout and a failed write. */
  lemma {:induction false} LateInsertEndsAlone(s: State, more: seq<Step>, c: nat)
    requires Unanswered(s, c) && LeftAlone(s, more, c)
    ensures Unanswered(Exec(Next, s, more), c)
    decreases more
  {
    if more != [] {
      UnansweredStays(s, more[0], c);
      LateInsertEndsAlone(Next(s, more[0]), more[1..], c);
    }
  }

  /** The steps of a request that passes the check before the error and inserts after the drain. */
  function LateRun(error: string): seq<Step> {
    ([CheckClosed(0), CheckReady(0, true), CheckFatal(0)] + [RecordFatal(error), DrainFatal, BroadcastFatal])
    + [Allocate(0), Insert(0), Write(0, true)]
  }

  /** Such a request exists. */
  lemma LateInsertOutlivesTheFatal(error: string)
    ensures var s := Exec(Next, INIT, LateRun(error));
            PhaseOf(s, 0) == Waiting(1) && 1 in s.pending && Unanswered(s, 0)
  {
    LateRunEnds(error);
    EveryRunKeeps(LateRun(error));
  }

  lemma LateRunEnds(error: string)
    ensures var s := Exec(Next, INIT, LateRun(error));
            s.fatalPhase.Reported? && PhaseOf(s, 0) == Waiting(1) && 1 in s.pending && s.mail == map[]
  {
    var looked := [CheckClosed(0), CheckReady(0, true), CheckFatal(0)];
    var fatal := [RecordFatal(error), DrainFatal, BroadcastFatal];
    ExecAppend(Next, INIT, looked + fatal, [Allocate(0), Insert(0), Write(0, true)]);
    ExecAppend(Next, INIT, looked, fatal);
    LookedThrough();
    FatalMeanwhile(INIT.(requests := map[0 := NoFatal]), error);
    InsertsLate(Exec(Next, INIT.(requests := map[0 := NoFatal]), fatal));
  }

  lemma ExecThree(s: State, x: Step, y: Step, z: Step)
    ensures Exec(Next, s, [x, y, z]) == Next(Next(Next(s, x), y), z)
  {
    assert [x, y, z] == [x] + [y, z] && [y, z] == [y] + [z] && [z] == [z] + [];
    ExecCons(Next, s, x, [y, z]);
    ExecCons(Next, Next(s, x), y, [z]);
    ExecCons(Next, Next(Next(s, x), y), z, []);
  }

  lemma LookedThrough()
    ensures Exec(Next, INIT, [CheckClosed(0), CheckReady(0, true), CheckFatal(0)]) == INIT.(requests := map[0 := NoFatal])
  {
    ExecThree(INIT, CheckClosed(0), CheckReady(0, true), CheckFatal(0));
    var a := Next(INIT, CheckClosed(0));
    var b := Next(a, CheckReady(0, true));
    assert Next(b, CheckFatal(0)).requests == map[0 := NoFatal];
  }

  lemma FatalMeanwhile(s: State, error: string)
    requires s.fatal.None? && s.fatalPhase.NoError? && s.pending == {} && s.mail == map[]
    ensures var t := Exec(Next, s, [RecordFatal(error), DrainFatal, BroadcastFatal]);
            t.fatalPhase.Reported? && t.requests == s.requests && t.nextId == s.nextId && t.mail == map[]
  {
    ExecThree(s, RecordFatal(error), DrainFatal, BroadcastFatal);
    var a := Next(s, RecordFatal(error));
    assert a == s.(fatal := Some(error), fatalPhase := ToDrain);
    var b := Next(a, DrainFatal);
    assert b.mail == map[] && b.fatalPhase.ToBroadcast? && b.fatal == Some(error);
  }

  lemma InsertsLate(s: State)
    requires s.requests == map[0 := NoFatal] && s.nextId == 1
    ensures var t := Exec(Next, s, [Allocate(0), Insert(0), Write(0, true)]);
            t.fatalPhase == s.fatalPhase && PhaseOf(t, 0) == Waiting(1) && 1 in t.pending && t.mail == s.mail
  {
    ExecThree(s, Allocate(0), Insert(0), Write(0, true));
    var a := Next(s, Allocate(0));
    assert PhaseOf(a, 0) == Allocated(1);
    var b := Next(a, Insert(0));
    assert PhaseOf(b, 0) == Inserted(1);
  }

  // ---- What becomes of a request ----

  /** The error of the first report in a run. */
  function FirstError(steps: seq<Step>): Option<string> {
    if steps == [] then None
    else if steps[0].RecordFatal? then Some(steps[0].error)
    else FirstError(steps[1..])
  }

  lemma {:induction false} FlagsFrom(s: State, steps: seq<Step>)
    ensures var t := Exec(Next, s, steps);
            && (t.closed <==> s.closed || SwapClosed in steps)
            && t.fatal == (if s.fatal.Some? then s.fatal else FirstError(steps))
            && (t.ready ==> s.ready || BecomeReady in steps)
            && (ClearReady !in steps && (s.ready || BecomeReady in steps) ==> t.ready)
    decreases steps
  {
    if steps != [] {
      OneFlag(s, steps[0]);
      FlagsFrom(Next(s, steps[0]), steps[1..]);
      assert forall x :: x in steps <==> x == steps[0] || x in steps[1..];
    }
  }

  lemma OneFlag(s: State, step: Step)
    ensures var t := Next(s, step);
            && (t.closed <==> s.closed || step == SwapClosed)
            && t.fatal == (if s.fatal.None? && step.RecordFatal? then Some(step.error) else s.fatal)
            && (t.ready ==> s.ready || step == BecomeReady)
            && (step != ClearReady && (s.ready || step == BecomeReady) ==> t.ready)
  {
  }

  /** What the flags say about a run: it is closed once a shutdown has begun, the fatal error is
      the first that was reported, and without a shutdown it is ready once it became so. */
  lemma FlagsSayTheRun(steps: seq<Step>)
    ensures var s := Exec(Next, INIT, steps);
            && (s.closed <==> SwapClosed in steps)
            && s.fatal == FirstError(steps)
            && (s.ready ==> BecomeReady in steps)
            && (ClearReady !in steps ==> (s.ready <==> BecomeReady in steps))
  {
    FlagsFrom(INIT, steps);
  }

  function Begins(c: nat, initialize: bool): seq<Step> {
    [CheckClosed(c), CheckReady(c, initialize), CheckFatal(c)]
  }

  function Sends(c: nat, ok: bool): seq<Step> {
    [Allocate(c), Insert(c), Write(c, ok)]
  }

  /** Why a new request is turned away, if it is. */
  function TurnedAway(steps: seq<Step>, ready: bool, initialize: bool): Option<Outcome> {
    if SwapClosed in steps then Some(AlreadyClosed)
    else if !initialize && !ready then Some(NotInitialized)
    else if FirstError(steps).Some? then Some(Fatal(FirstError(steps).value))
    else None
  }

  lemma MovesTwice(s: State, c: nat, p: Phase, q: Phase)
    ensures Move(Move(s, c, p), c, q) == Move(s, c, q)
  {
    assert s.requests[c := p][c := q] == s.requests[c := q];
  }

  lemma BeginsFrom(s: State, c: nat, initialize: bool)
    requires PhaseOf(s, c).Fresh?
    ensures Exec(Next, s, Begins(c, initialize)) ==
            Move(s, c, if s.closed then Ended(None, AlreadyClosed)
                       else if !initialize && !s.ready then Ended(None, NotInitialized)
                       else if s.fatal.Some? then Ended(None, Fatal(s.fatal.value)) else NoFatal)
  {
    ExecThree(s, CheckClosed(c), CheckReady(c, initialize), CheckFatal(c));
    var a := Next(s, CheckClosed(c));
    var b := Next(a, CheckReady(c, initialize));
    MovesTwice(s, c, PhaseOf(a, c), PhaseOf(b, c));
    MovesTwice(s, c, PhaseOf(b, c), PhaseOf(Next(b, CheckFatal(c)), c));
  }

  /** A request that begins after any run, with nobody in between, is turned away on a closed
      transport, on one that is not initialized unless it is the initialize request, and after a
      fatal error, in this order; otherwise it goes on to get an id. */
  lemma RequestBegins(steps: seq<Step>, c: nat, initialize: bool)
    requires PhaseOf(Exec(Next, INIT, steps), c).Fresh?
    ensures var s := Exec(Next, INIT, steps);
            var away := TurnedAway(steps, s.ready, initialize);
            Exec(Next, s, Begins(c, initialize)) == Move(s, c, if away.Some? then Ended(None, away.value) else NoFatal)
  {
    FlagsSayTheRun(steps);
    BeginsFrom(Exec(Next, INIT, steps), c, initialize);
  }

  lemma SendsFrom(s: State, c: nat, ok: bool)
    requires PhaseOf(s, c).NoFatal?
    ensures Exec(Next, s, Sends(c, ok)) ==
            Move(s, c, if ok then Waiting(s.nextId) else WriteFailed(s.nextId)).(
                 nextId := s.nextId + 1, pending := s.pending + {s.nextId}, inserted := s.inserted + {s.nextId})
  {
    ExecThree(s, Allocate(c), Insert(c), Write(c, ok));
    var id := s.nextId;
    var a := Move(s, c, Allocated(id)).(nextId := id + 1);
    assert Next(s, Allocate(c)) == a;
    InsertsAndWrites(a, c, id, ok);
    MovesTwice(s, c, Allocated(id), if ok then Waiting(id) else WriteFailed(id));
  }

  lemma InsertsAndWrites(s: State, c: nat, id: nat, ok: bool)
    requires PhaseOf(s, c) == Allocated(id)
    ensures Next(Next(s, Insert(c)), Write(c, ok)) ==
            Move(s, c, if ok then Waiting(id) else WriteFailed(id)).(
                 pending := s.pending + {id}, inserted := s.inserted + {id})
  {
    var b := Move(s, c, Inserted(id)).(pending := s.pending + {id}, inserted := s.inserted + {id});
    assert Next(s, Insert(c)) == b && PhaseOf(b, c) == Inserted(id);
    MovesTwice(s, c, Inserted(id), if ok then Waiting(id) else WriteFailed(id));
  }

  /** It is then written under an id that nobody had, its sender in the map. */
  lemma RequestIsSent(steps: seq<Step>, c: nat, ok: bool)
    requires PhaseOf(Exec(Next, INIT, steps), c).NoFatal?
    ensures var s := Exec(Next, INIT, steps);
            var id := s.nextId;
            && id !in s.inserted && id !in s.pending && id !in s.mail
            && Exec(Next, s, Sends(c, ok)) ==
               Move(s, c, if ok then Waiting(id) else WriteFailed(id)).(
                    nextId := id + 1, pending := s.pending + {id}, inserted := s.inserted + {id})
  {
    EveryRunKeeps(steps);
    var s := Exec(Next, INIT, steps);
    assert IdOk(s, s.nextId);
    SendsFrom(s, c, ok);
  }

  /** Nothing changes for anybody but the owner of `id` and request `c`. */
  ghost predicate OthersUntouched(s: State, t: State, c: nat, id: nat) {
    && (forall d :: d != c ==> PhaseOf(t, d) == PhaseOf(s, d))
    && t.pending - {id} == s.pending - {id}
    && (forall i :: i in s.mail && i != id ==> i in t.mail && t.mail[i] == s.mail[i])
    && (forall i :: i in t.mail && i != id ==> i in s.mail)
  }

  /** A response from the server reaches the request that waits for it, and nobody else. */
  lemma ResponseReachesItsRequest(steps: seq<Step>, c: nat, payload: nat)
    requires var s := Exec(Next, INIT, steps); PhaseOf(s, c).Waiting? && PhaseOf(s, c).id in s.pending
    ensures var s := Exec(Next, INIT, steps);
            var id := PhaseOf(s, c).id;
            var t := Next(Next(s, ServerResponse(id, payload)), Receive(c));
            && PhaseOf(t, c) == Ended(Some(id), Answered(Response(payload)))
            && id !in t.pending && OthersUntouched(s, t, c, id)
            && t.received == s.received + [(id, payload)]
  {
    var s := Exec(Next, INIT, steps);
    var id := PhaseOf(s, c).id;
    var a := Next(s, ServerResponse(id, payload));
    assert PhaseOf(a, c) == Waiting(id) && a.mail[id] == Response(payload);
  }

  /** A waiting request ends with its reply as soon as it has one, and nobody else is touched. */
  lemma ReplyEndsItsRequest(s: State, c: nat)
    requires PhaseOf(s, c).Waiting?
    ensures var id := PhaseOf(s, c).id;
            var t := Next(s, Receive(c));
            && PhaseOf(t, c) == (if id in s.mail then Ended(Some(id), Answered(s.mail[id])) else Waiting(id))
            && OthersUntouched(s, t, c, id)
  {
  }

  /** A request that times out, or whose write failed, ends so; its sender leaves the map and
      nobody else is touched. */
  lemma FailureEndsItsRequest(s: State, c: nat)
    requires PhaseOf(s, c).Waiting? || PhaseOf(s, c).WriteFailed?
    ensures var p := PhaseOf(s, c);
            var t := if p.Waiting? then Next(Next(s, Timeout(c)), CleanUpTimeout(c)) else Next(s, CleanUpWrite(c));
            && PhaseOf(t, c) == Ended(Some(p.id), if p.Waiting? then TimedOut else WriteError)
            && p.id !in t.pending && t.mail == s.mail && OthersUntouched(s, t, c, p.id)
  {
    var p := PhaseOf(s, c);
    if p.Waiting? {
      var a := Move(s, c, TimingOut(p.id));
      assert Next(s, Timeout(c)) == a && PhaseOf(a, c) == TimingOut(p.id);
      assert Next(a, CleanUpTimeout(c)) == Move(a, c, Ended(Some(p.id), TimedOut)).(pending := s.pending - {p.id});
    }
  }

  /** Everyone in the map got this reply, and nobody else got anything. */
  ghost predicate AllReplied(s: State, t: State, reply: Reply) {
    && t.pending == {} && t.requests == s.requests
    && (forall id :: id in t.mail <==> id in s.mail || id in s.pending)
    && (forall id :: id in s.pending ==> id in t.mail && t.mail[id] == reply)
    && (forall id :: id in s.mail && id !in s.pending ==> id in t.mail && t.mail[id] == s.mail[id])
  }

  /** The first fatal error, with nobody in between, ends every pending request with that error,
      is remembered and is broadcast. */
  lemma FatalErrorReachesAll(steps: seq<Step>, error: string)
    requires FirstError(steps).None?
    ensures var s := Exec(Next, INIT, steps);
            var t := Exec(Next, s, [RecordFatal(error), DrainFatal, BroadcastFatal]);
            && AllReplied(s, t, FatalReply(error)) && t.fatal == Some(error) && t.broadcasts == [error]
            && Drained(t) && t.beforeDrain == s.inserted
  {
    FlagsSayTheRun(steps);
    EveryRunKeeps(steps);
    FatalFrom(Exec(Next, INIT, steps), error);
  }

  lemma FatalFrom(s: State, error: string)
    requires s.fatal.None? && s.broadcasts == []
    ensures var t := Exec(Next, s, [RecordFatal(error), DrainFatal, BroadcastFatal]);
            && AllReplied(s, t, FatalReply(error)) && t.fatal == Some(error) && t.broadcasts == [error]
            && Drained(t) && t.beforeDrain == s.inserted
  {
    ExecThree(s, RecordFatal(error), DrainFatal, BroadcastFatal);
    var a := s.(fatal := Some(error), fatalPhase := ToDrain);
    var b := DrainAll(a, FatalReply(error)).(fatalPhase := ToBroadcast, beforeDrain := s.inserted);
    assert Next(s, RecordFatal(error)) == a && Next(a, DrainFatal) == b;
    assert Next(b, BroadcastFatal) == b.(broadcasts := [error], fatalPhase := Reported);
  }

  /** The first shutdown, with nobody in between, ends every pending request with its notice, and
      leaves the transport closed and not ready; a later one does nothing. */
  lemma ShutdownReachesAll(steps: seq<Step>)
    ensures var s := Exec(Next, INIT, steps);
            var t := Exec(Next, s, [SwapClosed, ClearReady, DrainShutdown]);
            && (SwapClosed !in steps ==> AllReplied(s, t, ShutdownReply) && t.closed && !t.ready && t.shutdown.ShutDown?)
            && (s.shutdown.ShutDown? ==> t == s)
  {
    FlagsSayTheRun(steps);
    EveryRunKeeps(steps);
    var s := Exec(Next, INIT, steps);
    ExecThree(s, SwapClosed, ClearReady, DrainShutdown);
    if SwapClosed !in steps {
      var a := Next(s, SwapClosed);
      assert a == s.(closed := true, shutdown := Swapped);
      assert Next(a, ClearReady) == a.(ready := false, shutdown := NotReady);
    }
  }

  // ---- The pending map ----

  /** The map of senders, and what the receivers at their other end got. */
  class PendingRequests {
    var pending: set<nat>
    var mail: map<nat, Reply>

    /** The machine's map and mailboxes are these. */
    predicate Stands(s: State)
      reads this
    {
      s.pending == pending && s.mail == mail
    }

    constructor ()
      ensures Stands(INIT)
    {
      pending, mail := {}, map[];
    }

    /** What `Insert` does to the machine. */
    method Insert(id: nat)
      modifies this`pending
      ensures pending == old(pending) + {id}
      ensures forall s: State, c: nat | old(Stands(s)) && PhaseOf(s, c) == Allocated(id) :: Stands(Next(s, Step.Insert(c)))
    {
      pending := pending + {id};
    }

    /** What `ServerResponse` does: take out the sender of an id, if it is there, and send the
        response. An unknown id leaves everything as it was. */
    method Complete(id: nat, payload: nat) returns (known: bool)
      modifies this
      ensures forall s: State | old(Stands(s)) :: Stands(Next(s, ServerResponse(id, payload)))
      ensures known <==> id in old(pending)
      ensures known ==> pending == old(pending) - {id} && mail == old(mail)[id := Response(payload)]
      ensures !known ==> pending == old(pending) && mail == old(mail)
    {
      known := id in pending;
      if known {
        pending := pending - {id};
        mail := mail[id := Response(payload)];
      }
    }

    /** What the clean-up after a timeout or a failed write does. */
    method Remove(id: nat)
      modifies this`pending
      ensures pending == old(pending) - {id}
      ensures forall s: State, c: nat | old(Stands(s)) && PhaseOf(s, c) == TimingOut(id) :: Stands(Next(s, CleanUpTimeout(c)))
      ensures forall s: State, c: nat | old(Stands(s)) && PhaseOf(s, c) == WriteFailed(id) :: Stands(Next(s, CleanUpWrite(c)))
    {
      pending := pending - {id};
    }

    /** What the two drains do: send one reply to every sender left, whatever the order, and empty
        the map. */
    method Drain(reply: Reply)
      modifies this
      ensures forall s: State | old(Stands(s)) :: Stands(DrainAll(s, reply))
      ensures pending == {}
    {
      while pending != {}
        invariant pending <= old(pending)
        invariant forall id :: id in mail <==> id in old(mail) || id in old(pending) - pending
        invariant forall id :: id in mail ==> mail[id] == if id in old(pending) - pending then reply else old(mail)[id]
        decreases pending
      {
        var id :| id in pending;
        pending := pending - {id};
        mail := mail[id := reply];
      }
      forall s: State | old(Stands(s))
        ensures DrainAll(s, reply).mail == mail
      {
        assert forall id :: id in DrainAll(s, reply).mail <==> id in mail;
      }
    }
  }
}
