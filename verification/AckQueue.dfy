/** The queue of inputs waiting for their echo (garyx-bridge/src/provider_common.rs). */
module AckQueue {
  import opened Common
  import opened Text

  datatype Marker = Root | Queued(id: string)

  // ---- The operations on the marker list ----

  function Rolled(markers: seq<Marker>, id: string): seq<Marker> {
    RemoveAt(markers, IndexOf(markers, Queued(id)))
  }

  predicate HasQueued(markers: seq<Marker>) {
    exists i :: 0 <= i < |markers| && markers[i].Queued?
  }

  /** One echo: the id it acknowledges, if any, and the markers left. */
  function Acknowledged(markers: seq<Marker>, preferQueued: bool): (Option<string>, seq<Marker>) {
    var rest := if preferQueued && markers != [] && markers[0].Root? && HasQueued(markers) then markers[1..] else markers;
    if rest == [] then (None, rest)
    else (if rest[0].Queued? then Some(rest[0].id) else None, rest[1..])
  }

  class PendingAckQueue {
    var markers: seq<Marker>

    constructor ()
      ensures markers == []
    {
      markers := [];
    }

    constructor WithRootUserMessage()
      ensures markers == [Root]
    {
      markers := [Root];
    }

    method Enqueue(id: string)
      modifies this
      ensures markers == old(markers) + [Queued(id)]
    {
      markers := markers + [Queued(id)];
    }

    method Rollback(id: string)
      modifies this
      ensures markers == Rolled(old(markers), id)
    {
      markers := RemoveAt(markers, IndexOf(markers, Queued(id)));
    }

    method AcknowledgeNext(preferQueued: bool) returns (id: Option<string>)
      modifies this
      ensures (id, markers) == Acknowledged(old(markers), preferQueued)
    {
      var queued := HasQueuedInput();
      if preferQueued && markers != [] && markers[0].Root? && queued {
        markers := markers[1..];
      }
      if markers == [] {
        return None;
      }
      id := if markers[0].Queued? then Some(markers[0].id) else None;
      markers := markers[1..];
    }

    method HasQueuedInput() returns (found: bool)
      ensures found <==> HasQueued(markers)
    {
      for i := 0 to |markers|
        invariant forall j :: 0 <= j < i ==> !markers[j].Queued?
      {
        if markers[i].Queued? {
          return true;
        }
      }
      found := false;
    }
  }

  // ---- Conservation ----

  datatype Op = EnqueueOp(id: string) | RollbackOp(id: string) | EchoOp(preferQueued: bool)

  datatype Fate = Waiting | Acked | RolledBack

  /** One accepted input and what became of it. */
  datatype Cell = Cell(id: string, fate: Fate)

  /** The ids of the cells with one fate, in enqueue order. */
  function With(ledger: seq<Cell>, fate: Fate): seq<string> {
    if ledger == [] then []
    else if ledger[0].fate == fate then [ledger[0].id] + With(ledger[1..], fate)
    else With(ledger[1..], fate)
  }

  function QueuedMarkers(ids: seq<string>): (r: seq<Marker>)
    ensures |r| == |ids|
  {
    seq(|ids|, i requires 0 <= i < |ids| => Queued(ids[i]))
  }

  /** The first waiting cell, or the first waiting cell with this id. */
  function FirstWaiting(ledger: seq<Cell>, id: Option<string>): (i: nat)
    ensures i <= |ledger|
    ensures i < |ledger| ==> ledger[i].fate == Waiting && (id.Some? ==> ledger[i].id == id.value)
  {
    if ledger == [] || (ledger[0].fate == Waiting && (id.None? || ledger[0].id == id.value)) then 0
    else 1 + FirstWaiting(ledger[1..], id)
  }

  function Settle(ledger: seq<Cell>, id: Option<string>, fate: Fate): (r: seq<Cell>)
    ensures |r| == |ledger| && forall i :: 0 <= i < |r| ==> r[i].id == ledger[i].id
  {
    var i := FirstWaiting(ledger, id);
    if i < |ledger| then ledger[i := Cell(ledger[i].id, fate)] else ledger
  }

  /** The queue next to the ledger of every input it ever took. */
  datatype Audit = Audit(markers: seq<Marker>, ledger: seq<Cell>)

  function AuditStep(a: Audit, op: Op): (Audit, seq<string>) {
    match op
    case EnqueueOp(id) => (Audit(a.markers + [Queued(id)], a.ledger + [Cell(id, Waiting)]), [])
    case RollbackOp(id) => (Audit(Rolled(a.markers, id), Settle(a.ledger, Some(id), RolledBack)), [])
    case EchoOp(prefer) =>
      var (id, markers) := Acknowledged(a.markers, prefer);
      if id.None? then (a.(markers := markers), [])
      else (Audit(markers, Settle(a.ledger, None, Acked)), [id.value])
  }

  function Stepper(): (Audit, Op) -> (Audit, seq<string>) {
    (a: Audit, op: Op) => AuditStep(a, op)
  }

  /** Nothing is acknowledged past an input that still waits. */
  ghost predicate AckedBeforeWaiting(ledger: seq<Cell>) {
    forall i, j :: 0 <= i < j < |ledger| && ledger[i].fate == Waiting ==> ledger[j].fate != Acked
  }

  ghost predicate Conserved(a: Audit, acked: seq<string>) {
    && (a.markers == QueuedMarkers(With(a.ledger, Waiting))
        || a.markers == [Root] + QueuedMarkers(With(a.ledger, Waiting)))
    && acked == With(a.ledger, Acked)
    && AckedBeforeWaiting(a.ledger)
  }

  lemma {:induction false} WithAppend(a: seq<Cell>, b: seq<Cell>, fate: Fate)
    ensures With(a + b, fate) == With(a, fate) + With(b, fate)
  {
    if a == [] {
      assert a + b == b;
    } else {
      WithAppend(a[1..], b, fate);
      assert (a + b)[1..] == a[1..] + b;
    }
  }

  lemma {:induction false} WithNone(ledger: seq<Cell>, fate: Fate)
    requires forall i :: 0 <= i < |ledger| ==> ledger[i].fate != fate
    ensures With(ledger, fate) == []
  {
    if ledger != [] {
      WithNone(ledger[1..], fate);
    }
  }

  /** Settling the cell at `k` moves its id from the waiting ids to those of its new fate. */
  lemma WithSettled(ledger: seq<Cell>, k: nat, fate: Fate)
    requires k < |ledger| && ledger[k].fate == Waiting && fate != Waiting
    ensures var after := ledger[k := Cell(ledger[k].id, fate)];
            && With(ledger, Waiting) == With(ledger[..k], Waiting) + [ledger[k].id] + With(ledger[k + 1..], Waiting)
            && With(after, Waiting) == With(ledger[..k], Waiting) + With(ledger[k + 1..], Waiting)
            && With(after, fate) == With(ledger[..k], fate) + [ledger[k].id] + With(ledger[k + 1..], fate)
            && With(ledger, fate) == With(ledger[..k], fate) + With(ledger[k + 1..], fate)
            && (forall f :: f != Waiting && f != fate ==> With(after, f) == With(ledger, f))
  {
    var a, b, id := ledger[..k], ledger[k + 1..], ledger[k].id;
    var after := ledger[k := Cell(id, fate)];
    assert ledger == a + ([Cell(id, Waiting)] + b) && after == a + ([Cell(id, fate)] + b);
    forall f: Fate
      ensures With(ledger, f) == With(a, f) + (if f == Waiting then [id] else []) + With(b, f)
      ensures With(after, f) == With(a, f) + (if f == fate then [id] else []) + With(b, f)
    {
      WithMiddle(a, Cell(id, Waiting), b, f);
      WithMiddle(a, Cell(id, fate), b, f);
    }
  }

  lemma WithMiddle(a: seq<Cell>, c: Cell, b: seq<Cell>, f: Fate)
    ensures With(a + ([c] + b), f) == With(a, f) + (if f == c.fate then [c.id] else []) + With(b, f)
  {
    WithAppend(a, [c] + b, f);
    WithAppend([c], b, f);
    assert [c][1..] == [];
  }

  /** The first waiting cell with an id is as many waiting ids in as that id is. */
  lemma {:induction false} FirstWaitingIsIndex(ledger: seq<Cell>, id: string)
    ensures var k := FirstWaiting(ledger, Some(id));
            && (k < |ledger| <==> id in With(ledger, Waiting))
            && |With(ledger[..k], Waiting)| == IndexOf(With(ledger, Waiting), id)
  {
    if ledger != [] {
      var k := FirstWaiting(ledger, Some(id));
      if ledger[0].fate == Waiting && ledger[0].id == id {
      } else {
        FirstWaitingIsIndex(ledger[1..], id);
        assert ledger[..k][1..] == ledger[1..][..k - 1];
        if ledger[0].fate == Waiting {
          assert With(ledger, Waiting)[1..] == With(ledger[1..], Waiting);
        }
      }
    }
  }

  lemma {:induction false} FirstWaitingIsFirst(ledger: seq<Cell>)
    ensures var k := FirstWaiting(ledger, None);
            && (k < |ledger| <==> With(ledger, Waiting) != [])
            && (forall i :: 0 <= i < k ==> ledger[i].fate != Waiting)
  {
    if ledger != [] && ledger[0].fate != Waiting {
      FirstWaitingIsFirst(ledger[1..]);
      var k := FirstWaiting(ledger, None);
      forall i | 0 <= i < k
        ensures ledger[i].fate != Waiting
      {
        if i > 0 {
          assert ledger[i] == ledger[1..][i - 1];
        }
      }
    }
  }

  lemma {:induction false} QueuedPosition(ids: seq<string>, id: string)
    ensures IndexOf(QueuedMarkers(ids), Queued(id)) == IndexOf(ids, id)
  {
    if ids != [] {
      QueuedPosition(ids[1..], id);
      assert QueuedMarkers(ids)[1..] == QueuedMarkers(ids[1..]);
    }
  }

  lemma RemoveQueued(ids: seq<string>, k: nat)
    requires k <= |ids|
    ensures RemoveAt(QueuedMarkers(ids), k) == QueuedMarkers(RemoveAt(ids, k))
    ensures RemoveAt([Root] + QueuedMarkers(ids), k + 1) == [Root] + QueuedMarkers(RemoveAt(ids, k))
  {
  }

  /** A rollback removes the id's first marker, whether or not the root marker is in front. */
  lemma RolledQueued(ids: seq<string>, id: string)
    ensures var rest := QueuedMarkers(RemoveAt(ids, IndexOf(ids, id)));
            Rolled(QueuedMarkers(ids), id) == rest && Rolled([Root] + QueuedMarkers(ids), id) == [Root] + rest
  {
    QueuedPosition(ids, id);
    RemoveQueued(ids, IndexOf(ids, id));
    assert ([Root] + QueuedMarkers(ids))[1..] == QueuedMarkers(ids);
    assert IndexOf([Root] + QueuedMarkers(ids), Queued(id)) == 1 + IndexOf(ids, id);
  }

  lemma RootThenQueued(ids: seq<string>)
    ensures HasQueued([Root] + QueuedMarkers(ids)) <==> ids != []
  {
    var m := [Root] + QueuedMarkers(ids);
    if ids != [] {
      assert m[1] == Queued(ids[0]);
    }
  }

  /** Settling a waiting cell other than as acknowledged, or the first one, leaves no
      acknowledged cell behind a waiting one. */
  lemma SettledInOrder(ledger: seq<Cell>, k: nat, fate: Fate)
    requires AckedBeforeWaiting(ledger) && k < |ledger| && fate != Waiting
    requires fate == Acked ==> forall i :: 0 <= i < k ==> ledger[i].fate != Waiting
    ensures AckedBeforeWaiting(ledger[k := Cell(ledger[k].id, fate)])
  {
  }

  lemma RemoveMiddle(a: seq<string>, id: string, b: seq<string>)
    ensures RemoveAt(a + [id] + b, |a|) == a + b
  {
    assert (a + [id] + b)[..|a|] == a && (a + [id] + b)[|a| + 1..] == b;
  }

  /** On the ledger, a rollback takes out the first waiting input with that id. */
  lemma SettleRolledBack(ledger: seq<Cell>, id: string)
    requires AckedBeforeWaiting(ledger)
    ensures var after, ids := Settle(ledger, Some(id), RolledBack), With(ledger, Waiting);
            && With(after, Waiting) == RemoveAt(ids, IndexOf(ids, id))
            && With(after, Acked) == With(ledger, Acked)
            && AckedBeforeWaiting(after)
  {
    var k := FirstWaiting(ledger, Some(id));
    FirstWaitingIsIndex(ledger, id);
    if k < |ledger| {
      WithSettled(ledger, k, RolledBack);
      SettledInOrder(ledger, k, RolledBack);
      RemoveMiddle(With(ledger[..k], Waiting), id, With(ledger[k + 1..], Waiting));
    }
  }

  /** On the ledger, an echo acknowledges the first waiting input. */
  lemma SettleAcked(ledger: seq<Cell>)
    requires AckedBeforeWaiting(ledger) && With(ledger, Waiting) != []
    ensures var after, ids := Settle(ledger, None, Acked), With(ledger, Waiting);
            && With(after, Waiting) == ids[1..]
            && With(after, Acked) == With(ledger, Acked) + [ids[0]]
            && AckedBeforeWaiting(after)
  {
    var k := FirstWaiting(ledger, None);
    FirstWaitingIsFirst(ledger);
    SettledInOrder(ledger, k, Acked);
    WithSettled(ledger, k, Acked);
    WithNone(ledger[..k], Waiting);
    WithNone(ledger[k + 1..], Acked);
  }

  lemma KeepsRollback(a: Audit, acked: seq<string>, id: string)
    requires Conserved(a, acked)
    ensures Conserved(AuditStep(a, RollbackOp(id)).0, acked)
  {
    SettleRolledBack(a.ledger, id);
    RolledQueued(With(a.ledger, Waiting), id);
  }

  lemma KeepsEcho(a: Audit, acked: seq<string>, prefer: bool)
    requires Conserved(a, acked)
    ensures var (b, ids) := AuditStep(a, EchoOp(prefer)); Conserved(b, acked + ids)
  {
    var waiting := With(a.ledger, Waiting);
    var m := QueuedMarkers(waiting);
    assert acked + [] == acked && ([Root] + m)[1..] == m;
    RootThenQueued(waiting);
    if waiting != [] {
      assert m[1..] == QueuedMarkers(waiting[1..]);
      SettleAcked(a.ledger);
    }
  }

  /** An echo acknowledges the oldest waiting input, or nothing: nothing only when none waits,
      or in the in-order mode when the root marker is still in front. */
  lemma EchoTakesTheOldest(a: Audit, acked: seq<string>, prefer: bool)
    requires Conserved(a, acked)
    ensures var waiting := With(a.ledger, Waiting);
            AuditStep(a, EchoOp(prefer)).1 ==
            if waiting != [] && (prefer || Root !in a.markers) then [waiting[0]] else []
  {
    var waiting := With(a.ledger, Waiting);
    RootThenQueued(waiting);
    assert forall i :: 0 <= i < |waiting| ==> QueuedMarkers(waiting)[i] == Queued(waiting[i]);
    assert a.markers != QueuedMarkers(waiting) ==> a.markers[0] == Root;
  }

  lemma KeepsEnqueue(a: Audit, acked: seq<string>, id: string)
    requires Conserved(a, acked)
    ensures Conserved(AuditStep(a, EnqueueOp(id)).0, acked)
  {
    var cell := Cell(id, Waiting);
    forall f
      ensures With(a.ledger + [cell], f) == With(a.ledger, f) + (if f == Waiting then [id] else [])
    {
      WithAppend(a.ledger, [cell], f);
      assert [cell][1..] == [];
    }
    var waiting := With(a.ledger, Waiting);
    assert QueuedMarkers(waiting + [id]) == QueuedMarkers(waiting) + [Queued(id)];
  }

  /** The ids put in, in order. */
  function Enqueued(ops: seq<Op>): seq<string> {
    if ops == [] then []
    else Enqueued(ops[..|ops| - 1]) + (if ops[|ops| - 1].EnqueueOp? then [ops[|ops| - 1].id] else [])
  }

  function CellIds(ledger: seq<Cell>): seq<string> {
    seq(|ledger|, i requires 0 <= i < |ledger| => ledger[i].id)
  }

  /** From a fresh queue, after any operations in either mode: the queue is at most one root
      marker followed by the waiting ids; every input put in is waiting, acknowledged or rolled
      back, and only one of these; the ids acknowledged are those of the acknowledged inputs,
      in the order they were put in; and none is acknowledged past a waiting one. */
  lemma InputsAreConserved(fresh_: seq<Marker>, ops: seq<Op>)
    requires fresh_ == [] || fresh_ == [Root]
    ensures var (a, acked) := Run(Stepper(), Audit(fresh_, []), ops);
            && Conserved(a, acked)
            && CellIds(a.ledger) == Enqueued(ops)
  {
    var inv := (a: Audit, acked: seq<string>) => Conserved(a, acked);
    forall a, acked, op | inv(a, acked)
      ensures inv(Stepper()(a, op).0, acked + Stepper()(a, op).1)
    {
      assert acked + [] == acked;
      match op
      case EnqueueOp(id) => KeepsEnqueue(a, acked, id);
      case RollbackOp(id) => KeepsRollback(a, acked, id);
      case EchoOp(prefer) => KeepsEcho(a, acked, prefer);
    }
    assert QueuedMarkers(With([], Waiting)) == [] && [Root] + [] == [Root];
    RunKeeps(Stepper(), inv, Audit(fresh_, []), [], ops);
    var acked := Run(Stepper(), Audit(fresh_, []), ops).1;
    assert [] + acked == acked;
    LedgerListsInputs(fresh_, ops);
  }

  lemma {:induction false} LedgerListsInputs(fresh_: seq<Marker>, ops: seq<Op>)
    ensures CellIds(Run(Stepper(), Audit(fresh_, []), ops).0.ledger) == Enqueued(ops)
  {
    if ops != [] {
      var before, op := ops[..|ops| - 1], ops[|ops| - 1];
      LedgerListsInputs(fresh_, before);
      RunLast(Stepper(), Audit(fresh_, []), ops);
      var a := Run(Stepper(), Audit(fresh_, []), before).0;
      var b := AuditStep(a, op).0;
      assert CellIds(b.ledger) == CellIds(a.ledger) + (if op.EnqueueOp? then [op.id] else []);
    }
  }

  // ---- The Codex provider: one queue per thread, owned by a run ----

  datatype Owned = Owned(run: string, markers: seq<Marker>)

  /** The queue of a run on a thread; a queue that was taken out, or that another run owns,
      counts as empty. */
  function QueueOf(acks: map<string, Owned>, thread: string, run: string): seq<Marker> {
    if thread in acks && acks[thread].run == run then acks[thread].markers else []
  }

  /** A call by a run on a thread. */
  datatype Call = Call(thread: string, run: string, op: Op)

  function TakeCall(acks: map<string, Owned>, c: Call): (map<string, Owned>, seq<(string, string)>) {
    var queue := QueueOf(acks, c.thread, c.run);
    match c.op
    case EnqueueOp(id) => (acks[c.thread := Owned(c.run, queue + [Queued(id)])], [])
    case RollbackOp(id) =>
      (if c.thread in acks && acks[c.thread].run == c.run then acks[c.thread := Owned(c.run, Rolled(queue, id))] else acks, [])
    case EchoOp(prefer) =>
      var (id, rest) := Acknowledged(queue, prefer);
      (if c.thread in acks && acks[c.thread].run == c.run then
         (if rest == [] then acks - {c.thread} else acks[c.thread := Owned(c.run, rest)])
       else acks,
       if id.Some? then [(c.thread, id.value)] else [])
  }

  function Caller(): (map<string, Owned>, Call) -> (map<string, Owned>, seq<(string, string)>) {
    (acks: map<string, Owned>, c: Call) => TakeCall(acks, c)
  }

  /** The operations of a run on a thread, in order. */
  function OpsOn(calls: seq<Call>, thread: string, run: string): seq<Op> {
    if calls == [] then []
    else (if calls[0].thread == thread && calls[0].run == run then [calls[0].op] else []) + OpsOn(calls[1..], thread, run)
  }

  /** Nobody but the run takes its thread over by putting inputs in; late echoes and rollbacks of
      other runs may come at any time. */
  predicate KeepsThread(c: Call, thread: string, run: string) {
    c.thread == thread && c.op.EnqueueOp? ==> c.run == run
  }

  /** The queue on the thread, if there is one, is the run's. */
  predicate OwnedBy(acks: map<string, Owned>, thread: string, run: string) {
    thread in acks ==> acks[thread].run == run
  }

  /** The ids acknowledged on one thread. */
  function AckedOn(acked: seq<(string, string)>, thread: string): seq<string> {
    if acked == [] then []
    else (if acked[0].0 == thread then [acked[0].1] else []) + AckedOn(acked[1..], thread)
  }

  lemma {:induction false} AckedOnAppend(a: seq<(string, string)>, b: seq<(string, string)>, thread: string)
    ensures AckedOn(a + b, thread) == AckedOn(a, thread) + AckedOn(b, thread)
  {
    if a == [] {
      assert a + b == b;
    } else {
      AckedOnAppend(a[1..], b, thread);
      assert (a + b)[1..] == a[1..] + b;
    }
  }

  /** A call of the run does to its queue what the operation does to a queue of its own; any other
      does nothing to it and acknowledges nothing on the thread. */
  lemma CallIsItsOp(acks: map<string, Owned>, c: Call, thread: string, run: string, a: Audit)
    requires a.markers == QueueOf(acks, thread, run) && OwnedBy(acks, thread, run) && KeepsThread(c, thread, run)
    ensures var (after, acked) := TakeCall(acks, c);
            && OwnedBy(after, thread, run)
            && if c.thread == thread && c.run == run then
                 QueueOf(after, thread, run) == AuditStep(a, c.op).0.markers && AckedOn(acked, thread) == AuditStep(a, c.op).1
               else QueueOf(after, thread, run) == a.markers && AckedOn(acked, thread) == []
  {
    var acked := TakeCall(acks, c).1;
    assert acked == [] || acked[1..] == [];
  }

  /** As long as no other run takes the thread over, the queue of a run lives on by itself, however
      the calls on other threads and stale calls of other runs are interleaved, and however often
      an empty queue is taken out. */
  lemma {:induction false} CallsAreOps(acks: map<string, Owned>, calls: seq<Call>, thread: string, run: string, a: Audit)
    requires a.markers == QueueOf(acks, thread, run) && OwnedBy(acks, thread, run)
    requires forall i :: 0 <= i < |calls| ==> KeepsThread(calls[i], thread, run)
    ensures var (after, acked) := Run(Caller(), acks, calls);
            var (b, ids) := Run(Stepper(), a, OpsOn(calls, thread, run));
            QueueOf(after, thread, run) == b.markers && AckedOn(acked, thread) == ids
    decreases calls
  {
    if calls != [] {
      var c, rest := calls[0], calls[1..];
      var (next, first) := TakeCall(acks, c);
      assert forall i :: 0 <= i < |rest| ==> rest[i] == calls[i + 1];
      CallIsItsOp(acks, c, thread, run, a);
      CallsAreOps(next, rest, thread, run, if c.thread == thread && c.run == run then AuditStep(a, c.op).0 else a);
      AckedOnAppend(first, Run(Caller(), next, rest).1, thread);
      OpsOnFirst(calls, thread, run, a);
    }
  }

  lemma OpsOnFirst(calls: seq<Call>, thread: string, run: string, a: Audit)
    requires calls != []
    ensures var rest := OpsOn(calls[1..], thread, run);
            Run(Stepper(), a, OpsOn(calls, thread, run)) ==
            if calls[0].thread != thread || calls[0].run != run then Run(Stepper(), a, rest)
            else
              var (b, first) := AuditStep(a, calls[0].op);
              var (c, more) := Run(Stepper(), b, rest);
              (c, first + more)
  {
    var rest := OpsOn(calls[1..], thread, run);
    if calls[0].thread == thread && calls[0].run == run {
      assert OpsOn(calls, thread, run)[1..] == rest;
    } else {
      assert OpsOn(calls, thread, run) == rest;
    }
  }

  /** So a Codex run acknowledges exactly the inputs it enqueued and did not roll back, in
      order, each at most once. */
  lemma CodexInputsAreConserved(acks: map<string, Owned>, calls: seq<Call>, thread: string, run: string)
    requires thread in acks && acks[thread] == Owned(run, [Root])
    requires forall i :: 0 <= i < |calls| ==> KeepsThread(calls[i], thread, run)
    ensures var (after, acked) := Run(Caller(), acks, calls);
            exists ledger ::
              && Conserved(Audit(QueueOf(after, thread, run), ledger), AckedOn(acked, thread))
              && CellIds(ledger) == Enqueued(OpsOn(calls, thread, run))
  {
    var ops := OpsOn(calls, thread, run);
    CallsAreOps(acks, calls, thread, run, Audit([Root], []));
    InputsAreConserved([Root], ops);
    var (a, ids) := Run(Stepper(), Audit([Root], []), ops);
    assert Conserved(Audit(a.markers, a.ledger), ids) && CellIds(a.ledger) == Enqueued(ops);
  }

  /** The provider's queues. An id is trimmed, and a blank one is refused. */
  class SessionAcks {
    var acks: map<string, Owned>

    constructor ()
      ensures acks == map[]
    {
      acks := map[];
    }

    /** Where a run starts: its thread is its own, with the marker of the root message. */
    method Register(thread: string, run: string)
      modifies this
      ensures acks == old(acks)[thread := Owned(run, [Root])] && OwnedBy(acks, thread, run)
    {
      acks := acks[thread := Owned(run, [Root])];
    }

    method EnqueueStreamingInputAck(thread: string, run: string, id: Option<string>) returns (ok: bool)
      modifies this
      ensures ok <==> id.Some? && Trim(id.value) != []
      ensures acks == if ok then TakeCall(old(acks), Call(thread, run, EnqueueOp(Trim(id.value)))).0 else old(acks)
    {
      if id.None? || Trim(id.value) == [] {
        return false;
      }
      if thread !in acks || acks[thread].run != run {
        acks := acks[thread := Owned(run, [])];
      }
      acks := acks[thread := Owned(run, acks[thread].markers + [Queued(Trim(id.value))])];
      return true;
    }

    method RollbackStreamingInputAck(thread: string, run: string, id: Option<string>)
      modifies this
      ensures acks == if id.Some? && Trim(id.value) != [] then TakeCall(old(acks), Call(thread, run, RollbackOp(Trim(id.value)))).0
                      else old(acks)
    {
      if id.None? || Trim(id.value) == [] {
        return;
      }
      if thread in acks && acks[thread].run == run {
        acks := acks[thread := Owned(run, Rolled(acks[thread].markers, Trim(id.value)))];
      }
    }

    method AcknowledgeNext(thread: string, run: string) returns (id: Option<string>)
      modifies this
      ensures var (after, acked) := TakeCall(old(acks), Call(thread, run, EchoOp(false)));
              acks == after && acked == (if id.Some? then [(thread, id.value)] else [])
    {
      id := None;
      if thread in acks && acks[thread].run == run {
        var (taken, rest) := Acknowledged(acks[thread].markers, false);
        id := taken;
        acks := acks[thread := Owned(run, rest)];
        if rest == [] {
          acks := acks - {thread};
        }
      }
    }
  }
}
