/** Deferred fan-out of stream events to bound endpoints (garyx-channels/src/bound_fanout.rs).

    Producers hand events in before the bound endpoints are known; an attacher flushes what was
    buffered to its callbacks and then installs them. Producers and attachers race: every block
    under the lock is one step, and so is every single callback call outside it. Where each event
    is (in hand, buffered, claimed by an attacher, or delivered to one set of callbacks) is what
    the invariants follow; order is a matter of one producer and one attacher. */
module DeferredFanout {
  import opened Common

  /** An event is known by its position in the order of production. */
  type Event = nat

  /** The state behind the lock. A callback set is known by the attach call that built it. */
  datatype Deferred = Deferred(callbacks: Option<nat>, buffered: seq<Event>)

  /** What an attacher gets out of one turn at the lock. */
  datatype Turn = Return | Flush(batch: seq<Event>)

  function DispatchBlock(d: Deferred, e: Event): (Option<nat>, Deferred) {
    if d.callbacks.Some? then (d.callbacks, d) else (None, d.(buffered := d.buffered + [e]))
  }

  function AttachBlock(d: Deferred, a: nat): (Turn, Deferred) {
    if d.callbacks.Some? then (Return, d)
    else if d.buffered == [] then (Return, d.(callbacks := Some(a)))
    else (Flush(d.buffered), d.(buffered := []))
  }

  /** The mutex-protected object: its two critical sections. */
  class DeferredState {
    var callbacks: Option<nat>
    var buffered: seq<Event>

    ghost function Abstract(): Deferred
      reads this
    {
      Deferred(callbacks, buffered)
    }

    constructor ()
      ensures Abstract() == Deferred(None, [])
    {
      callbacks, buffered := None, [];
    }

    method DispatchOrBuffer(e: Event) returns (target: Option<nat>)
      modifies this
      ensures (target, Abstract()) == DispatchBlock(old(Abstract()), e)
    {
      target := callbacks;
      if callbacks.None? {
        buffered := buffered + [e];
      }
    }

    method AttachTurn(a: nat) returns (turn: Turn)
      modifies this
      ensures (turn, Abstract()) == AttachBlock(old(Abstract()), a)
    {
      if callbacks.Some? {
        return Return;
      }
      if buffered == [] {
        callbacks := Some(a);
        return Return;
      }
      turn := Flush(buffered);
      buffered := [];
    }
  }

  // ---- The race ----

  datatype Producer = Idle | InHand(e: Event) | Calling(e: Event, target: nat, next: nat)

  datatype Attacher = Fresh | Looping | Flushing(batch: seq<Event>, next: nat) | Done

  /** Where an event is: with a producer before the lock, in the buffer, with an attacher that
      took it, with a producer calling a set, or handed to every callback of a set. */
  datatype Place = Hand(p: nat) | Buffer | Batch(a: nat) | Carried(p: nat, a: nat) | Delivered(a: nat)

  datatype State = State(d: Deferred, produced: nat, producers: map<nat, Producer>, attachers: map<nat, Attacher>,
                         logs: map<(nat, nat), seq<Event>>, place: map<Event, Place>)

  const START := State(Deferred(None, []), 0, map[], map[], map[], map[])

  datatype Step =
    | Produce(p: nat)       // the consumer closure runs: the origin callback has seen the event
    | Dispatch(p: nat)      // dispatch_or_buffer's critical section
    | Call(p: nat)          // the producer's next callback call, or its return
    | Attach(a: nat)        // the first look at the slot
    | AttachLoop(a: nat)    // the loop's critical section
    | AttachCall(a: nat)    // the attacher's next callback call, or the next event

  function ProducerOf(s: State, p: nat): Producer {
    if p in s.producers then s.producers[p] else Idle
  }

  function AttacherOf(s: State, a: nat): Attacher {
    if a in s.attachers then s.attachers[a] else Fresh
  }

  function LogOf(s: State, a: nat, i: nat): seq<Event> {
    if (a, i) in s.logs then s.logs[(a, i)] else []
  }

  function Deliver(s: State, a: nat, i: nat, e: Event): State {
    s.(logs := s.logs[(a, i) := LogOf(s, a, i) + [e]])
  }

  function TakeProduce(s: State, p: nat): State {
    if !ProducerOf(s, p).Idle? then s
    else
      var e := s.produced;
      s.(produced := e + 1, producers := s.producers[p := InHand(e)], place := s.place[e := Hand(p)])
  }

  function TakeDispatch(s: State, p: nat): State {
    match ProducerOf(s, p)
    case InHand(e) =>
      (match DispatchBlock(s.d, e)
       case (Some(a), d) => s.(d := d, producers := s.producers[p := Calling(e, a, 0)], place := s.place[e := Carried(p, a)])
       case (None, d) => s.(d := d, producers := s.producers[p := Idle], place := s.place[e := Buffer]))
    case _ => s
  }

  /** `width(a)` is the number of callbacks in set `a`. */
  function TakeCall(width: nat -> nat, s: State, p: nat): State {
    match ProducerOf(s, p)
    case Calling(e, a, k) =>
      if k < width(a) then Deliver(s, a, k, e).(producers := s.producers[p := Calling(e, a, k + 1)])
      else s.(producers := s.producers[p := Idle], place := s.place[e := Delivered(a)])
    case _ => s
  }

  function TakeAttach(s: State, a: nat): State {
    if !AttacherOf(s, a).Fresh? then s
    else s.(attachers := s.attachers[a := if s.d.callbacks.Some? then Done else Looping])
  }

  /** The buffered events change hands as a whole. */
  function Claim(place: map<Event, Place>, batch: seq<Event>, a: nat): map<Event, Place> {
    map e | e in place :: if e in batch then Batch(a) else place[e]
  }

  function TakeAttachLoop(s: State, a: nat): State {
    if !AttacherOf(s, a).Looping? then s
    else
      match AttachBlock(s.d, a)
      case (Return, d) => s.(d := d, attachers := s.attachers[a := Done])
      case (Flush(batch), d) =>
        s.(d := d, attachers := s.attachers[a := Flushing(batch, 0)], place := Claim(s.place, batch, a))
  }

  function NextOfBatch(s: State, a: nat, batch: seq<Event>): State
    requires batch != []
  {
    s.(attachers := s.attachers[a := Flushing(batch[1..], 0)], place := s.place[batch[0] := Delivered(a)])
  }

  function TakeAttachCall(width: nat -> nat, s: State, a: nat): State {
    match AttacherOf(s, a)
    case Flushing(batch, k) =>
      if batch == [] then s.(attachers := s.attachers[a := Looping])
      else if k < width(a) then Deliver(s, a, k, batch[0]).(attachers := s.attachers[a := Flushing(batch, k + 1)])
      else NextOfBatch(s, a, batch)
    case _ => s
  }

  function Take(width: nat -> nat, s: State, step: Step): State {
    match step
    case Produce(p) => TakeProduce(s, p)
    case Dispatch(p) => TakeDispatch(s, p)
    case Call(p) => TakeCall(width, s, p)
    case Attach(a) => TakeAttach(s, a)
    case AttachLoop(a) => TakeAttachLoop(s, a)
    case AttachCall(a) => TakeAttachCall(width, s, a)
  }

  function Taker(width: nat -> nat): (State, Step) -> State {
    (s: State, step: Step) => Take(width, s, step)
  }

  // ---- Exactly once, whoever races ----

  /** Event `e` is exactly where its place says. */
  ghost predicate EventOk(s: State, e: Event) {
    && (e in s.place <==> e < s.produced)
    && (e in s.place ==>
          match s.place[e]
          case Hand(p) => ProducerOf(s, p) == InHand(e)
          case Buffer => e in s.d.buffered
          case Batch(a) => AttacherOf(s, a).Flushing? && e in AttacherOf(s, a).batch
          case Carried(p, a) => ProducerOf(s, p).Calling? && ProducerOf(s, p).e == e && ProducerOf(s, p).target == a
          case Delivered(_) => true)
  }

  predicate At(s: State, e: Event, place: Place) {
    e in s.place && s.place[e] == place
  }

  ghost predicate ProducerOk(width: nat -> nat, s: State, p: nat) {
    match ProducerOf(s, p)
    case Idle => true
    case InHand(e) => At(s, e, Hand(p))
    case Calling(e, a, k) => At(s, e, Carried(p, a)) && k <= width(a)
  }

  ghost predicate AttacherOk(width: nat -> nat, s: State, a: nat) {
    match AttacherOf(s, a)
    case Flushing(batch, k) =>
      NoDup(batch) && k <= width(a) && (batch == [] ==> k == 0)
      && forall j :: 0 <= j < |batch| ==> At(s, batch[j], Batch(a))
    case _ => true
  }

  ghost predicate BufferOk(s: State) {
    NoDup(s.d.buffered) && (s.d.callbacks.Some? ==> s.d.buffered == [])
    && forall j :: 0 <= j < |s.d.buffered| ==> At(s, s.d.buffered[j], Buffer)
  }

  ghost predicate Placed(width: nat -> nat, s: State) {
    && (forall e: Event :: EventOk(s, e))
    && (forall p: nat :: ProducerOk(width, s, p))
    && (forall a: nat :: AttacherOk(width, s, a))
    && BufferOk(s)
  }

  /** Callback `i` of set `a` has been called with `e`. */
  predicate Received(width: nat -> nat, s: State, e: Event, a: nat, i: nat) {
    e in s.place && i < width(a) &&
    match s.place[e]
    case Delivered(b) => b == a
    case Carried(p, b) => b == a && ProducerOf(s, p).Calling? && i < ProducerOf(s, p).next
    case Batch(b) =>
      b == a && AttacherOf(s, a).Flushing? && AttacherOf(s, a).batch != [] && AttacherOf(s, a).batch[0] == e
      && i < AttacherOf(s, a).next
    case _ => false
  }

  ghost predicate LogOk(width: nat -> nat, s: State, a: nat, i: nat) {
    NoDup(LogOf(s, a, i)) && forall e: Event :: e in LogOf(s, a, i) <==> Received(width, s, e, a, i)
  }

  ghost predicate Logged(width: nat -> nat, s: State) {
    forall a: nat, i: nat :: LogOk(width, s, a, i)
  }

  lemma NoDupSnoc(log: seq<Event>, e: Event)
    requires NoDup(log) && e !in log
    ensures NoDup(log + [e])
  {
  }

  lemma ProducePlaced(width: nat -> nat, s: State, p: nat)
    requires Placed(width, s)
    ensures Placed(width, TakeProduce(s, p))
  {
    var t := TakeProduce(s, p);
    assert EventOk(s, s.produced);
    forall e: Event
      ensures EventOk(t, e)
    {
      assert EventOk(s, e);
    }
    forall q: nat
      ensures ProducerOk(width, t, q)
    {
      assert ProducerOk(width, s, q);
    }
    forall b: nat
      ensures AttacherOk(width, t, b)
    {
      assert AttacherOk(width, s, b);
    }
  }

  lemma ProduceLogged(width: nat -> nat, s: State, p: nat)
    requires Placed(width, s) && Logged(width, s)
    ensures Logged(width, TakeProduce(s, p))
  {
    var t := TakeProduce(s, p);
    assert EventOk(s, s.produced);
    forall b: nat, i: nat
      ensures LogOk(width, t, b, i)
    {
      assert LogOk(width, s, b, i);
      forall e: Event
        ensures e in LogOf(t, b, i) <==> Received(width, t, e, b, i)
      {
        assert EventOk(s, e);
        assert e in LogOf(s, b, i) <==> Received(width, s, e, b, i);
      }
    }
  }

  lemma DispatchBuffer(width: nat -> nat, s: State, p: nat)
    requires Placed(width, s)
    ensures BufferOk(TakeDispatch(s, p))
  {
    assert ProducerOk(width, s, p);
    if ProducerOf(s, p).InHand? {
      NoDupSnoc(s.d.buffered, ProducerOf(s, p).e);
    }
  }

  lemma DispatchPlaced(width: nat -> nat, s: State, p: nat)
    requires Placed(width, s)
    ensures Placed(width, TakeDispatch(s, p))
  {
    var t := TakeDispatch(s, p);
    DispatchBuffer(width, s, p);
    assert ProducerOk(width, s, p);
    forall e: Event
      ensures EventOk(t, e)
    {
      assert EventOk(s, e);
    }
    forall q: nat
      ensures ProducerOk(width, t, q)
    {
      assert ProducerOk(width, s, q);
    }
    forall b: nat
      ensures AttacherOk(width, t, b)
    {
      assert AttacherOk(width, s, b);
    }
  }

  lemma DispatchLogged(width: nat -> nat, s: State, p: nat)
    requires Placed(width, s) && Logged(width, s)
    ensures Logged(width, TakeDispatch(s, p))
  {
    var t := TakeDispatch(s, p);
    assert ProducerOk(width, s, p);
    forall b: nat, i: nat
      ensures LogOk(width, t, b, i)
    {
      assert LogOk(width, s, b, i);
      forall e: Event
        ensures e in LogOf(t, b, i) <==> Received(width, t, e, b, i)
      {
        assert EventOk(s, e);
        assert e in LogOf(s, b, i) <==> Received(width, s, e, b, i);
      }
    }
  }

  lemma CallPlaced(width: nat -> nat, s: State, p: nat)
    requires Placed(width, s)
    ensures Placed(width, TakeCall(width, s, p))
  {
    var t := TakeCall(width, s, p);
    assert ProducerOk(width, s, p);
    forall e: Event
      ensures EventOk(t, e)
    {
      assert EventOk(s, e);
    }
    forall q: nat
      ensures ProducerOk(width, t, q)
    {
      assert ProducerOk(width, s, q);
    }
    forall b: nat
      ensures AttacherOk(width, t, b)
    {
      assert AttacherOk(width, s, b);
    }
  }

  lemma CallLogged(width: nat -> nat, s: State, p: nat)
    requires Placed(width, s) && Logged(width, s)
    ensures Logged(width, TakeCall(width, s, p))
  {
    var t := TakeCall(width, s, p);
    assert ProducerOk(width, s, p);
    if ProducerOf(s, p).Calling? && ProducerOf(s, p).next < width(ProducerOf(s, p).target) {
      var c := ProducerOf(s, p);
      assert LogOk(width, s, c.target, c.next) && !Received(width, s, c.e, c.target, c.next);
      NoDupSnoc(LogOf(s, c.target, c.next), c.e);
    }
    forall b: nat, i: nat
      ensures LogOk(width, t, b, i)
    {
      assert LogOk(width, s, b, i);
      forall e: Event
        ensures e in LogOf(t, b, i) <==> Received(width, t, e, b, i)
      {
        assert EventOk(s, e);
        assert e in LogOf(s, b, i) <==> Received(width, s, e, b, i);
      }
    }
  }

  lemma AttachPlaced(width: nat -> nat, s: State, a: nat)
    requires Placed(width, s)
    ensures Placed(width, TakeAttach(s, a))
  {
    var t := TakeAttach(s, a);
    forall e: Event
      ensures EventOk(t, e)
    {
      assert EventOk(s, e);
    }
    forall q: nat
      ensures ProducerOk(width, t, q)
    {
      assert ProducerOk(width, s, q);
    }
    forall b: nat
      ensures AttacherOk(width, t, b)
    {
      assert AttacherOk(width, s, b);
    }
  }

  lemma AttachLogged(width: nat -> nat, s: State, a: nat)
    requires Placed(width, s) && Logged(width, s)
    ensures Logged(width, TakeAttach(s, a))
  {
    var t := TakeAttach(s, a);
    forall b: nat, i: nat
      ensures LogOk(width, t, b, i)
    {
      assert LogOk(width, s, b, i);
      forall e: Event
        ensures e in LogOf(t, b, i) <==> Received(width, t, e, b, i)
      {
        assert EventOk(s, e);
        assert e in LogOf(s, b, i) <==> Received(width, s, e, b, i);
      }
    }
  }

  /** Nothing outside the buffer is claimed with it. */
  lemma ClaimsBufferOnly(s: State, e: Event, a: nat)
    requires EventOk(s, e) && BufferOk(s)
    ensures var place := Claim(s.place, s.d.buffered, a);
            (e in place <==> e in s.place)
            && (e in place ==> place[e] == if s.place[e] == Buffer then Batch(a) else s.place[e])
  {
  }

  lemma AttachLoopProducer(width: nat -> nat, s: State, a: nat, q: nat)
    requires Placed(width, s)
    ensures ProducerOk(width, TakeAttachLoop(s, a), q)
  {
    assert ProducerOk(width, s, q);
    if !ProducerOf(s, q).Idle? {
      assert EventOk(s, ProducerOf(s, q).e);
      ClaimsBufferOnly(s, ProducerOf(s, q).e, a);
    }
  }

  lemma AttachLoopPlaced(width: nat -> nat, s: State, a: nat)
    requires Placed(width, s)
    ensures Placed(width, TakeAttachLoop(s, a))
  {
    var t := TakeAttachLoop(s, a);
    assert AttacherOk(width, s, a);
    if t.place != s.place {
      forall e: Event
        ensures EventOk(t, e)
      {
        assert EventOk(s, e);
        ClaimsBufferOnly(s, e, a);
      }
      forall q: nat
        ensures ProducerOk(width, t, q)
      {
        AttachLoopProducer(width, s, a, q);
      }
      forall b: nat
        ensures AttacherOk(width, t, b)
      {
        assert AttacherOk(width, s, b);
        var f := AttacherOf(t, b);
        if f.Flushing? {
          forall j | 0 <= j < |f.batch|
            ensures At(t, f.batch[j], Batch(b))
          {
            assert EventOk(s, f.batch[j]);
            ClaimsBufferOnly(s, f.batch[j], a);
          }
        }
      }
    } else {
      AttachLoopWithoutBatch(width, s, a);
    }
  }

  lemma AttachLoopWithoutBatch(width: nat -> nat, s: State, a: nat)
    requires Placed(width, s) && TakeAttachLoop(s, a).place == s.place
    ensures Placed(width, TakeAttachLoop(s, a))
  {
    var t := TakeAttachLoop(s, a);
    forall e: Event
      ensures EventOk(t, e)
    {
      assert EventOk(s, e);
    }
    forall q: nat
      ensures ProducerOk(width, t, q)
    {
      assert ProducerOk(width, s, q);
    }
    forall b: nat
      ensures AttacherOk(width, t, b)
    {
      assert AttacherOk(width, s, b);
    }
  }

  lemma AttachLoopLogged(width: nat -> nat, s: State, a: nat)
    requires Placed(width, s) && Logged(width, s)
    ensures Logged(width, TakeAttachLoop(s, a))
  {
    var t := TakeAttachLoop(s, a);
    assert AttacherOk(width, s, a);
    forall b: nat, i: nat
      ensures LogOk(width, t, b, i)
    {
      assert LogOk(width, s, b, i);
      forall e: Event
        ensures e in LogOf(t, b, i) <==> Received(width, t, e, b, i)
      {
        assert EventOk(s, e);
        assert e in LogOf(s, b, i) <==> Received(width, s, e, b, i);
      }
    }
  }

  lemma NextOfBatchPlaced(width: nat -> nat, s: State, a: nat)
    requires Placed(width, s) && AttacherOf(s, a).Flushing? && AttacherOf(s, a).batch != []
    ensures Placed(width, NextOfBatch(s, a, AttacherOf(s, a).batch))
  {
    var batch := AttacherOf(s, a).batch;
    var t, first, rest := NextOfBatch(s, a, batch), batch[0], batch[1..];
    assert AttacherOk(width, s, a);
    assert At(s, first, Batch(a));
    assert forall e: Event :: e in batch <==> e == first || e in rest;
    assert forall j :: 0 <= j < |rest| ==> rest[j] == batch[j + 1] && At(t, rest[j], Batch(a));
    forall e: Event
      ensures EventOk(t, e)
    {
      assert EventOk(s, e);
    }
    forall q: nat
      ensures ProducerOk(width, t, q)
    {
      assert ProducerOk(width, s, q);
    }
    forall b: nat
      ensures AttacherOk(width, t, b)
    {
      assert AttacherOk(width, s, b);
    }
  }

  lemma AttachCallPlaced(width: nat -> nat, s: State, a: nat)
    requires Placed(width, s)
    ensures Placed(width, TakeAttachCall(width, s, a))
  {
    var t, f := TakeAttachCall(width, s, a), AttacherOf(s, a);
    assert AttacherOk(width, s, a);
    if f.Flushing? && f.batch != [] && f.next == width(a) {
      NextOfBatchPlaced(width, s, a);
    } else {
      forall e: Event
        ensures EventOk(t, e)
      {
        assert EventOk(s, e);
      }
      forall q: nat
        ensures ProducerOk(width, t, q)
      {
        assert ProducerOk(width, s, q);
      }
      forall b: nat
        ensures AttacherOk(width, t, b)
      {
        assert AttacherOk(width, s, b);
      }
    }
  }

  lemma AttachCallLogged(width: nat -> nat, s: State, a: nat)
    requires Placed(width, s) && Logged(width, s)
    ensures Logged(width, TakeAttachCall(width, s, a))
  {
    var t := TakeAttachCall(width, s, a);
    assert AttacherOk(width, s, a);
    var f := AttacherOf(s, a);
    if f.Flushing? && f.batch != [] {
      assert At(s, f.batch[0], Batch(a));
      if f.next < width(a) {
        assert LogOk(width, s, a, f.next) && !Received(width, s, f.batch[0], a, f.next);
        NoDupSnoc(LogOf(s, a, f.next), f.batch[0]);
      }
    }
    forall b: nat, i: nat
      ensures LogOk(width, t, b, i)
    {
      assert LogOk(width, s, b, i);
      forall e: Event
        ensures e in LogOf(t, b, i) <==> Received(width, t, e, b, i)
      {
        assert EventOk(s, e);
        assert e in LogOf(s, b, i) <==> Received(width, s, e, b, i);
      }
    }
  }

  lemma TakeKeeps(width: nat -> nat, s: State, step: Step)
    requires Placed(width, s) && Logged(width, s)
    ensures Placed(width, Take(width, s, step)) && Logged(width, Take(width, s, step))
  {
    match step
    case Produce(p) => ProducePlaced(width, s, p); ProduceLogged(width, s, p);
    case Dispatch(p) => DispatchPlaced(width, s, p); DispatchLogged(width, s, p);
    case Call(p) => CallPlaced(width, s, p); CallLogged(width, s, p);
    case Attach(a) => AttachPlaced(width, s, a); AttachLogged(width, s, a);
    case AttachLoop(a) => AttachLoopPlaced(width, s, a); AttachLoopLogged(width, s, a);
    case AttachCall(a) => AttachCallPlaced(width, s, a); AttachCallLogged(width, s, a);
  }

  lemma Reached(width: nat -> nat, steps: seq<Step>)
    ensures var s := Exec(Taker(width), START, steps); Placed(width, s) && Logged(width, s)
  {
    var inv := (s: State) => Placed(width, s) && Logged(width, s);
    forall s, step | inv(s)
      ensures inv(Taker(width)(s, step))
    {
      TakeKeeps(width, s, step);
    }
    ExecKeeps(Taker(width), inv, START, steps);
  }

  /** No task holds an event: every producer is between events, no attacher is flushing. */
  ghost predicate Quiet(s: State) {
    (forall p: nat :: ProducerOf(s, p).Idle?) && (forall a: nat :: !AttacherOf(s, a).Flushing?)
  }

  /** Event `e` has gone to every callback of set `a` and to no other. */
  ghost predicate OnlyTo(width: nat -> nat, s: State, e: Event, a: nat) {
    forall b: nat, i: nat :: i < width(b) ==> (e in LogOf(s, b, i) <==> b == a)
  }

  ghost predicate WentToOneSet(width: nat -> nat, s: State, e: Event) {
    exists a: nat :: OnlyTo(width, s, e, a)
  }

  /** However many producers and attachers race: no callback sees an event twice, no two sets
      see the same event, and once callbacks are installed and nobody holds an event, every
      event produced has gone to every callback of exactly one set. */
  lemma EachEventGoesToOneSet(width: nat -> nat, steps: seq<Step>)
    ensures var s := Exec(Taker(width), START, steps);
            && (forall a: nat, i: nat :: NoDup(LogOf(s, a, i)))
            && (forall e: Event, a: nat, i: nat, b: nat, j: nat ::
                  e in LogOf(s, a, i) && e in LogOf(s, b, j) ==> a == b)
            && (s.d.callbacks.Some? && Quiet(s) ==>
                  forall e: Event :: e < s.produced ==> WentToOneSet(width, s, e))
  {
    Reached(width, steps);
    var s := Exec(Taker(width), START, steps);
    forall a: nat, i: nat
      ensures NoDup(LogOf(s, a, i)) && forall e: Event :: e in LogOf(s, a, i) ==> Received(width, s, e, a, i)
    {
      assert LogOk(width, s, a, i);
    }
    if s.d.callbacks.Some? && Quiet(s) {
      forall e: Event | e < s.produced
        ensures WentToOneSet(width, s, e)
      {
        assert EventOk(s, e);
        var a := s.place[e].a;
        forall b: nat, i: nat | i < width(b)
          ensures e in LogOf(s, b, i) <==> b == a
        {
          assert LogOk(width, s, b, i);
        }
        assert OnlyTo(width, s, e, a);
      }
    }
  }

  // ---- In order, with one producer and one attacher ----

  /** The step is one of producer `p` or of attacher `a`. */
  predicate Solo(p: nat, a: nat, step: Step) {
    match step
    case Produce(q) => q == p
    case Dispatch(q) => q == p
    case Call(q) => q == p
    case Attach(b) => b == a
    case AttachLoop(b) => b == a
    case AttachCall(b) => b == a
  }

  function Upto(n: nat): (r: seq<Event>)
    ensures |r| == n && forall i :: 0 <= i < n ==> r[i] == i
  {
    seq(n, i => i)
  }

  /** What the attacher still owes callback `i` from the batch it holds. */
  function Owed(f: Attacher, i: nat): seq<Event> {
    if !f.Flushing? then [] else if f.batch != [] && i < f.next then f.batch[1..] else f.batch
  }

  /** What the producer still owes callback `i`. */
  function Held(c: Producer, i: nat): seq<Event> {
    match c
    case Idle => []
    case InHand(e) => [e]
    case Calling(e, _, k) => if i < k then [] else [e]
  }

  /** Seen, owed from the batch, buffered and in hand, in this order, is what was produced. */
  ghost predicate InOrder(width: nat -> nat, s: State, p: nat, a: nat, i: nat) {
    var c, f := ProducerOf(s, p), AttacherOf(s, a);
    && LogOf(s, a, i) + Owed(f, i) + s.d.buffered + Held(c, i) == Upto(s.produced)
    && (c.Calling? ==> c.target == a && s.d.callbacks == Some(a) && c.next <= width(a))
    && (s.d.callbacks.Some? ==> s.d.buffered == [] && f.Done?)
    && (f.Done? ==> s.d.callbacks == Some(a))
    && (f.Flushing? ==> f.next <= width(a) && (f.batch == [] ==> f.next == 0))
  }

  lemma ProduceInOrder(width: nat -> nat, s: State, p: nat, a: nat, i: nat)
    requires InOrder(width, s, p, a, i)
    ensures InOrder(width, TakeProduce(s, p), p, a, i)
  {
    if ProducerOf(s, p).Idle? {
      assert Upto(s.produced + 1) == Upto(s.produced) + [s.produced];
      var seen := LogOf(s, a, i) + Owed(AttacherOf(s, a), i) + s.d.buffered;
      assert seen + [] == seen;
    }
  }

  lemma DispatchInOrder(width: nat -> nat, s: State, p: nat, a: nat, i: nat)
    requires InOrder(width, s, p, a, i)
    ensures InOrder(width, TakeDispatch(s, p), p, a, i)
  {
    var c := ProducerOf(s, p);
    if c.InHand? && s.d.callbacks.None? {
      var seen := LogOf(s, a, i) + Owed(AttacherOf(s, a), i);
      assert seen + (s.d.buffered + [c.e]) + [] == seen + s.d.buffered + [c.e];
    }
  }

  lemma CallInOrder(width: nat -> nat, s: State, p: nat, a: nat, i: nat)
    requires InOrder(width, s, p, a, i) && i < width(a)
    ensures InOrder(width, TakeCall(width, s, p), p, a, i)
  {
    var c, log := ProducerOf(s, p), LogOf(s, a, i);
    if c.Calling? && c.next == i {
      assert log + [] + [] + [c.e] == log + [c.e] + [] + [] + [];
    }
  }

  lemma AttachInOrder(width: nat -> nat, s: State, p: nat, a: nat, i: nat)
    requires InOrder(width, s, p, a, i)
    ensures InOrder(width, TakeAttach(s, a), p, a, i)
  {
  }

  lemma AttachLoopInOrder(width: nat -> nat, s: State, p: nat, a: nat, i: nat)
    requires InOrder(width, s, p, a, i)
    ensures InOrder(width, TakeAttachLoop(s, a), p, a, i)
  {
    var log := LogOf(s, a, i);
    assert log + [] + s.d.buffered == log + s.d.buffered + [];
  }

  lemma AttachCallInOrder(width: nat -> nat, s: State, p: nat, a: nat, i: nat)
    requires InOrder(width, s, p, a, i) && i < width(a)
    ensures InOrder(width, TakeAttachCall(width, s, a), p, a, i)
  {
    var f, log := AttacherOf(s, a), LogOf(s, a, i);
    if f.Flushing? && f.batch != [] && f.next == i {
      assert f.batch == [f.batch[0]] + f.batch[1..];
      assert log + f.batch == log + [f.batch[0]] + f.batch[1..];
    }
  }

  lemma TakeInOrder(width: nat -> nat, s: State, p: nat, a: nat, i: nat, step: Step)
    requires InOrder(width, s, p, a, i) && i < width(a) && Solo(p, a, step)
    ensures InOrder(width, Take(width, s, step), p, a, i)
  {
    match step
    case Produce(_) => ProduceInOrder(width, s, p, a, i);
    case Dispatch(_) => DispatchInOrder(width, s, p, a, i);
    case Call(_) => CallInOrder(width, s, p, a, i);
    case Attach(_) => AttachInOrder(width, s, p, a, i);
    case AttachLoop(_) => AttachLoopInOrder(width, s, p, a, i);
    case AttachCall(_) => AttachCallInOrder(width, s, p, a, i);
  }

  lemma InOrderMeans(width: nat -> nat, s: State, p: nat, a: nat, i: nat)
    requires InOrder(width, s, p, a, i)
    ensures LogOf(s, a, i) <= Upto(s.produced)
    ensures AttacherOf(s, a).Done? && ProducerOf(s, p).Idle? ==> LogOf(s, a, i) == Upto(s.produced)
  {
    var log, owed := LogOf(s, a, i), Owed(AttacherOf(s, a), i);
    assert log + owed + s.d.buffered + Held(ProducerOf(s, p), i)
           == log + (owed + s.d.buffered + Held(ProducerOf(s, p), i));
  }

  /** With one producer and one attacher, in every interleaving, each callback of the set sees
      the events in the order of production and misses none: what it has not seen yet is still
      owed, buffered or in hand. Once attach has returned and the producer is between events,
      it has seen all of them. */
  lemma DeliveryInOrder(width: nat -> nat, steps: seq<Step>, p: nat, a: nat, i: nat)
    requires i < width(a) && forall j :: 0 <= j < |steps| ==> Solo(p, a, steps[j])
    ensures var s := Exec(Taker(width), START, steps);
            && LogOf(s, a, i) <= Upto(s.produced)
            && LogOf(s, a, i) + Owed(AttacherOf(s, a), i) + s.d.buffered + Held(ProducerOf(s, p), i) == Upto(s.produced)
            && (AttacherOf(s, a).Done? && ProducerOf(s, p).Idle? ==> LogOf(s, a, i) == Upto(s.produced))
  {
    var inv := (s: State) => InOrder(width, s, p, a, i);
    forall s, step | Solo(p, a, step) && inv(s)
      ensures inv(Taker(width)(s, step))
    {
      TakeInOrder(width, s, p, a, i, step);
    }
    ExecKeepsFor(Taker(width), (step: Step) => Solo(p, a, step), inv, START, steps);
    InOrderMeans(width, Exec(Taker(width), START, steps), p, a, i);
  }

  // ---- Order needs one producer and one attacher ----

  /** The step is one of these producers or attachers. */
  predicate Among(producers: set<nat>, attachers: set<nat>, step: Step) {
    match step
    case Produce(p) => p in producers
    case Dispatch(p) => p in producers
    case Call(p) => p in producers
    case Attach(a) => a in attachers
    case AttachLoop(a) => a in attachers
    case AttachCall(a) => a in attachers
  }

  predicate AllAmong(producers: set<nat>, attachers: set<nat>, steps: seq<Step>) {
    forall j :: 0 <= j < |steps| ==> Among(producers, attachers, steps[j])
  }

  /** Some run of these ends in this state. */
  ghost predicate Leads(width: nat -> nat, producers: set<nat>, attachers: set<nat>, s: State) {
    exists steps :: AllAmong(producers, attachers, steps) && Exec(Taker(width), START, steps) == s
  }

  lemma Onward(width: nat -> nat, ps: set<nat>, as_: set<nat>, s: State, step: Step) returns (t: State)
    requires Leads(width, ps, as_, s) && Among(ps, as_, step)
    ensures t == Take(width, s, step) && Leads(width, ps, as_, t)
  {
    var steps :| AllAmong(ps, as_, steps) && Exec(Taker(width), START, steps) == s;
    ExecSnoc(Taker(width), START, steps, step);
    t := Take(width, s, step);
    assert AllAmong(ps, as_, steps + [step]) && Exec(Taker(width), START, steps + [step]) == t;
  }

  lemma Started(width: nat -> nat, ps: set<nat>, as_: set<nat>)
    ensures Leads(width, ps, as_, START)
  {
    assert AllAmong(ps, as_, []) && Exec(Taker(width), START, []) == START;
  }

  /** One event is buffered, attacher `a` takes it out, and attacher `b` installs its callbacks. */
  lemma OneHoldsOneInstalls(width: nat -> nat, ps: set<nat>, as_: set<nat>, p: nat, a: nat, b: nat) returns (s: State)
    requires p in ps && a in as_ && b in as_ && a != b
    ensures Leads(width, ps, as_, s) && s.d == Deferred(Some(b), []) && s.produced == 1 && s.logs == map[]
    ensures s.producers == map[p := Idle] && AttacherOf(s, a) == Flushing([0], 0)
  {
    Started(width, ps, as_);
    s := Onward(width, ps, as_, START, Produce(p));
    assert s.d == START.d && s.producers == map[p := InHand(0)];
    s := Onward(width, ps, as_, s, Dispatch(p));
    assert s.d == Deferred(None, [0]) && s.producers == map[p := Idle] && s.attachers == map[];
    s := TakesAndInstalls(width, ps, as_, s, a, b);
  }

  lemma TakesAndInstalls(width: nat -> nat, ps: set<nat>, as_: set<nat>, before: State, a: nat, b: nat) returns (s: State)
    requires a in as_ && b in as_ && a != b
    requires Leads(width, ps, as_, before) && before.d == Deferred(None, [0]) && before.attachers == map[]
    ensures Leads(width, ps, as_, s) && s.d == Deferred(Some(b), []) && AttacherOf(s, a) == Flushing([0], 0)
    ensures s.producers == before.producers && s.produced == before.produced && s.logs == before.logs
  {
    s := Onward(width, ps, as_, before, Attach(a));
    assert s.attachers == map[a := Looping] && s.d == before.d;
    s := Onward(width, ps, as_, s, AttachLoop(a));
    assert s.attachers == map[a := Flushing([0], 0)] && s.d == Deferred(None, []);
    s := Onward(width, ps, as_, s, Attach(b));
    assert AttacherOf(s, b) == Looping && s.d == Deferred(None, []);
    s := Onward(width, ps, as_, s, AttachLoop(b));
  }

  /** The first callback of set `a` has seen one more event, and nobody else has. */
  ghost predicate Called(before: State, s: State, a: nat, e: Event) {
    LogOf(s, a, 0) == LogOf(before, a, 0) + [e]
    && forall b: nat, i: nat :: b != a || i != 0 ==> LogOf(s, b, i) == LogOf(before, b, i)
  }

  /** A producer between events hands the next one to the first callback of the installed set. */
  lemma ProducesAndCalls(width: nat -> nat, ps: set<nat>, as_: set<nat>, before: State, p: nat) returns (s: State)
    requires p in ps && Leads(width, ps, as_, before)
    requires before.d.callbacks.Some? && width(before.d.callbacks.value) > 0 && ProducerOf(before, p).Idle?
    ensures Leads(width, ps, as_, s) && s.d == before.d && s.attachers == before.attachers && s.produced == before.produced + 1
    ensures Called(before, s, before.d.callbacks.value, before.produced)
  {
    s := Onward(width, ps, as_, before, Produce(p));
    assert ProducerOf(s, p) == InHand(before.produced) && s.d == before.d && s.logs == before.logs;
    s := DispatchesAndCalls(width, ps, as_, s, p);
  }

  lemma DispatchesAndCalls(width: nat -> nat, ps: set<nat>, as_: set<nat>, before: State, p: nat) returns (s: State)
    requires p in ps && Leads(width, ps, as_, before)
    requires before.d.callbacks.Some? && width(before.d.callbacks.value) > 0 && ProducerOf(before, p).InHand?
    ensures Leads(width, ps, as_, s) && s.d == before.d && s.attachers == before.attachers && s.produced == before.produced
    ensures Called(before, s, before.d.callbacks.value, ProducerOf(before, p).e)
    ensures forall q :: q != p ==> ProducerOf(s, q) == ProducerOf(before, q)
  {
    s := Onward(width, ps, as_, before, Dispatch(p));
    assert ProducerOf(s, p) == Calling(ProducerOf(before, p).e, before.d.callbacks.value, 0) && s.logs == before.logs;
    s := Onward(width, ps, as_, s, Call(p));
  }

  /** With two attachers, one installs its callbacks while the other still holds a batch: the
      later event is delivered first, to one set, and the earlier one only to the other. */
  lemma TwoAttachersSplitTheStream(width: nat -> nat, ps: set<nat>, as_: set<nat>, p: nat, a: nat, b: nat)
    returns (s: State, t: State)
    requires p in ps && a in as_ && b in as_ && a != b && width(a) > 0 && width(b) > 0
    ensures Leads(width, ps, as_, s) && s.produced == 2 && LogOf(s, b, 0) == [1] && LogOf(s, a, 0) == []
    ensures t == Take(width, s, AttachCall(a)) && LogOf(t, b, 0) == [1] && LogOf(t, a, 0) == [0]
  {
    var held := OneHoldsOneInstalls(width, ps, as_, p, a, b);
    s := ProducesAndCalls(width, ps, as_, held, p);
    assert LogOf(held, b, 0) == [] && LogOf(held, a, 0) == [] && AttacherOf(s, a) == Flushing([0], 0);
    t := Take(width, s, AttachCall(a));
  }

  /** With two producers, the one that got its event later may deliver it first. */
  lemma TwoProducersReorder(width: nat -> nat, ps: set<nat>, as_: set<nat>, p: nat, q: nat, a: nat) returns (s: State)
    requires p in ps && q in ps && p != q && a in as_ && width(a) > 0
    ensures Leads(width, ps, as_, s) && s.produced == 2 && LogOf(s, a, 0) == [1, 0]
  {
    Started(width, ps, as_);
    s := Onward(width, ps, as_, START, Attach(a));
    s := Onward(width, ps, as_, s, AttachLoop(a));
    assert s.d == Deferred(Some(a), []) && s.produced == 0 && s.producers == map[] && s.logs == map[];
    s := Onward(width, ps, as_, s, Produce(p));
    assert s.d == Deferred(Some(a), []) && s.producers == map[p := InHand(0)] && s.logs == map[];
    s := ProducesAndCallsKeeping(width, ps, as_, s, p, q, a);
    s := DispatchesAndCalls(width, ps, as_, s, p);
  }

  lemma ProducesAndCallsKeeping(width: nat -> nat, ps: set<nat>, as_: set<nat>, before: State, p: nat, q: nat, a: nat)
    returns (s: State)
    requires q in ps && p != q && Leads(width, ps, as_, before) && before.d == Deferred(Some(a), []) && width(a) > 0
    requires before.produced == 1 && before.producers == map[p := InHand(0)] && before.logs == map[]
    ensures Leads(width, ps, as_, s) && s.d == before.d && s.produced == 2
    ensures ProducerOf(s, p) == InHand(0) && LogOf(s, a, 0) == [1]
  {
    s := Onward(width, ps, as_, before, Produce(q));
    assert s.producers == map[p := InHand(0), q := InHand(1)];
    s := DispatchesAndCalls(width, ps, as_, s, q);
  }

  /** Every callback has seen the first events that were produced, in order. */
  ghost predicate AllInOrder(width: nat -> nat, s: State) {
    forall a: nat, i: nat :: i < width(a) ==> LogOf(s, a, i) <= Upto(s.produced)
  }

  ghost predicate RunsInOrder(width: nat -> nat, producers: set<nat>, attachers: set<nat>) {
    forall steps :: AllAmong(producers, attachers, steps) ==> AllInOrder(width, Exec(Taker(width), START, steps))
  }

  /** Nobody but attacher `a` is heard of. */
  ghost predicate OnlyAttacher(s: State, a: nat) {
    && (s.d.callbacks.Some? ==> s.d.callbacks.value == a)
    && (forall p: nat :: ProducerOf(s, p).Calling? ==> ProducerOf(s, p).target == a)
    && (forall b: nat, i: nat :: b != a ==> LogOf(s, b, i) == [])
  }

  /** The sets of other attachers see nothing. */
  lemma OthersSeeNothing(width: nat -> nat, steps: seq<Step>, p: nat, a: nat)
    requires forall j :: 0 <= j < |steps| ==> Solo(p, a, steps[j])
    ensures OnlyAttacher(Exec(Taker(width), START, steps), a)
  {
    var inv := (s: State) => OnlyAttacher(s, a);
    forall s, step | Solo(p, a, step) && inv(s)
      ensures inv(Taker(width)(s, step))
    {
      TakeOnly(width, s, p, a, step);
    }
    ExecKeepsFor(Taker(width), (step: Step) => Solo(p, a, step), inv, START, steps);
  }

  lemma TakeOnly(width: nat -> nat, s: State, p: nat, a: nat, step: Step)
    requires OnlyAttacher(s, a) && Solo(p, a, step)
    ensures OnlyAttacher(Take(width, s, step), a)
  {
    var t := Take(width, s, step);
    forall q: nat
      ensures ProducerOf(t, q).Calling? ==> ProducerOf(t, q).target == a
    {
      assert ProducerOf(s, q).Calling? ==> ProducerOf(s, q).target == a;
    }
    forall b: nat, i: nat | b != a
      ensures LogOf(t, b, i) == []
    {
      assert LogOf(s, b, i) == [] && (ProducerOf(s, p).Calling? ==> ProducerOf(s, p).target == a);
    }
  }

  lemma OneOfEachIsInOrder(width: nat -> nat, steps: seq<Step>, p: nat, a: nat)
    requires AllAmong({p}, {a}, steps)
    ensures AllInOrder(width, Exec(Taker(width), START, steps))
  {
    assert forall j :: 0 <= j < |steps| ==> Among({p}, {a}, steps[j]) ==> Solo(p, a, steps[j]);
    OthersSeeNothing(width, steps, p, a);
    forall b: nat, i: nat | i < width(b)
      ensures LogOf(Exec(Taker(width), START, steps), b, i) <= Upto(Exec(Taker(width), START, steps).produced)
    {
      if b == a {
        DeliveryInOrder(width, steps, p, a, i);
      }
    }
  }

  lemma OutOfOrder(width: nat -> nat, ps: set<nat>, as_: set<nat>, s: State, a: nat)
    requires Leads(width, ps, as_, s) && width(a) > 0 && LogOf(s, a, 0) != [] && LogOf(s, a, 0)[0] != 0
    ensures !RunsInOrder(width, ps, as_)
  {
    var steps :| AllAmong(ps, as_, steps) && Exec(Taker(width), START, steps) == s;
    assert !(LogOf(s, a, 0) <= Upto(s.produced)) && !AllInOrder(width, s);
  }

  /** Exactly when order is kept: where there are producers, and attachers with callbacks, every
      callback sees the events in order in every interleaving if and only if there is one of each. */
  lemma OrderNeedsOneOfEach(width: nat -> nat, producers: set<nat>, attachers: set<nat>)
    requires producers != {} && attachers != {} && forall a :: a in attachers ==> width(a) > 0
    ensures RunsInOrder(width, producers, attachers) <==> |producers| == 1 && |attachers| == 1
  {
    var p :| p in producers;
    var a :| a in attachers;
    if producers != {p} {
      var q :| q in producers && q != p;
      var s := TwoProducersReorder(width, producers, attachers, p, q, a);
      OutOfOrder(width, producers, attachers, s, a);
      MoreThanOne(producers, p, q);
    } else if attachers != {a} {
      var b :| b in attachers && b != a;
      var s, t := TwoAttachersSplitTheStream(width, producers, attachers, p, a, b);
      OutOfOrder(width, producers, attachers, s, b);
      MoreThanOne(attachers, a, b);
    } else {
      forall steps | AllAmong(producers, attachers, steps)
        ensures AllInOrder(width, Exec(Taker(width), START, steps))
      {
        OneOfEachIsInOrder(width, steps, p, a);
      }
    }
  }

  lemma MoreThanOne(s: set<nat>, x: nat, y: nat)
    requires x in s && y in s && x != y
    ensures |s| > 1
  {
    assert {x, y} <= s && |s| == |s - {x, y}| + 2;
  }

  // ---- Every event can be delivered ----

  /** Every event is where it should be, and no attacher is done before callbacks are installed. */
  ghost predicate Sane(width: nat -> nat, s: State) {
    Placed(width, s) && Logged(width, s) && forall a: nat :: AttacherOf(s, a).Done? ==> s.d.callbacks.Some?
  }

  lemma SaneStays(width: nat -> nat, s: State, step: Step)
    requires Sane(width, s)
    ensures Sane(width, Take(width, s, step))
  {
    TakeKeeps(width, s, step);
    var t := Take(width, s, step);
    forall a: nat | AttacherOf(t, a).Done?
      ensures t.d.callbacks.Some?
    {
      assert AttacherOf(s, a).Done? ==> s.d.callbacks.Some?;
    }
  }

  lemma SaneReached(width: nat -> nat, steps: seq<Step>)
    ensures Sane(width, Exec(Taker(width), START, steps))
  {
    var inv := (s: State) => Sane(width, s);
    forall s, step | inv(s)
      ensures inv(Taker(width)(s, step))
    {
      SaneStays(width, s, step);
    }
    ExecKeeps(Taker(width), inv, START, steps);
  }

  /** Nothing new is produced, installed callbacks stay, and nobody else moves. */
  ghost predicate Beside(s: State, t: State, p: Option<nat>, a: Option<nat>) {
    && t.produced == s.produced
    && (s.d.callbacks.Some? ==> t.d.callbacks == s.d.callbacks)
    && (forall q: nat :: Some(q) != p ==> ProducerOf(t, q) == ProducerOf(s, q))
    && (forall b: nat :: Some(b) != a ==> AttacherOf(t, b) == AttacherOf(s, b))
  }

  lemma CallbacksStayOneStep(width: nat -> nat, s: State, step: Step)
    requires s.d.callbacks.Some?
    ensures Take(width, s, step).d.callbacks == s.d.callbacks
  {
  }

  /** Callbacks once installed are never replaced. */
  lemma CallbacksStay(width: nat -> nat, s: State, steps: seq<Step>)
    requires s.d.callbacks.Some?
    ensures Exec(Taker(width), s, steps).d.callbacks == s.d.callbacks
  {
    var inv := (t: State) => t.d.callbacks == s.d.callbacks;
    forall t, step | inv(t)
      ensures inv(Taker(width)(t, step))
    {
      CallbacksStayOneStep(width, t, step);
    }
    ExecKeeps(Taker(width), inv, s, steps);
  }

  /** What an attacher does next. */
  function NextOfAttacher(s: State, a: nat): Step {
    match AttacherOf(s, a)
    case Fresh => Attach(a)
    case Looping => AttachLoop(a)
    case _ => AttachCall(a)
  }

  function AttacherRank(f: Attacher): nat {
    match f
    case Fresh => 3
    case Flushing(_, _) => 2
    case Looping => 1
    case Done => 0
  }

  function AttacherLeft(width: nat -> nat, f: Attacher, a: nat): nat {
    match f
    case Flushing(batch, k) => if k <= width(a) then |batch| * (width(a) + 1) + width(a) - k else 0
    case _ => 0
  }

  lemma AttacherComesCloser(width: nat -> nat, s: State, a: nat)
    requires Sane(width, s) && !AttacherOf(s, a).Done?
    ensures var t := Take(width, s, NextOfAttacher(s, a));
            && Beside(s, t, None, Some(a))
            && (|t.d.buffered| < |s.d.buffered|
                || (|t.d.buffered| == |s.d.buffered|
                    && (AttacherRank(AttacherOf(t, a)) < AttacherRank(AttacherOf(s, a))
                        || (AttacherOf(t, a).Flushing? && AttacherOf(s, a).Flushing?
                            && AttacherLeft(width, AttacherOf(t, a), a) < AttacherLeft(width, AttacherOf(s, a), a)))))
            && (AttacherOf(t, a).Done? ==> t.d.callbacks.Some?)
  {
    assert AttacherOk(width, s, a);
    match AttacherOf(s, a)
    case Flushing(batch, k) =>
      if batch != [] {
        assert |batch| * (width(a) + 1) == (|batch| - 1) * (width(a) + 1) + width(a) + 1;
      }
    case _ =>
  }

  /** An attacher that is left alone comes to its end, and then callbacks are installed. */
  lemma {:induction false} FinishAttacher(width: nat -> nat, s: State, a: nat) returns (steps: seq<Step>)
    requires Sane(width, s)
    ensures var t := Exec(Taker(width), s, steps);
            Sane(width, t) && AttacherOf(t, a).Done? && t.d.callbacks.Some? && Beside(s, t, None, Some(a))
    decreases |s.d.buffered|, AttacherRank(AttacherOf(s, a)), AttacherLeft(width, AttacherOf(s, a), a)
  {
    if AttacherOf(s, a).Done? {
      steps := [];
    } else {
      var step := NextOfAttacher(s, a);
      AttacherComesCloser(width, s, a);
      SaneStays(width, s, step);
      var rest := FinishAttacher(width, Take(width, s, step), a);
      ExecCons(Taker(width), s, step, rest);
      steps := [step] + rest;
    }
  }

  function ProducerRank(c: Producer): nat {
    match c
    case InHand(_) => 2
    case Calling(_, _, _) => 1
    case Idle => 0
  }

  function ProducerLeft(width: nat -> nat, c: Producer): nat {
    match c
    case Calling(_, a, k) => if k <= width(a) then width(a) - k else 0
    case _ => 0
  }

  /** What a producer does next with its event. */
  function NextOfProducer(s: State, p: nat): Step {
    if ProducerOf(s, p).InHand? then Dispatch(p) else Call(p)
  }

  lemma ProducerComesCloser(width: nat -> nat, s: State, p: nat)
    requires Sane(width, s) && s.d.callbacks.Some? && !ProducerOf(s, p).Idle?
    ensures var t := Take(width, s, NextOfProducer(s, p));
            && Beside(s, t, Some(p), None)
            && (ProducerRank(ProducerOf(t, p)) < ProducerRank(ProducerOf(s, p))
                || (ProducerRank(ProducerOf(t, p)) == ProducerRank(ProducerOf(s, p))
                    && ProducerLeft(width, ProducerOf(t, p)) < ProducerLeft(width, ProducerOf(s, p))))
  {
    assert ProducerOk(width, s, p);
  }

  /** Once callbacks are installed, a producer that is left alone gets rid of its event. */
  lemma {:induction false} FinishProducer(width: nat -> nat, s: State, p: nat) returns (steps: seq<Step>)
    requires Sane(width, s) && s.d.callbacks.Some?
    ensures var t := Exec(Taker(width), s, steps);
            Sane(width, t) && ProducerOf(t, p).Idle? && t.d.callbacks.Some? && Beside(s, t, Some(p), None)
    decreases ProducerRank(ProducerOf(s, p)), ProducerLeft(width, ProducerOf(s, p))
  {
    if ProducerOf(s, p).Idle? {
      steps := [];
    } else {
      var step := NextOfProducer(s, p);
      ProducerComesCloser(width, s, p);
      SaneStays(width, s, step);
      CallbacksStayOneStep(width, s, step);
      var rest := FinishProducer(width, Take(width, s, step), p);
      ExecCons(Taker(width), s, step, rest);
      steps := [step] + rest;
    }
  }

  /** Those who still have something to do are among these. */
  ghost predicate Unfinished(s: State, producers: set<nat>, attachers: set<nat>) {
    && (forall p: nat :: !ProducerOf(s, p).Idle? ==> p in producers)
    && (forall a: nat :: AttacherOf(s, a).Flushing? || AttacherOf(s, a).Looping? ==> a in attachers)
  }

  lemma {:induction false} FinishAll(width: nat -> nat, s: State, producers: set<nat>, attachers: set<nat>) returns (steps: seq<Step>)
    requires Sane(width, s) && s.d.callbacks.Some? && Unfinished(s, producers, attachers)
    ensures var t := Exec(Taker(width), s, steps);
            Sane(width, t) && t.d.callbacks.Some? && Quiet(t) && t.produced == s.produced
    decreases producers, attachers
  {
    if attachers != {} {
      var a :| a in attachers;
      var first := FinishAttacher(width, s, a);
      var t := Exec(Taker(width), s, first);
      assert Unfinished(t, producers, attachers - {a});
      var rest := FinishAll(width, t, producers, attachers - {a});
      ExecAppend(Taker(width), s, first, rest);
      steps := first + rest;
    } else if producers != {} {
      var p :| p in producers;
      var first := FinishProducer(width, s, p);
      var t := Exec(Taker(width), s, first);
      assert Unfinished(t, producers - {p}, attachers);
      var rest := FinishAll(width, t, producers - {p}, attachers);
      ExecAppend(Taker(width), s, first, rest);
      steps := first + rest;
    } else {
      steps := [];
    }
  }

  /** No event is stuck: wherever a run stands, as soon as one attacher works to its end and the
      others go on with what they hold, every event produced so far has gone to every callback of
      exactly one set. */
  lemma EveryEventCanBeDelivered(width: nat -> nat, steps: seq<Step>, a: nat)
    ensures exists more ::
              var s, t := Exec(Taker(width), START, steps), Exec(Taker(width), START, steps + more);
              t.produced == s.produced && forall e: Event :: e < s.produced ==> WentToOneSet(width, t, e)
  {
    SaneReached(width, steps);
    var s := Exec(Taker(width), START, steps);
    var first := FinishAttacher(width, s, a);
    var t := Exec(Taker(width), s, first);
    var rest := FinishAll(width, t, t.producers.Keys, t.attachers.Keys);
    ExecAppend(Taker(width), s, first, rest);
    ExecAppend(Taker(width), START, steps, first + rest);
    EachEventGoesToOneSet(width, steps + (first + rest));
  }
}
