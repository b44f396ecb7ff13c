/** Per-turn token usage out of cumulative counters (garyx-bridge/src/codex_provider.rs). */
module TurnUsage {
  import opened Common

  /** Input and output tokens. */
  datatype Totals = Totals(input: int, output: int)

  const ZERO := Totals(0, 0)

  /** A token-usage snapshot: the thread's cumulative totals and its last request's own usage. */
  datatype Snapshot = Snapshot(total: Totals, last: Totals)

  datatype Notification = Notification(usage: Option<Snapshot>, thread: Option<string>, turn: Option<string>)

  function Max(a: int, b: int): int {
    if a >= b then a else b
  }

  function MaxTotals(current: Option<Totals>, candidate: Totals): Totals {
    match current
    case Some(t) => Totals(Max(t.input, candidate.input), Max(t.output, candidate.output))
    case None => candidate
  }

  function Plus(a: Totals, b: Totals): Totals {
    Totals(a.input + b.input, a.output + b.output)
  }

  function Minus(a: Totals, b: Totals): Totals {
    Totals(a.input - b.input, a.output - b.output)
  }

  /** Componentwise difference, never below zero. */
  function Growth(later: Totals, earlier: Totals): Totals {
    Totals(Max(later.input - earlier.input, 0), Max(later.output - earlier.output, 0))
  }

  predicate Leq(a: Totals, b: Totals) {
    a.input <= b.input && a.output <= b.output
  }

  // ---- The tracker of one turn ----

  datatype Tracked = Tracked(replay: Option<Totals>, first: Option<Snapshot>, latest: Option<Snapshot>)

  const NOTHING := Tracked(None, None, None)

  predicate Concerns(n: Notification, thread: string) {
    n.usage.Some? && n.thread == Some(thread)
  }

  function Observed(t: Tracked, n: Notification, thread: string, turn: string): Tracked {
    if !Concerns(n, thread) then t
    else if n.turn == Some(turn) then
      t.(first := if t.first.None? then n.usage else t.first, latest := n.usage)
    else t.(replay := Some(MaxTotals(t.replay, n.usage.value.total)))
  }

  function Baseline(replay: Option<Totals>, stored: Option<Totals>): Option<Totals> {
    match (replay, stored)
    case (Some(r), Some(s)) => Some(MaxTotals(Some(r), s))
    case (Some(r), None) => Some(r)
    case (None, _) => stored
  }

  /** The turn's own usage. */
  function Finish(t: Tracked, stored: Option<Totals>, resumed: bool): Totals {
    if t.latest.None? then ZERO
    else
      var latest := t.latest.value.total;
      match Baseline(t.replay, stored)
      case Some(base) => Growth(latest, base)
      case None =>
        if !resumed then latest
        else if t.first.None? then ZERO
        else Plus(t.first.value.last, Growth(latest, t.first.value.total))
  }

  function LatestTotals(t: Tracked): Option<Totals> {
    if t.latest.Some? then Some(MaxTotals(t.replay, t.latest.value.total)) else t.replay
  }

  /** The stored totals after the turn. */
  function Remembered(t: Tracked, stored: Option<Totals>): Option<Totals> {
    match LatestTotals(t)
    case Some(latest) => Some(MaxTotals(stored, latest))
    case None => stored
  }

  class CodexTurnUsageTracker {
    var replayBaseline: Option<Totals>
    var first: Option<Snapshot>
    var latest: Option<Snapshot>

    ghost function Abstract(): Tracked
      reads this
    {
      Tracked(replayBaseline, first, latest)
    }

    constructor ()
      ensures Abstract() == NOTHING
    {
      replayBaseline, first, latest := None, None, None;
    }

    method Observe(n: Notification, thread: string, turn: string) returns (consumed: bool)
      modifies this
      ensures consumed <==> n.usage.Some? && n.thread == Some(thread)
      ensures Abstract() == Observed(old(Abstract()), n, thread, turn)
    {
      if n.usage.None? || n.thread != Some(thread) {
        return false;
      }
      if n.turn == Some(turn) {
        if first.None? {
          first := n.usage;
        }
        latest := n.usage;
      } else {
        replayBaseline := Some(MaxTotals(replayBaseline, n.usage.value.total));
      }
      consumed := true;
    }
  }

  // ---- What the tracker holds after a turn ----

  function Watch(ns: seq<Notification>, thread: string, turn: string): Tracked {
    Exec((t: Tracked, n: Notification) => Observed(t, n, thread, turn), NOTHING, ns)
  }

  predicate OfTurn(n: Notification, thread: string, turn: string) {
    Concerns(n, thread) && n.turn == Some(turn)
  }

  predicate OfEarlierTurn(n: Notification, thread: string, turn: string) {
    Concerns(n, thread) && n.turn != Some(turn)
  }

  /** The turn's first and last own snapshot. */
  ghost predicate OwnSnapshots(t: Tracked, ns: seq<Notification>, thread: string, turn: string) {
    if t.latest.None? then t.first.None? && forall k :: 0 <= k < |ns| ==> !OfTurn(ns[k], thread, turn)
    else
      exists i, j :: 0 <= i <= j < |ns| && Spans(t, ns, thread, turn, i, j)
  }

  ghost predicate Spans(t: Tracked, ns: seq<Notification>, thread: string, turn: string, i: nat, j: nat)
    requires i <= j < |ns|
  {
    && OfTurn(ns[i], thread, turn) && OfTurn(ns[j], thread, turn)
    && t.first == ns[i].usage && t.latest == ns[j].usage
    && forall k :: (0 <= k < i || j < k < |ns|) ==> !OfTurn(ns[k], thread, turn)
  }

  /** The componentwise maximum over the snapshots replayed for other turns. */
  ghost predicate ReplayMaximum(t: Tracked, ns: seq<Notification>, thread: string, turn: string) {
    if t.replay.None? then forall k :: 0 <= k < |ns| ==> !OfEarlierTurn(ns[k], thread, turn)
    else
      && (forall k :: 0 <= k < |ns| && OfEarlierTurn(ns[k], thread, turn) ==> Leq(ns[k].usage.value.total, t.replay.value))
      && (exists k :: 0 <= k < |ns| && OfEarlierTurn(ns[k], thread, turn) && ns[k].usage.value.total.input == t.replay.value.input)
      && (exists k :: 0 <= k < |ns| && OfEarlierTurn(ns[k], thread, turn) && ns[k].usage.value.total.output == t.replay.value.output)
  }

  ghost predicate Summary(t: Tracked, ns: seq<Notification>, thread: string, turn: string) {
    OwnSnapshots(t, ns, thread, turn) && ReplayMaximum(t, ns, thread, turn)
  }

  lemma OwnSnapshotsStep(t: Tracked, ns: seq<Notification>, n: Notification, thread: string, turn: string)
    requires OwnSnapshots(t, ns, thread, turn)
    ensures OwnSnapshots(Observed(t, n, thread, turn), ns + [n], thread, turn)
  {
    var longer, u, last := ns + [n], Observed(t, n, thread, turn), |ns|;
    if t.latest.Some? {
      var i, j :| 0 <= i <= j < |ns| && Spans(t, ns, thread, turn, i, j);
      assert Spans(u, longer, thread, turn, i, if OfTurn(n, thread, turn) then last else j);
    } else if OfTurn(n, thread, turn) {
      assert Spans(u, longer, thread, turn, last, last);
    }
  }

  lemma ReplayMaximumStep(t: Tracked, ns: seq<Notification>, n: Notification, thread: string, turn: string)
    requires ReplayMaximum(t, ns, thread, turn)
    ensures ReplayMaximum(Observed(t, n, thread, turn), ns + [n], thread, turn)
  {
    var longer := ns + [n];
    assert longer[|ns|] == n;
    if t.replay.Some? {
      var i :| 0 <= i < |ns| && OfEarlierTurn(ns[i], thread, turn) && ns[i].usage.value.total.input == t.replay.value.input;
      var j :| 0 <= j < |ns| && OfEarlierTurn(ns[j], thread, turn) && ns[j].usage.value.total.output == t.replay.value.output;
      assert longer[i] == ns[i] && longer[j] == ns[j];
    }
  }

  /** After any notifications the tracker holds the turn's first and last own snapshot and the
      maximum of the replayed totals. */
  lemma {:induction false} WatchSummarizes(ns: seq<Notification>, thread: string, turn: string)
    ensures Summary(Watch(ns, thread, turn), ns, thread, turn)
  {
    var step := (t: Tracked, n: Notification) => Observed(t, n, thread, turn);
    if ns != [] {
      var before, n := ns[..|ns| - 1], ns[|ns| - 1];
      WatchSummarizes(before, thread, turn);
      assert ns == before + [n];
      ExecAppend(step, NOTHING, before, [n]);
      assert [n][1..] == [];
      assert Exec(step, step(Watch(before, thread, turn), n), []) == step(Watch(before, thread, turn), n);
      OwnSnapshotsStep(Watch(before, thread, turn), before, n, thread, turn);
      ReplayMaximumStep(Watch(before, thread, turn), before, n, thread, turn);
    }
  }

  // ---- A thread's turns, one after another ----

  /** By how much the replayed totals ran ahead of the stored ones before the turn. */
  function Gap(t: Tracked, stored: Totals): Totals {
    if t.replay.None? then ZERO else Growth(t.replay.value, stored)
  }

  /** What one turn adds to the stored totals is its usage plus the gap: nothing is counted
      twice, and only what ran outside this process is left out. */
  lemma TurnAccount(t: Tracked, stored: Totals, resumed: bool)
    ensures var after := Remembered(t, Some(stored));
            after.Some?
            && Minus(after.value, stored) == Plus(Finish(t, Some(stored), resumed), Gap(t, stored))
            && Leq(ZERO, Finish(t, Some(stored), resumed)) && Leq(ZERO, Gap(t, stored))
  {
  }

  datatype Turn = Turn(notifications: seq<Notification>, id: string, resumed: bool)

  datatype Ledger = Ledger(stored: Option<Totals>, reported: Totals, gaps: Totals)

  function Settle(l: Ledger, thread: string, turn: Turn): Ledger {
    var t := Watch(turn.notifications, thread, turn.id);
    Ledger(Remembered(t, l.stored), Plus(l.reported, Finish(t, l.stored, turn.resumed)),
           Plus(l.gaps, Gap(t, if l.stored.Some? then l.stored.value else ZERO)))
  }

  function Account(l: Ledger, thread: string, turns: seq<Turn>): Ledger {
    Exec((m: Ledger, turn: Turn) => Settle(m, thread, turn), l, turns)
  }

  /** What was stored beyond `start` is what was reported plus the gaps. */
  ghost predicate Books(l: Ledger, start: Totals) {
    l.stored.Some? && Minus(l.stored.value, start) == Plus(l.reported, l.gaps)
  }

  ghost predicate Balanced(l: Ledger, start: Totals) {
    Books(l, start) && Leq(ZERO, l.gaps) && Leq(ZERO, l.reported)
  }

  lemma TurnAdds(l: Ledger, start: Totals, after: Totals, usage: Totals, gap: Totals)
    requires Books(l, start) && Minus(after, l.stored.value) == Plus(usage, gap) && Leq(ZERO, usage) && Leq(ZERO, gap)
    ensures var m := Ledger(Some(after), Plus(l.reported, usage), Plus(l.gaps, gap));
            Books(m, start) && (Balanced(l, start) ==> Balanced(m, start))
  {
  }

  lemma SettleBooks(l: Ledger, start: Totals, thread: string, turn: Turn)
    requires Books(l, start)
    ensures Books(Settle(l, thread, turn), start) && (Balanced(l, start) ==> Balanced(Settle(l, thread, turn), start))
  {
    var t, stored := Watch(turn.notifications, thread, turn.id), l.stored.value;
    TurnAccount(t, stored, turn.resumed);
    TurnAdds(l, start, Remembered(t, Some(stored)).value, Finish(t, Some(stored), turn.resumed), Gap(t, stored));
  }

  lemma {:induction false} AccountBalances(l: Ledger, start: Totals, thread: string, turns: seq<Turn>)
    requires Balanced(l, start)
    ensures Balanced(Account(l, thread, turns), start)
    decreases turns
  {
    if turns != [] {
      SettleBooks(l, start, thread, turns[0]);
      AccountBalances(Settle(l, thread, turns[0]), start, thread, turns[1..]);
    }
  }

  /** Over any sequence of turns from a stored baseline, with any snapshots, monotone or not:
      the growth of the stored totals is the usage reported plus the gaps. So the usage never
      exceeds the growth, and it equals it exactly when no replay ran ahead of the stored
      totals. */
  lemma UsageNeverDoubleCounts(stored: Totals, thread: string, turns: seq<Turn>)
    ensures var l := Account(Ledger(Some(stored), ZERO, ZERO), thread, turns);
            && l.stored.Some?
            && Minus(l.stored.value, stored) == Plus(l.reported, l.gaps)
            && Leq(ZERO, l.gaps) && Leq(ZERO, l.reported)
            && Leq(l.reported, Minus(l.stored.value, stored))
            && (l.reported == Minus(l.stored.value, stored) <==> l.gaps == ZERO)
  {
    AccountBalances(Ledger(Some(stored), ZERO, ZERO), stored, thread, turns);
  }

  /** A replay ran ahead of what was stored before its turn. */
  ghost predicate Ahead(l: Ledger, thread: string, turn: Turn) {
    l.stored.Some? &&
    var replay := Watch(turn.notifications, thread, turn.id).replay;
    replay.Some? && !Leq(replay.value, l.stored.value)
  }

  /** The gaps stay zero exactly when no turn saw a replay ahead of its stored baseline. */
  lemma {:induction false} GapsAreReplaysAhead(l: Ledger, thread: string, turns: seq<Turn>)
    requires l.stored.Some?
    ensures Account(l, thread, turns).stored.Some?
    ensures Leq(l.gaps, Account(l, thread, turns).gaps)
    ensures Account(l, thread, turns).gaps == l.gaps <==>
            forall i :: 0 <= i < |turns| ==> !Ahead(Account(l, thread, turns[..i]), thread, turns[i])
    decreases turns
  {
    if turns != [] {
      var m, rest := Settle(l, thread, turns[0]), turns[1..];
      GapsAreReplaysAhead(m, thread, rest);
      assert turns[..0] == [] && Account(l, thread, turns[..0]) == l;
      assert m.gaps == l.gaps <==> !Ahead(l, thread, turns[0]);
      forall i | 0 <= i < |rest|
        ensures Account(l, thread, turns[..i + 1]) == Account(m, thread, rest[..i]) && turns[i + 1] == rest[i]
      {
        assert turns[..i + 1][1..] == rest[..i];
      }
      if forall i :: 0 <= i < |turns| ==> !Ahead(Account(l, thread, turns[..i]), thread, turns[i]) {
        forall i | 0 <= i < |rest|
          ensures !Ahead(Account(m, thread, rest[..i]), thread, rest[i])
        {
          assert !Ahead(Account(l, thread, turns[..i + 1]), thread, turns[i + 1]);
        }
      }
      if m.gaps == l.gaps && Account(m, thread, rest).gaps == m.gaps {
        forall i | 0 <= i < |turns|
          ensures !Ahead(Account(l, thread, turns[..i]), thread, turns[i])
        {
          if i > 0 {
            assert !Ahead(Account(m, thread, rest[..i - 1]), thread, rest[i - 1]);
          }
        }
      }
    }
  }

  function Least(a: Totals, b: Totals): Totals {
    Totals(if a.input <= b.input then a.input else b.input, if a.output <= b.output then a.output else b.output)
  }

  /** What a thread without a stored baseline had used before its first turn here: nothing when
      it is fresh; what was replayed counts as a gap; and a resumed thread without a replay is
      taken to have used what precedes its first request. */
  function Offset(t: Tracked, resumed: bool): Totals {
    if t.replay.Some? then Least(t.replay.value, ZERO)
    else if !resumed || t.first.None? || t.latest.None? then ZERO
    else Minus(Least(t.first.value.total, t.latest.value.total), t.first.value.last)
  }

  /** The turn's own snapshots are those from notification `i` to notification `j`. */
  ghost predicate OwnFromTo(ns: seq<Notification>, thread: string, turn: string, i: nat, j: nat)
    requires i <= j < |ns|
  {
    && OfTurn(ns[i], thread, turn) && OfTurn(ns[j], thread, turn)
    && forall k :: (0 <= k < i || j < k < |ns|) ==> !OfTurn(ns[k], thread, turn)
  }

  ghost predicate SomeReplay(ns: seq<Notification>, thread: string, turn: string) {
    exists k :: 0 <= k < |ns| && OfEarlierTurn(ns[k], thread, turn)
  }

  lemma WatchedEnds(ns: seq<Notification>, thread: string, turn: string, i: nat, j: nat)
    requires i <= j < |ns| && OwnFromTo(ns, thread, turn, i, j)
    ensures var t := Watch(ns, thread, turn);
            t.first == ns[i].usage && t.latest == ns[j].usage && (t.replay.Some? <==> SomeReplay(ns, thread, turn))
  {
    var t := Watch(ns, thread, turn);
    WatchSummarizes(ns, thread, turn);
    assert OfTurn(ns[i], thread, turn);
    var a, b :| 0 <= a <= b < |ns| && Spans(t, ns, thread, turn, a, b);
    assert a == i && b == j;
  }

  /** The start, told from what the server sent in the first turn, as long as its counters are
      not negative and do not go back in that turn. A thread that is resumed here and replays
      nothing starts from what its first snapshot says was used before the request it belongs to:
      the total less that request. All others start from zero. And the turn reports everything
      since, but for what was replayed. */
  lemma StartIsWhatPrecedesTheFirstRequest(ns: seq<Notification>, thread: string, turn: string, resumed: bool, i: nat, j: nat)
    requires i <= j < |ns| && OwnFromTo(ns, thread, turn, i, j)
    requires Leq(ns[i].usage.value.total, ns[j].usage.value.total)
    requires forall k :: 0 <= k < |ns| && Concerns(ns[k], thread) ==> Leq(ZERO, ns[k].usage.value.total)
    ensures var t, first, last := Watch(ns, thread, turn), ns[i].usage.value, ns[j].usage.value;
            && Offset(t, resumed)
               == (if resumed && !SomeReplay(ns, thread, turn) then Minus(first.total, first.last) else ZERO)
            && (!SomeReplay(ns, thread, turn) ==> Finish(t, None, resumed) == Minus(last.total, Offset(t, resumed)))
            && forall k :: 0 <= k < |ns| && OfEarlierTurn(ns[k], thread, turn) ==>
                 Leq(Finish(t, None, resumed), Growth(last.total, ns[k].usage.value.total))
  {
    WatchedEnds(ns, thread, turn, i, j);
    WatchSummarizes(ns, thread, turn);
  }

  lemma FirstReplayed(t: Tracked, resumed: bool)
    requires t.replay.Some?
    ensures Remembered(t, None).Some?
    ensures Minus(Remembered(t, None).value, Offset(t, resumed)) == Plus(Finish(t, None, resumed), Gap(t, ZERO))
  {
    if t.latest.Some? {
      assert Finish(t, None, resumed) == Growth(t.latest.value.total, t.replay.value);
    }
  }

  lemma FirstUnseen(t: Tracked, resumed: bool)
    requires t.replay.None? && t.first.Some? && t.latest.Some?
    ensures Remembered(t, None) == Some(t.latest.value.total)
    ensures Minus(t.latest.value.total, Offset(t, resumed)) == Plus(Finish(t, None, resumed), Gap(t, ZERO))
  {
  }

  lemma FirstTurnBooks(t: Tracked, resumed: bool)
    requires t.replay.Some? || (t.first.Some? && t.latest.Some?)
    ensures Books(Ledger(Remembered(t, None), Plus(ZERO, Finish(t, None, resumed)), Plus(ZERO, Gap(t, ZERO))), Offset(t, resumed))
  {
    if t.replay.Some? {
      FirstReplayed(t, resumed);
    } else {
      FirstUnseen(t, resumed);
    }
    var usage, gap := Finish(t, None, resumed), Gap(t, ZERO);
    assert Plus(Plus(ZERO, usage), Plus(ZERO, gap)) == Plus(usage, gap);
  }

  /** A thread's first turn and all later ones: what is stored is the offset of the first turn,
      plus everything reported, plus the gaps. For a fresh thread the offset is zero, so all of
      its usage is reported; no turn is counted twice in either case. */
  lemma EveryThreadCountsFromItsStart(thread: string, first: Turn, turns: seq<Turn>)
    requires var t := Watch(first.notifications, thread, first.id); t.replay.Some? || t.latest.Some?
    ensures var t := Watch(first.notifications, thread, first.id);
            var l := Account(Ledger(None, ZERO, ZERO), thread, [first] + turns);
            l.stored.Some? && Minus(l.stored.value, Offset(t, first.resumed)) == Plus(l.reported, l.gaps)
  {
    var start := Ledger(None, ZERO, ZERO);
    var step := (m: Ledger, turn: Turn) => Settle(m, thread, turn);
    var t := Watch(first.notifications, thread, first.id);
    WatchSummarizes(first.notifications, thread, first.id);
    ExecCons(step, start, first, turns);
    FirstTurnBooks(t, first.resumed);
    var inv := (l: Ledger) => Books(l, Offset(t, first.resumed));
    forall l, turn | inv(l)
      ensures inv(step(l, turn))
    {
      SettleBooks(l, Offset(t, first.resumed), thread, turn);
    }
    ExecKeeps(step, inv, step(start, first), turns);
  }

  /** The notifications of one thread, in order. */
  function Own(ns: seq<Notification>, thread: string): seq<Notification> {
    if ns == [] then []
    else (if ns[0].thread == Some(thread) then [ns[0]] else []) + Own(ns[1..], thread)
  }

  /** Other threads' notifications on a shared client have no effect on a turn, however they
      are interleaved with its own. */
  lemma {:induction false} OtherThreadsHaveNoEffect(t: Tracked, ns: seq<Notification>, thread: string, turn: string)
    ensures var step := (u: Tracked, n: Notification) => Observed(u, n, thread, turn);
            Exec(step, t, ns) == Exec(step, t, Own(ns, thread))
    decreases ns
  {
    var step := (u: Tracked, n: Notification) => Observed(u, n, thread, turn);
    if ns != [] {
      OtherThreadsHaveNoEffect(step(t, ns[0]), ns[1..], thread, turn);
      if ns[0].thread == Some(thread) {
        ExecCons(step, t, ns[0], Own(ns[1..], thread));
      } else {
        assert Own(ns, thread) == Own(ns[1..], thread);
      }
    }
  }

  /** No notification of the turn carries usage of this thread. */
  ghost predicate Silent(turn: Turn, thread: string) {
    forall n :: n in turn.notifications && n.usage.Some? ==> n.thread != Some(thread)
  }

  lemma {:induction false} NothingWatched(ns: seq<Notification>, thread: string, turn: string)
    requires forall n :: n in ns && n.usage.Some? ==> n.thread != Some(thread)
    ensures Watch(ns, thread, turn) == NOTHING
  {
    if ns != [] {
      NothingWatched(ns[1..], thread, turn);
      assert ns[0] in ns && forall n :: n in ns[1..] ==> n in ns;
    }
  }

  /** Turns that saw no usage of the thread report nothing, store nothing, and make no difference to
      the turns after them; so a thread counts from the first turn that did see some. */
  lemma {:induction false} SilentTurnsCountNothing(l: Ledger, thread: string, silent: seq<Turn>, turns: seq<Turn>)
    requires forall turn :: turn in silent ==> Silent(turn, thread)
    ensures Account(l, thread, silent + turns) == Account(l, thread, turns)
    decreases silent
  {
    if silent == [] {
      assert silent + turns == turns;
    } else {
      assert silent[0] in silent && forall turn :: turn in silent[1..] ==> turn in silent;
      NothingWatched(silent[0].notifications, thread, silent[0].id);
      assert Settle(l, thread, silent[0]) == l;
      assert (silent + turns)[0] == silent[0] && (silent + turns)[1..] == silent[1..] + turns;
      SilentTurnsCountNothing(l, thread, silent[1..], turns);
    }
  }

  // ---- The provider's totals by thread ----

  class CodexUsageTotals {
    var byThread: map<string, Totals>

    constructor ()
      ensures byThread == map[]
    {
      byThread := map[];
    }

    /** The end of a run: read the stored baseline, remember the turn's totals, report. */
    method Settle(tracker: CodexTurnUsageTracker, thread: string, resumed: bool) returns (usage: Totals)
      modifies this
      ensures var stored := if thread in old(byThread) then Some(old(byThread)[thread]) else None;
              var t := tracker.Abstract();
              && usage == Finish(t, stored, resumed)
              && byThread == (if Remembered(t, stored).Some?
                              then old(byThread)[thread := Remembered(t, stored).value] else old(byThread))
    {
      var stored := if thread in byThread then Some(byThread[thread]) else None;
      var t := Tracked(tracker.replayBaseline, tracker.first, tracker.latest);
      var latest := LatestTotals(t);
      if latest.Some? {
        byThread := byThread[thread := MaxTotals(stored, latest.value)];
      }
      usage := Finish(t, stored, resumed);
    }
  }
}
