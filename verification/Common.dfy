/** Small value types and sequence functions shared by every component. */
module Common {

  datatype Option<+T> = None | Some(value: T)

  datatype Result<+T, +E> = Ok(value: T) | Err(error: E)

  /** True when no element occurs at two positions. */
  ghost predicate NoDup<T>(s: seq<T>) {
    forall i, j :: 0 <= i < j < |s| ==> s[i] != s[j]
  }

  /** `s` with every occurrence of `x` removed. */
  function Without<T(==)>(s: seq<T>, x: T): seq<T> {
    if s == [] then []
    else if s[0] == x then Without(s[1..], x)
    else [s[0]] + Without(s[1..], x)
  }

  lemma {:induction false} WithoutAppend<T(!new)>(a: seq<T>, b: seq<T>, x: T)
    ensures Without(a + b, x) == Without(a, x) + Without(b, x)
  {
    if a == [] {
      assert a + b == b;
    } else {
      WithoutAppend(a[1..], b, x);
      assert (a + b)[1..] == a[1..] + b && (a + b)[0] == a[0];
      var front, back := Without(a[1..], x), Without(b, x);
      assert [a[0]] + (front + back) == ([a[0]] + front) + back;
    }
  }

  lemma {:induction false} WithoutIn<T(!new)>(s: seq<T>, x: T, y: T)
    ensures y in Without(s, x) <==> y in s && y != x
  {
    if s != [] {
      WithoutIn(s[1..], x, y);
      assert y in s <==> y == s[0] || y in s[1..];
    }
  }

  lemma {:induction false} WithoutAbsent<T(!new)>(s: seq<T>, x: T)
    requires x !in s
    ensures Without(s, x) == s
  {
    if s != [] {
      WithoutAbsent(s[1..], x);
    }
  }

  /** The position of the first `x` in `s`, or `|s|`. */
  function IndexOf<T(==)>(s: seq<T>, x: T): (i: nat)
    ensures i <= |s|
    ensures i < |s| <==> x in s
    ensures i < |s| ==> s[i] == x
    ensures forall j :: 0 <= j < i ==> s[j] != x
  {
    if s == [] || s[0] == x then 0 else 1 + IndexOf(s[1..], x)
  }

  /** `s` without its element at `i`; `s` itself when `i` is past the end. */
  function RemoveAt<T>(s: seq<T>, i: nat): (r: seq<T>)
    requires i <= |s|
    ensures i < |s| ==> |r| == |s| - 1
  {
    if i < |s| then s[..i] + s[i + 1..] else s
  }

  lemma {:induction false} WithoutOnce<T(!new)>(s: seq<T>, i: nat, x: T)
    requires i < |s| && s[i] == x && x !in s[..i] && x !in s[i + 1..]
    ensures Without(s, x) == s[..i] + s[i + 1..]
  {
    if i == 0 {
      WithoutAbsent(s[1..], x);
    } else {
      assert s[0] == s[..i][0];
      assert s[1..][..i - 1] == s[..i][1..] && s[1..][i..] == s[i + 1..];
      WithoutOnce(s[1..], i - 1, x);
    }
  }

  lemma NoDupRemove<T(!new)>(s: seq<T>, i: nat)
    requires i < |s| && NoDup(s)
    ensures NoDup(s[..i] + s[i + 1..])
    ensures s[i] !in s[..i] && s[i] !in s[i + 1..]
  {
    var r := s[..i] + s[i + 1..];
    forall j, k | 0 <= j < k < |r|
      ensures r[j] != r[k]
    {
      assert r[j] == s[if j < i then j else j + 1] && r[k] == s[if k < i then k else k + 1];
    }
  }

  /** Removing the only occurrence by position is removing it by value. */
  lemma WithoutAt<T(!new)>(s: seq<T>, i: nat)
    requires i < |s| && NoDup(s)
    ensures Without(s, s[i]) == s[..i] + s[i + 1..]
    ensures NoDup(s[..i] + s[i + 1..])
  {
    NoDupRemove(s, i);
    WithoutOnce(s, i, s[i]);
  }

  // ---- Machines that read inputs and emit outputs ----

  /** Feed the inputs to a step function one by one; collect what it emits. */
  function Run<S, I, O>(step: (S, I) -> (S, seq<O>), s: S, inputs: seq<I>): (S, seq<O>)
    decreases inputs
  {
    if inputs == [] then (s, [])
    else
      var (s1, first) := step(s, inputs[0]);
      var (s2, rest) := Run(step, s1, inputs[1..]);
      (s2, first + rest)
  }

  lemma {:induction false} RunAppend<S, I, O>(step: (S, I) -> (S, seq<O>), s: S, a: seq<I>, b: seq<I>)
    ensures var (s1, e1) := Run(step, s, a);
            var (s2, e2) := Run(step, s1, b);
            Run(step, s, a + b) == (s2, e1 + e2)
    decreases a
  {
    if a == [] {
      assert a + b == b;
      assert [] + Run(step, s, b).1 == Run(step, s, b).1;
    } else {
      var (t, first) := step(s, a[0]);
      RunAppend(step, t, a[1..], b);
      assert (a + b)[1..] == a[1..] + b;
      var (s1, e1) := Run(step, t, a[1..]);
      var e2 := Run(step, s1, b).1;
      assert first + (e1 + e2) == (first + e1) + e2;
    }
  }

  /** A run is its all-but-last inputs followed by one step. */
  lemma RunLast<S, I, O>(step: (S, I) -> (S, seq<O>), s: S, inputs: seq<I>)
    requires inputs != []
    ensures var (s1, e1) := Run(step, s, inputs[..|inputs| - 1]);
            var (s2, e2) := step(s1, inputs[|inputs| - 1]);
            Run(step, s, inputs) == (s2, e1 + e2)
  {
    var a, b := inputs[..|inputs| - 1], [inputs[|inputs| - 1]];
    assert inputs == a + b;
    RunAppend(step, s, a, b);
    RunOne(step, Run(step, s, a).0, inputs[|inputs| - 1]);
  }

  lemma RunOne<S, I, O>(step: (S, I) -> (S, seq<O>), s: S, input: I)
    ensures Run(step, s, [input]) == step(s, input)
  {
    var (t, first) := step(s, input);
    assert Run(step, t, [input][1..]) == (t, []);
    assert first + [] == first;
  }

  /** What every step keeps about the state and everything emitted so far, a run keeps. */
  lemma {:induction false} RunKeeps<S(!new), I(!new), O(!new)>(
    step: (S, I) -> (S, seq<O>), inv: (S, seq<O>) -> bool, s: S, log: seq<O>, inputs: seq<I>)
    requires inv(s, log)
    requires forall t, l, i :: inv(t, l) ==> inv(step(t, i).0, l + step(t, i).1)
    ensures var (t, emitted) := Run(step, s, inputs); inv(t, log + emitted)
    decreases inputs
  {
    if inputs == [] {
      assert log + [] == log;
    } else {
      var (s1, first) := step(s, inputs[0]);
      RunKeeps(step, inv, s1, log + first, inputs[1..]);
      var rest := Run(step, s1, inputs[1..]).1;
      assert log + first + rest == log + (first + rest);
    }
  }

  /** Inputs that change nothing and emit nothing can be read any number of times. */
  lemma {:induction false} RunIdle<S, I, O>(step: (S, I) -> (S, seq<O>), s: S, inputs: seq<I>)
    requires forall i :: 0 <= i < |inputs| ==> step(s, inputs[i]) == (s, [])
    ensures Run(step, s, inputs) == (s, [])
    decreases inputs
  {
    if inputs != [] {
      var rest := inputs[1..];
      assert forall i :: 0 <= i < |rest| ==> rest[i] == inputs[i + 1];
      RunIdle(step, s, rest);
      var (t, first) := step(s, inputs[0]);
      assert first == [];
      assert first + Run(step, t, inputs[1..]).1 == [];
    }
  }

  // ---- Machines that only change state ----

  /** Take the steps one by one. */
  function Exec<S, I>(step: (S, I) -> S, s: S, steps: seq<I>): S
    decreases steps
  {
    if steps == [] then s else Exec(step, step(s, steps[0]), steps[1..])
  }

  /** What every step keeps holds after any list of steps. */
  lemma {:induction false} ExecKeeps<S(!new), I(!new)>(step: (S, I) -> S, inv: S -> bool, s: S, steps: seq<I>)
    requires inv(s)
    requires forall t, i :: inv(t) ==> inv(step(t, i))
    ensures inv(Exec(step, s, steps))
    decreases steps
  {
    if steps != [] {
      ExecKeeps(step, inv, step(s, steps[0]), steps[1..]);
    }
  }

  /** The same for steps of one kind. */
  lemma {:induction false} ExecKeepsFor<S(!new), I(!new)>(
    step: (S, I) -> S, kind: I -> bool, inv: S -> bool, s: S, steps: seq<I>)
    requires inv(s) && forall j :: 0 <= j < |steps| ==> kind(steps[j])
    requires forall t, i :: kind(i) && inv(t) ==> inv(step(t, i))
    ensures inv(Exec(step, s, steps))
    decreases steps
  {
    if steps != [] {
      assert kind(steps[0]);
      forall j | 0 <= j < |steps[1..]|
        ensures kind(steps[1..][j])
      {
        assert steps[1..][j] == steps[j + 1];
      }
      ExecKeepsFor(step, kind, inv, step(s, steps[0]), steps[1..]);
    }
  }

  lemma {:induction false} ExecAppend<S, I>(step: (S, I) -> S, s: S, a: seq<I>, b: seq<I>)
    ensures Exec(step, s, a + b) == Exec(step, Exec(step, s, a), b)
    decreases a
  {
    if a == [] {
      assert a + b == b;
    } else {
      ExecAppend(step, step(s, a[0]), a[1..], b);
      assert (a + b)[1..] == a[1..] + b;
    }
  }

  /** All but the last step, and then the last one. */
  lemma ExecLast<S, I>(step: (S, I) -> S, s: S, steps: seq<I>)
    requires steps != []
    ensures Exec(step, s, steps) == step(Exec(step, s, steps[..|steps| - 1]), steps[|steps| - 1])
  {
    var n := |steps| - 1;
    assert steps == steps[..n] + [steps[n]];
    ExecAppend(step, s, steps[..n], [steps[n]]);
    assert [steps[n]][1..] == [];
  }

  lemma ExecCons<S, I>(step: (S, I) -> S, s: S, first: I, rest: seq<I>)
    ensures Exec(step, s, [first] + rest) == Exec(step, step(s, first), rest)
  {
    assert ([first] + rest)[1..] == rest;
  }

  lemma ExecSnoc<S, I>(step: (S, I) -> S, s: S, steps: seq<I>, last: I)
    ensures Exec(step, s, steps + [last]) == step(Exec(step, s, steps), last)
  {
    ExecAppend(step, s, steps, [last]);
    assert [last][1..] == [];
  }
}
