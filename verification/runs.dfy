/** Runs of any machine, read from the end instead of from the start. */
module Runs {
  ghost function RunBy<S, O>(step: (S, O) -> S, s: S, ops: seq<O>): S
    decreases |ops|
  {
    if ops == [] then s else RunBy(step, step(s, ops[0]), ops[1..])
  }

  ghost predicate LawfulBy<S, O>(enabled: (S, O) -> bool, step: (S, O) -> S, s: S, ops: seq<O>)
    decreases |ops|
  {
    ops != [] ==> enabled(s, ops[0]) && LawfulBy(enabled, step, step(s, ops[0]), ops[1..])
  }

  /** The last step of a run, after all the others. */
  lemma {:induction false} RunByOneMore<S, O>(step: (S, O) -> S, s: S, ops: seq<O>)
    requires ops != []
    ensures RunBy(step, s, ops) == step(RunBy(step, s, ops[..|ops| - 1]), ops[|ops| - 1])
    decreases |ops|
  {
    if |ops| > 1 {
      RunByOneMore(step, step(s, ops[0]), ops[1..]);
      assert ops[1..][..|ops[1..]| - 1] == ops[..|ops| - 1][1..];
    }
  }

  lemma {:induction false} LawfulByOneMore<S, O>(enabled: (S, O) -> bool, step: (S, O) -> S, s: S, ops: seq<O>)
    requires ops != [] && LawfulBy(enabled, step, s, ops)
    ensures LawfulBy(enabled, step, s, ops[..|ops| - 1])
    ensures enabled(RunBy(step, s, ops[..|ops| - 1]), ops[|ops| - 1])
    decreases |ops|
  {
    if |ops| > 1 {
      LawfulByOneMore(enabled, step, step(s, ops[0]), ops[1..]);
      assert ops[1..][..|ops[1..]| - 1] == ops[..|ops| - 1][1..];
    }
  }

  /** A run in two parts. */
  lemma {:induction false} RunByJoin<S, O>(step: (S, O) -> S, s: S, a: seq<O>, b: seq<O>)
    ensures RunBy(step, s, a + b) == RunBy(step, RunBy(step, s, a), b)
    decreases |a|
  {
    if a == [] {
      assert a + b == b;
    } else {
      RunByJoin(step, step(s, a[0]), a[1..], b);
      assert (a + b)[1..] == a[1..] + b;
    }
  }

  lemma {:induction false} LawfulByJoin<S, O>(enabled: (S, O) -> bool, step: (S, O) -> S, s: S, a: seq<O>, b: seq<O>)
    ensures LawfulBy(enabled, step, s, a + b) <==>
      LawfulBy(enabled, step, s, a) && LawfulBy(enabled, step, RunBy(step, s, a), b)
    decreases |a|
  {
    if a == [] {
      assert a + b == b;
    } else {
      LawfulByJoin(enabled, step, step(s, a[0]), a[1..], b);
      assert (a + b)[1..] == a[1..] + b;
    }
  }

  lemma RunByTwo<S, O>(step: (S, O) -> S, s: S, ops: seq<O>)
    requires |ops| == 2
    ensures RunBy(step, s, ops) == step(step(s, ops[0]), ops[1])
  {
    assert RunBy(step, step(s, ops[0]), ops[1..]) == RunBy(step, step(step(s, ops[0]), ops[1]), []);
  }

  lemma RunByThree<S, O>(step: (S, O) -> S, s: S, ops: seq<O>)
    requires |ops| == 3
    ensures RunBy(step, s, ops) == step(step(step(s, ops[0]), ops[1]), ops[2])
  {
    RunByTwo(step, step(s, ops[0]), ops[1..]);
  }

  ghost predicate Goes<S, O>(enabled: (S, O) -> bool, step: (S, O) -> S, s: S, op: O, s': S) {
    enabled(s, op) && step(s, op) == s'
  }

  ghost predicate StepsAt<S, O>(enabled: (S, O) -> bool, step: (S, O) -> S, states: seq<S>, ops: seq<O>, k: nat)
    requires k < |ops| < |states|
  {
    Goes(enabled, step, states[k], ops[k], states[k + 1])
  }

  /** A run spelled out: each of these states leads to the next one. */
  lemma {:induction false} RunsAlong<S, O>(enabled: (S, O) -> bool, step: (S, O) -> S, states: seq<S>, ops: seq<O>)
    requires |states| == |ops| + 1 && forall k :: 0 <= k < |ops| ==> StepsAt(enabled, step, states, ops, k)
    ensures LawfulBy(enabled, step, states[0], ops) && RunBy(step, states[0], ops) == states[|ops|]
    decreases |ops|
  {
    if ops != [] {
      assert StepsAt(enabled, step, states, ops, 0);
      forall k | 0 <= k < |ops[1..]| ensures StepsAt(enabled, step, states[1..], ops[1..], k) {
        assert StepsAt(enabled, step, states, ops, k + 1);
      }
      RunsAlong(enabled, step, states[1..], ops[1..]);
    }
  }

  lemma AlongTwo<S, O>(enabled: (S, O) -> bool, step: (S, O) -> S, ops: seq<O>, s: S, t: S, u: S)
    requires |ops| == 2 && Goes(enabled, step, s, ops[0], t) && Goes(enabled, step, t, ops[1], u)
    ensures LawfulBy(enabled, step, s, ops) && RunBy(step, s, ops) == u
  {
    RunsAlong(enabled, step, [s, t, u], ops);
  }

  lemma AlongThree<S, O>(enabled: (S, O) -> bool, step: (S, O) -> S, ops: seq<O>, s: S, t: S, u: S, v: S)
    requires |ops| == 3 && Goes(enabled, step, s, ops[0], t) && Goes(enabled, step, t, ops[1], u)
    requires Goes(enabled, step, u, ops[2], v)
    ensures LawfulBy(enabled, step, s, ops) && RunBy(step, s, ops) == v
  {
    RunsAlong(enabled, step, [s, t, u, v], ops);
  }

  lemma AlongFour<S, O>(enabled: (S, O) -> bool, step: (S, O) -> S, ops: seq<O>, s: S, t: S, u: S, v: S, w: S)
    requires |ops| == 4 && Goes(enabled, step, s, ops[0], t) && Goes(enabled, step, t, ops[1], u)
    requires Goes(enabled, step, u, ops[2], v) && Goes(enabled, step, v, ops[3], w)
    ensures LawfulBy(enabled, step, s, ops) && RunBy(step, s, ops[..2]) == u && RunBy(step, s, ops) == w
  {
    RunsAlong(enabled, step, [s, t, u, v, w], ops);
    RunsAlong(enabled, step, [s, t, u], ops[..2]);
  }

  lemma InTwoParts<S, O>(enabled: (S, O) -> bool, step: (S, O) -> S, a: seq<O>, b: seq<O>, s: S, t: S, u: S)
    requires LawfulBy(enabled, step, s, a) && RunBy(step, s, a) == t
    requires LawfulBy(enabled, step, t, b) && RunBy(step, t, b) == u
    ensures LawfulBy(enabled, step, s, a + b) && RunBy(step, s, a + b) == u
  {
    RunByJoin(step, s, a, b);
    LawfulByJoin(enabled, step, s, a, b);
  }
}
