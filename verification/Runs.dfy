// Runs of a machine that is given by its step function.
module Runs {

  function RunOf<S, A>(step: (S, A) -> S, s: S, actions: seq<A>): S
    decreases |actions|
  {
    if actions == [] then s else RunOf(step, step(s, actions[0]), actions[1..])
  }

  lemma {:induction false} RunAppend<S, A>(step: (S, A) -> S, s: S, a: seq<A>, b: seq<A>)
    ensures RunOf(step, s, a + b) == RunOf(step, RunOf(step, s, a), b)
    decreases |a|
  {
    if a == [] {
      assert a + b == b;
    } else {
      assert (a + b)[0] == a[0] && (a + b)[1..] == a[1..] + b;
      RunAppend(step, step(s, a[0]), a[1..], b);
    }
  }

  lemma RunFour<S, A>(step: (S, A) -> S, s: S, a: seq<A>)
    requires |a| >= 4
    ensures RunOf(step, s, a) ==
            RunOf(step, step(step(step(step(s, a[0]), a[1]), a[2]), a[3]), a[4..])
  {
    var s1 := step(s, a[0]);
    var s2 := step(s1, a[1]);
    var s3 := step(s2, a[2]);
    RunOne(step, s, a);
    RunOne(step, s1, a[1..]);
    assert a[1..][1..] == a[2..];
    RunOne(step, s2, a[2..]);
    assert a[2..][1..] == a[3..];
    RunOne(step, s3, a[3..]);
    assert a[3..][1..] == a[4..];
  }

  lemma RunOne<S, A>(step: (S, A) -> S, s: S, a: seq<A>)
    requires a != []
    ensures RunOf(step, s, a) == RunOf(step, step(s, a[0]), a[1..])
  {}

  // ---------- Machines that also put something out ----------

  datatype Effect<S, O> = Effect(state: S, out: seq<O>)

  function Emits<S, A, O>(step: (S, A) -> Effect<S, O>, s: S, actions: seq<A>): Effect<S, O>
    decreases |actions|
  {
    if actions == [] then Effect(s, [])
    else
      var first := step(s, actions[0]);
      var rest := Emits(step, first.state, actions[1..]);
      Effect(rest.state, first.out + rest.out)
  }

  // What an effect adds to earlier output.
  function Onto<S, O>(out: seq<O>, r: Effect<S, O>): Effect<S, O> {
    Effect(r.state, out + r.out)
  }

  // Goes on from an effect: later output comes behind earlier output.
  function Then<S, A, O>(step: (S, A) -> Effect<S, O>, e: Effect<S, O>, actions: seq<A>): Effect<S, O> {
    var rest := Emits(step, e.state, actions);
    Effect(rest.state, e.out + rest.out)
  }

  lemma EmitsOne<S, A, O>(step: (S, A) -> Effect<S, O>, s: S, a: A)
    ensures Emits(step, s, [a]) == step(s, a)
  {
    var e := step(s, a);
    assert Emits(step, e.state, []) == Effect(e.state, []);
    assert e.out + [] == e.out;
  }

  lemma Assoc<T>(a: seq<T>, b: seq<T>, c: seq<T>)
    ensures a + (b + c) == a + b + c
  {}

  lemma {:induction false} EmitsAppend<S, A, O>(step: (S, A) -> Effect<S, O>, s: S, a: seq<A>, b: seq<A>)
    ensures Emits(step, s, a + b) == Then(step, Emits(step, s, a), b)
    decreases |a|
  {
    if a == [] {
      assert a + b == b;
      var p := Emits(step, s, b);
      assert [] + p.out == p.out;
    } else {
      assert (a + b)[0] == a[0] && (a + b)[1..] == a[1..] + b;
      var first := step(s, a[0]);
      EmitsAppend(step, first.state, a[1..], b);
      var p := Emits(step, first.state, a[1..]);
      var q := Emits(step, p.state, b);
      Assoc(first.out, p.out, q.out);
    }
  }
}
