/** Runs of a deterministic machine over a sequence of inputs: where they end and what they log.
    What the machine does in one step plays no part in the lemmas below. */
module Runs {

  function Final<S, E, O>(step: (S, E) -> (S, seq<O>), s: S, es: seq<E>): S
    decreases es
  {
    if es == [] then s else Final(step, step(s, es[0]).0, es[1..])
  }

  function Log<S, E, O>(step: (S, E) -> (S, seq<O>), s: S, es: seq<E>): seq<O>
    decreases es
  {
    if es == [] then [] else step(s, es[0]).1 + Log(step, step(s, es[0]).0, es[1..])
  }

  /** `ok` holds of every state of the run and the input it meets there. */
  predicate Always<S, E, O>(step: (S, E) -> (S, seq<O>), ok: (S, E) -> bool, s: S, es: seq<E>)
    decreases es
  {
    es != [] ==> ok(s, es[0]) && Always(step, ok, step(s, es[0]).0, es[1..])
  }

  lemma {:induction false} FinalAppend<S, E, O>(step: (S, E) -> (S, seq<O>), s: S, a: seq<E>, b: seq<E>)
    ensures Final(step, s, a + b) == Final(step, Final(step, s, a), b)
    decreases a
  {
    if a == [] {
      assert a + b == b;
    } else {
      FinalAppend(step, step(s, a[0]).0, a[1..], b);
      assert (a + b)[1..] == a[1..] + b;
    }
  }

  lemma {:induction false} LogAppend<S, E, O>(step: (S, E) -> (S, seq<O>), s: S, a: seq<E>, b: seq<E>)
    ensures Log(step, s, a + b) == Log(step, s, a) + Log(step, Final(step, s, a), b)
    decreases a
  {
    if a == [] {
      assert a + b == b;
    } else {
      LogAppend(step, step(s, a[0]).0, a[1..], b);
      assert (a + b)[1..] == a[1..] + b;
    }
  }

  lemma {:induction false} AlwaysAppend<S, E, O>(step: (S, E) -> (S, seq<O>), ok: (S, E) -> bool, s: S, a: seq<E>, b: seq<E>)
    ensures Always(step, ok, s, a + b) <==> Always(step, ok, s, a) && Always(step, ok, Final(step, s, a), b)
    decreases a
  {
    if a == [] {
      assert a + b == b;
    } else {
      AlwaysAppend(step, ok, step(s, a[0]).0, a[1..], b);
      assert (a + b)[1..] == a[1..] + b;
    }
  }

  /** A run that is not always `ok` has a first input that is not. */
  lemma {:induction false} FirstFailure<S, E, O>(step: (S, E) -> (S, seq<O>), ok: (S, E) -> bool, s: S, es: seq<E>) returns (k: nat)
    requires !Always(step, ok, s, es)
    ensures k < |es| && Always(step, ok, s, es[..k]) && !ok(Final(step, s, es[..k]), es[k])
    decreases es
  {
    if !ok(s, es[0]) {
      k := 0;
      assert es[..0] == [];
    } else {
      var j := FirstFailure(step, ok, step(s, es[0]).0, es[1..]);
      k := j + 1;
      assert es[..k][1..] == es[1..][..j];
    }
  }

  lemma OneMore<S, E, O>(step: (S, E) -> (S, seq<O>), s: S, es: seq<E>, k: nat)
    requires k < |es|
    ensures Final(step, s, es[..k + 1]) == step(Final(step, s, es[..k]), es[k]).0
    ensures Log(step, s, es[..k + 1]) == Log(step, s, es[..k]) + step(Final(step, s, es[..k]), es[k]).1
  {
    assert es[..k + 1] == es[..k] + [es[k]];
    FinalAppend(step, s, es[..k], [es[k]]);
    LogAppend(step, s, es[..k], [es[k]]);
    assert [es[k]][1..] == [];
  }

  lemma OneInput<S, E, O>(step: (S, E) -> (S, seq<O>), s: S, e: E)
    ensures Final(step, s, [e]) == step(s, e).0
    ensures Log(step, s, [e]) == step(s, e).1
  {
    assert [e][1..] == [];
  }
}
