/** Reading one kind of thing out of a log. */
module Logs {
  /** What the entries of a log amount to, one after the other. */
  function Picked<S, T>(log: seq<S>, f: S -> seq<T>): seq<T> {
    if log == [] then [] else Picked(log[..|log| - 1], f) + f(log[|log| - 1])
  }

  lemma {:induction false} PickedAppend<S, T>(a: seq<S>, b: seq<S>, f: S -> seq<T>)
    ensures Picked(a + b, f) == Picked(a, f) + Picked(b, f)
    decreases |b|
  {
    if b == [] {
      assert a + b == a;
    } else {
      var k := |b| - 1;
      assert (a + b)[..|a + b| - 1] == a + b[..k];
      PickedAppend(a, b[..k], f);
      assert Picked(a, f) + Picked(b[..k], f) + f(b[k]) == Picked(a, f) + (Picked(b[..k], f) + f(b[k]));
    }
  }

  lemma {:induction false} NonePicked<S, T>(log: seq<S>, f: S -> seq<T>)
    requires forall i :: 0 <= i < |log| ==> f(log[i]) == []
    ensures Picked(log, f) == []
    decreases |log|
  {
    if log != [] {
      NonePicked(log[..|log| - 1], f);
    }
  }

  lemma {:induction false} PickedOne<S, T>(log: seq<S>, f: S -> seq<T>)
    requires |log| <= 1
    ensures Picked(log, f) == if log == [] then [] else f(log[0])
  {
    if log != [] {
      assert log[..0] == [];
      assert [] + f(log[0]) == f(log[0]);
    }
  }
}
