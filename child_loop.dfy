/**
 * The shape every translation of the feed client shares: a `for` loop over the
 * children of an element that updates an accumulator and stops at the first
 * error it raises.
 */
module ChildLoop {
  import opened Wrappers
  import opened XmlTree

  /** The accumulator after running `step` over `cs` in document order from `init`;
      the first step that fails aborts the loop with its error. */
  function Fold<A, E>(step: (A, Element) -> Result<A, E>, init: A, cs: seq<Element>): Result<A, E>
    decreases |cs|
  {
    if cs == [] then Success(init)
    else
      var acc :- Fold(step, init, cs[..|cs| - 1]);
      step(acc, cs[|cs| - 1])
  }

  /** One more turn of the loop: the step on `cs[i]` decides the next
      accumulator, and when it fails, the outcome of the whole loop. */
  lemma FoldNext<A, E>(step: (A, Element) -> Result<A, E>, init: A, cs: seq<Element>, i: nat, acc: A)
    requires i < |cs| && Fold(step, init, cs[..i]) == Success(acc)
    ensures Fold(step, init, cs[..i + 1]) == step(acc, cs[i])
    ensures step(acc, cs[i]).Failure? ==> Fold(step, init, cs) == step(acc, cs[i])
  {
    assert cs[..i + 1][..i] == cs[..i];
    if step(acc, cs[i]).Failure? {
      FoldAbort(step, init, cs, i + 1);
    }
  }

  /** A loop that finished finished its last turn from the accumulator the
      turns before it left. */
  lemma FoldLast<A, E>(step: (A, Element) -> Result<A, E>, init: A, cs: seq<Element>)
    requires cs != [] && Fold(step, init, cs).Success?
    ensures Fold(step, init, cs[..|cs| - 1]).Success?
    ensures Fold(step, init, cs) == step(Fold(step, init, cs[..|cs| - 1]).value, cs[|cs| - 1])
  {
  }

  /** A loop whose every turn appends `f` of the child to a list: when it
      finishes, the list holds `f` of each child, in document order. */
  lemma {:induction false} FoldCollect<V, E>(step: (seq<V>, Element) -> Result<seq<V>, E>, f: Element -> Result<V, E>, cs: seq<Element>)
    requires forall acc, c :: step(acc, c).Success? ==> f(c).Success? && step(acc, c).value == acc + [f(c).value]
    requires Fold(step, [], cs).Success?
    ensures |Fold(step, [], cs).value| == |cs|
    ensures forall j :: 0 <= j < |cs| ==> f(cs[j]).Success? && Fold(step, [], cs).value[j] == f(cs[j]).value
    decreases |cs|
  {
    if cs != [] {
      var p, c := cs[..|cs| - 1], cs[|cs| - 1];
      FoldLast(step, [], cs);
      FoldCollect(step, f, p);
      var before := Fold(step, [], p).value;
      CollectStep(step, f, before, c);
      forall j | 0 <= j < |cs|
        ensures f(cs[j]).Success? && Fold(step, [], cs).value[j] == f(cs[j]).value
      {
        if j < |p| {
          assert cs[j] == p[j];
        }
      }
    }
  }

  /** One turn of such a loop. */
  lemma CollectStep<V, E>(step: (seq<V>, Element) -> Result<seq<V>, E>, f: Element -> Result<V, E>, acc: seq<V>, c: Element)
    requires forall acc, c :: step(acc, c).Success? ==> f(c).Success? && step(acc, c).value == acc + [f(c).value]
    requires step(acc, c).Success?
    ensures f(c).Success? && step(acc, c).value == acc + [f(c).value]
  {
  }

  /** The whole of `cs` is the prefix of length `|cs|`. */
  lemma FoldAll<A, E>(step: (A, Element) -> Result<A, E>, init: A, cs: seq<Element>)
    ensures Fold(step, init, cs[..|cs|]) == Fold(step, init, cs)
  {
    assert cs[..|cs|] == cs;
  }

  /** Once a step has failed, the loop ends with that failure. */
  lemma {:induction false} FoldAbort<A, E>(step: (A, Element) -> Result<A, E>, init: A, cs: seq<Element>, i: nat)
    requires i <= |cs| && Fold(step, init, cs[..i]).Failure?
    ensures Fold(step, init, cs) == Fold(step, init, cs[..i])
    decreases |cs|
  {
    if i == |cs| {
      assert cs[..i] == cs;
    } else {
      var p := cs[..|cs| - 1];
      assert p[..i] == cs[..i];
      FoldAbort(step, init, p, i);
    }
  }

  /** When whether a step fails depends on the element alone, the loop fails
      exactly when some element is one that fails. */
  lemma {:induction false} FoldFailsIff<A, E>(step: (A, Element) -> Result<A, E>, init: A, cs: seq<Element>, bad: Element -> bool)
    requires forall acc, c :: step(acc, c).Failure? <==> bad(c)
    ensures Fold(step, init, cs).Failure? <==> exists i :: 0 <= i < |cs| && bad(cs[i])
    decreases |cs|
  {
    if cs != [] {
      var p := cs[..|cs| - 1];
      FoldFailsIff(step, init, p, bad);
      if exists i :: 0 <= i < |p| && bad(p[i]) {
        var i :| 0 <= i < |p| && bad(p[i]);
        assert bad(cs[i]);
      }
      if exists i :: 0 <= i < |cs| && bad(cs[i]) {
        var i :| 0 <= i < |cs| && bad(cs[i]);
        if i < |p| { assert bad(p[i]); }
      }
    }
  }
}
