/** Small generic helpers shared by the session model. */
module Basics {

  /** The conventional optional value; stands for JavaScript's `null`/`undefined` versus a value. */
  datatype Option<+T> = None | Some(value: T)

  /** The zero- or one-element sequence holding the value of `o`. */
  function OptionToSeq<T>(o: Option<T>): (r: seq<T>)
    ensures |r| <= 1
    ensures o.None? ==> r == []
    ensures o.Some? ==> r == [o.value]
  {
    match o
    case None => []
    case Some(v) => [v]
  }

  /** The values `pick` selects from `xs`, in their original order. */
  function Collect<T, U>(xs: seq<T>, pick: T -> Option<U>): (r: seq<U>)
    ensures |r| <= |xs|
    ensures (forall i :: 0 <= i < |xs| ==> pick(xs[i]).None?) ==> r == []
  {
    if xs == [] then []
    else OptionToSeq(pick(xs[0])) + Collect(xs[1..], pick)
  }

  lemma {:induction false} CollectAppend<T, U>(a: seq<T>, b: seq<T>, pick: T -> Option<U>)
    ensures Collect(a + b, pick) == Collect(a, pick) + Collect(b, pick)
  {
    if a == [] {
      assert a + b == b;
    } else {
      assert (a + b)[1..] == a[1..] + b;
      CollectAppend(a[1..], b, pick);
    }
  }

  /** Concatenation is associative; stated on its own so that proofs can use it on large terms. */
  lemma ConcatAssociates<T>(x: seq<T>, y: seq<T>, z: seq<T>)
    ensures x + (y + z) == (x + y) + z
  {
  }
}
