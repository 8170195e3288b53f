/** The two-slot "ping-pong" container of src/ts/flipper.ts. */
module Flipping {

  /** The abstract state of a flipper: which value is in front (read side)
      and which is in back (write side). */
  datatype Sides<T> = Sides(front: T, back: T)

  /** The arrangement after one flip: the two values trade roles,
      and neither is lost or duplicated. */
  function Flipped<T>(s: Sides<T>): (r: Sides<T>)
    ensures r.front == s.back && r.back == s.front
    ensures multiset{r.front, r.back} == multiset{s.front, s.back}
  {
    Sides(s.back, s.front)
  }

  /** The arrangement after `n` successive flips. */
  function FlippedTimes<T>(s: Sides<T>, n: nat): Sides<T>
    decreases n
  {
    if n == 0 then s else FlippedTimes(Flipped(s), n - 1)
  }

  /** The values returned, in order, by `n` successive flips starting at `s`. */
  function FlipResults<T>(s: Sides<T>, n: nat): (r: seq<T>)
    ensures |r| == n
    decreases n
  {
    if n == 0 then [] else [s.front] + FlipResults(Flipped(s), n - 1)
  }

  /** Two flips restore the original arrangement. */
  lemma FlippedTwice<T>(s: Sides<T>)
    ensures Flipped(Flipped(s)) == s
  {
  }

  /** Flipping has period two: after an even number of flips the flipper is
      as it started, after an odd number its sides are exchanged. */
  lemma {:induction false} FlippedTimesParity<T>(s: Sides<T>, n: nat)
    ensures FlippedTimes(s, n) == if n % 2 == 0 then s else Flipped(s)
    decreases n
  {
    if n > 0 {
      FlippedTimesParity(Flipped(s), n - 1);
      FlippedTwice(s);
    }
  }

  /** The k-th flip (counting from 0) returns the original front when k is
      even and the original back when k is odd. */
  lemma {:induction false} FlipResultsAlternate<T>(s: Sides<T>, n: nat)
    ensures |FlipResults(s, n)| == n
    ensures forall k :: 0 <= k < n ==>
      FlipResults(s, n)[k] == if k % 2 == 0 then s.front else s.back
    decreases n
  {
    if n > 0 {
      FlipResultsAlternate(Flipped(s), n - 1);
      forall k | 0 <= k < n
        ensures FlipResults(s, n)[k] == if k % 2 == 0 then s.front else s.back
      {
        if k > 0 {
          assert FlipResults(s, n)[k] == FlipResults(Flipped(s), n - 1)[k - 1];
        }
      }
    }
  }

  /** However many flips are made, the two held values are the ones the
      flipper was built with: nothing is lost and nothing is duplicated. */
  lemma {:induction false} FlippedTimesKeepsValues<T>(s: Sides<T>, n: nat)
    ensures var r := FlippedTimes(s, n);
      multiset{r.front, r.back} == multiset{s.front, s.back}
    decreases n
  {
    if n > 0 {
      FlippedTimesKeepsValues(Flipped(s), n - 1);
    }
  }

  /** A flipper over a private two-element array: `sides[0]` is the front
      and `sides[1]` the back. */
  class Flipper<T> {
    const sides: array<T>

    ghost predicate Valid() {
      sides.Length == 2
    }

    /** The roles the array currently encodes. */
    ghost function Model(): Sides<T>
      reads this, sides
      requires Valid()
    {
      Sides(sides[0], sides[1])
    }

    /** `front` is the first value `Flip` will return, `back` the second. */
    constructor (front: T, back: T)
      ensures Valid() && fresh(sides)
      ensures Model() == Sides(front, back)
    {
      sides := new T[2] [front, back];
    }

    /** Reverse the two slots in place and return what was in front. */
    method Flip() returns (current: T)
      requires Valid()
      modifies sides
      ensures Valid()
      ensures current == old(Model()).front
      ensures Model() == Flipped(old(Model()))
      ensures multiset(sides[..]) == old(multiset(sides[..]))
    {
      current := PeekFront();
      // reversing a two-element array exchanges its two slots
      sides[0], sides[1] := sides[1], sides[0];
    }

    /** The front value, without flipping. */
    method PeekFront() returns (front: T)
      requires Valid()
      ensures front == Model().front
    {
      front := sides[0];
    }

    /** The back value, without flipping. */
    method PeekBack() returns (back: T)
      requires Valid()
      ensures back == Model().back
    {
      back := sides[1];
    }
  }

  /** On a fresh flipper the first flip returns the value passed as `front`
      and the second the value passed as `back`, after which the flipper is
      back in its initial arrangement. */
  method FlipFreshTwice<T>(front: T, back: T) returns (first: T, second: T, after: T)
    ensures first == front && second == back && after == front
  {
    var f := new Flipper(front, back);
    first := f.Flip();
    second := f.Flip();
    after := f.PeekFront();
  }
}
