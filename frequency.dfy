/** Occurrence counting and the most frequent value (the mode) of a sequence.
    Every aggregate query of a dataset is built from these two notions. */
module Frequency {

  /** Number of occurrences of `v` in `xs`. */
  function Count<T(==)>(xs: seq<T>, v: T): (n: nat)
    ensures n <= |xs|
    ensures n > 0 <==> v in xs
  {
    if |xs| == 0 then 0
    else (if xs[0] == v then 1 else 0) + Count(xs[1..], v)
  }

  /** `m` is a most frequent value of `xs`: it occurs in `xs` and no value
      of `xs` occurs strictly more often. */
  predicate IsMode<T(==)>(xs: seq<T>, m: T) {
    m in xs && forall y :: y in xs ==> Count(xs, y) <= Count(xs, m)
  }

  /** The first candidate whose frequency in `xs` is maximal, as a scan over
      the candidates that replaces the current best only on a strictly
      greater count. */
  function MaxBy<T(==)>(xs: seq<T>, cands: seq<T>): (r: T)
    requires |cands| > 0
    ensures r in cands
    ensures forall c :: c in cands ==> Count(xs, c) <= Count(xs, r)
  {
    if |cands| == 1 then cands[0]
    else
      var best := MaxBy(xs, cands[1..]);
      if Count(xs, cands[0]) >= Count(xs, best) then cands[0] else best
  }

  /** The most frequent value of a non-empty sequence. The elements are
      scanned in order; among tied values the earliest wins. */
  function Mode<T(==)>(xs: seq<T>): (m: T)
    requires |xs| > 0
    ensures IsMode(xs, m)
  {
    MaxBy(xs, xs)
  }

  /** Occurrences of two different values never exceed the length. */
  lemma {:induction false} CountTwoValues<T>(xs: seq<T>, u: T, w: T)
    requires u != w
    ensures Count(xs, u) + Count(xs, w) <= |xs|
  {
    if |xs| > 0 {
      CountTwoValues(xs[1..], u, w);
    }
  }

  /** A value occurring strictly more often than every other value is the
      mode, whatever the tie-break. */
  lemma ModeOfDominant<T>(xs: seq<T>, v: T)
    requires v in xs
    requires forall w :: w in xs && w != v ==> Count(xs, w) < Count(xs, v)
    ensures Mode(xs) == v
  {
  }
}
