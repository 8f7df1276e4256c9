/** The coordinate mapper of src/helpers/map.ts: affine remapping of a value
    from one interval onto another, over exact reals. */
module Helpers {

  /** Remaps `n` from [fromStart, fromEnd] onto [toStart, toEnd], extrapolating
      linearly outside the source interval. The source interval must not be
      degenerate: the division by `fromEnd - fromStart` has no meaning then. */
  function Map(n: real, fromStart: real, fromEnd: real, toStart: real, toEnd: real): (r: real)
    requires fromStart != fromEnd
    ensures n == fromStart ==> r == toStart
    ensures n == fromEnd ==> r == toEnd
  {
    toStart + ((n - fromStart) / (fromEnd - fromStart)) * (toEnd - toStart)
  }

  /** The difference of two mapped values is the difference of the inputs,
      scaled by the ratio of the interval lengths. */
  lemma MapAffine(n1: real, n2: real, fromStart: real, fromEnd: real, toStart: real, toEnd: real)
    requires fromStart != fromEnd
    ensures Map(n1, fromStart, fromEnd, toStart, toEnd) - Map(n2, fromStart, fromEnd, toStart, toEnd)
            == (n1 - n2) * (toEnd - toStart) / (fromEnd - fromStart)
  {
  }

  /** Mapping with the intervals swapped undoes a mapping, provided the
      target interval is not degenerate either. */
  lemma MapRoundTrip(n: real, fromStart: real, fromEnd: real, toStart: real, toEnd: real)
    requires fromStart != fromEnd && toStart != toEnd
    ensures Map(Map(n, fromStart, fromEnd, toStart, toEnd), toStart, toEnd, fromStart, fromEnd) == n
  {
    var d, e := fromEnd - fromStart, toEnd - toStart;
    var q := (n - fromStart) / d;
    var m := Map(n, fromStart, fromEnd, toStart, toEnd);
    assert m - toStart == q * e;
    assert (m - toStart) / e == q;
    assert q * d == n - fromStart;
  }

  /** With both intervals increasing, the mapping is strictly increasing. */
  lemma MapStrictlyIncreasing(n1: real, n2: real, fromStart: real, fromEnd: real, toStart: real, toEnd: real)
    requires fromStart < fromEnd && toStart < toEnd
    requires n1 < n2
    ensures Map(n1, fromStart, fromEnd, toStart, toEnd) < Map(n2, fromStart, fromEnd, toStart, toEnd)
  {
    MapAffine(n2, n1, fromStart, fromEnd, toStart, toEnd);
    PositiveQuotient(n2 - n1, toEnd - toStart, fromEnd - fromStart);
  }

  /** Products and quotients of positive reals are positive. */
  lemma PositiveQuotient(a: real, b: real, d: real)
    requires a > 0.0 && b > 0.0 && d > 0.0
    ensures a * b / d > 0.0
  {
    assert a * b > 0.0;
  }

  /** The centre of a source interval symmetric about zero maps to the
      centre of the target interval. */
  lemma MapMidpoint(s: real, toStart: real, toEnd: real)
    requires s != 0.0
    ensures Map(0.0, -s, s, toStart, toEnd) == (toStart + toEnd) / 2.0
  {
  }
}
