/** A threshold cascade: the shape every classifier of the system has. The
    checks are tried from the highest threshold down and the first one the
    reading passes gives the status; a reading that passes none gets the
    catch-all status. Each check compares with `>` or with `>=`. */
module Bands {

  /** One comparison of a cascade: `x > threshold` or `x >= threshold`. */
  datatype Bound = Above(threshold: real) | AtLeast(threshold: real)

  predicate Passes(b: Bound, x: real)
  {
    match b
    case Above(t) => x > t
    case AtLeast(t) => x >= t
  }

  datatype Cascade =
    | Otherwise(status: string)
    | Check(bound: Bound, status: string, rest: Cascade)

  /** The number of checks, one less than the number of bands. */
  function Depth(c: Cascade): nat
  {
    match c
    case Otherwise(_) => 0
    case Check(_, _, rest) => 1 + Depth(rest)
  }

  /** The statuses of the bands, from the top band down to the catch-all. */
  function Statuses(c: Cascade): (ss: seq<string>)
    ensures |ss| == Depth(c) + 1
  {
    match c
    case Otherwise(s) => [s]
    case Check(_, s, rest) => [s] + Statuses(rest)
  }

  /** The comparisons, from the top band down. */
  function Bounds(c: Cascade): (bs: seq<Bound>)
    ensures |bs| == Depth(c)
  {
    match c
    case Otherwise(_) => []
    case Check(b, _, rest) => [b] + Bounds(rest)
  }

  /** First-match scan: the status of the first check the reading passes. It
      is always one of the cascade's statuses. */
  function Classify(c: Cascade, x: real): (status: string)
    ensures status in Statuses(c)
  {
    match c
    case Otherwise(s) => s
    case Check(b, s, rest) => if Passes(b, x) then s else Classify(rest, x)
  }

  /** The band a reading falls in, counted from the catch-all (0) up to the
      top band (`Depth(c)`); the status is the one listed for that band. */
  function Band(c: Cascade, x: real): (k: nat)
    ensures k <= Depth(c)
    ensures Classify(c, x) == Statuses(c)[Depth(c) - k]
  {
    match c
    case Otherwise(_) => 0
    case Check(b, _, rest) => if Passes(b, x) then Depth(c) else Band(rest, x)
  }

  /** A larger reading never falls in a lower band. */
  lemma {:induction false} BandMonotone(c: Cascade, a: real, b: real)
    requires a <= b
    ensures Band(c, a) <= Band(c, b)
  {
    match c
    case Otherwise(_) =>
    case Check(bd, _, rest) =>
      if !Passes(bd, b) {
        BandMonotone(rest, a, b);
      }
  }

  predicate Distinct(ss: seq<string>)
  {
    forall i, j :: 0 <= i < j < |ss| ==> ss[i] != ss[j]
  }

  /** When the statuses are all different, the status names the band. */
  lemma StatusNamesBand(c: Cascade, a: real, b: real)
    requires Distinct(Statuses(c))
    ensures Classify(c, a) == Classify(c, b) <==> Band(c, a) == Band(c, b)
  {
  }

  /** Two cascades with the same comparisons put every reading in the same
      band, whatever their statuses. */
  lemma {:induction false} SameBoundsSameBand(c1: Cascade, c2: Cascade, x: real)
    requires Bounds(c1) == Bounds(c2)
    ensures Band(c1, x) == Band(c2, x)
  {
    match c1
    case Otherwise(_) =>
    case Check(b1, _, rest1) =>
      var rest2 := c2.rest;
      assert Bounds(rest1) == Bounds(c1)[1..] == Bounds(c2)[1..] == Bounds(rest2);
      SameBoundsSameBand(rest1, rest2, x);
  }
}
