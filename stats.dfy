/** The statistical counters a station accumulates, their sum over the
    stations of a replication, and the quotients the reports derive from
    them. Real quotients stand for the source's float divisions. */
module Stats {

  /** A station's counters: successful messages (nt), their summed transmit
      time (st), retries, initial transmissions and successful (busy) time. */
  datatype Counters = Counters(nt: nat, st: nat, retries: nat, initialTransmits: nat, busyTime: nat)

  const Zero: Counters := Counters(0, 0, 0, 0, 0)

  function Plus(a: Counters, b: Counters): Counters
  {
    Counters(a.nt + b.nt, a.st + b.st, a.retries + b.retries,
             a.initialTransmits + b.initialTransmits, a.busyTime + b.busyTime)
  }

  /** What a station's counters keep between service steps: no more
      successes than initial transmissions, every success adds at least one
      unit of busy time, and busy time is part of the transmit time. */
  predicate Consistent(c: Counters)
  {
    c.nt <= c.initialTransmits && c.nt <= c.busyTime && c.busyTime <= c.st
  }

  /** The totals over a sequence of stations' counters, accumulated front to back. */
  function Sum(cs: seq<Counters>): Counters
    decreases |cs|
  {
    if cs == [] then Zero else Plus(Sum(cs[..|cs| - 1]), cs[|cs| - 1])
  }

  /** The totals of consistent stations are consistent; in particular the
      system-wide successes never exceed the system-wide initial transmissions. */
  lemma {:induction false} SumConsistent(cs: seq<Counters>)
    requires forall i :: 0 <= i < |cs| ==> Consistent(cs[i])
    ensures Consistent(Sum(cs))
    decreases |cs|
  {
    if cs != [] {
      SumConsistent(cs[..|cs| - 1]);
    }
  }

  /** An unguarded float division: the source divides and would raise on a zero denominator. */
  function Quotient(num: int, den: int): (q: real)
    requires den != 0
    ensures q * den as real == num as real
  {
    num as real / den as real
  }

  /** A guarded division: the quotient when the denominator is positive,
      otherwise the value the metric already had. */
  function RatioOr(previous: real, num: nat, den: nat): (q: real)
    ensures den > 0 ==> q * den as real == num as real
    ensures den == 0 ==> q == previous
  {
    if den > 0 then Quotient(num, den) else previous
  }

  /** A product with a positive factor is non-negative only if the other factor is. */
  lemma NonNegativeFactor(x: real, n: real)
    requires n > 0.0 && x * n >= 0.0
    ensures x >= 0.0
  {
  }

  /** A part of a positive span, divided by the span, lies between 0 and 1. */
  lemma FractionOfSpan(part: nat, span: int)
    requires 0 < span && part <= span
    ensures 0.0 <= Quotient(part, span) <= 1.0
  {
    var q := Quotient(part, span);
    NonNegativeFactor(q, span as real);
    assert (1.0 - q) * span as real == span as real - part as real;
    NonNegativeFactor(1.0 - q, span as real);
  }

  /** Consistent counters give a mean transmit time of at least one time
      unit once one message has succeeded, and non-negative mean retries. */
  lemma MeansOfConsistent(c: Counters)
    requires Consistent(c)
    ensures c.nt > 0 ==> RatioOr(0.0, c.st, c.nt) >= 1.0
    ensures c.initialTransmits > 0 ==> Quotient(c.retries, c.initialTransmits) >= 0.0
    ensures c.initialTransmits == 0 ==> c.nt == 0
  {
    if c.nt > 0 {
      var n := c.nt as real;
      var q := RatioOr(0.0, c.st, c.nt);
      assert (q - 1.0) * n == c.st as real - n;
      NonNegativeFactor(q - 1.0, n);
    }
  }
}
