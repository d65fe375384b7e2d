/** The sandbox routing provider (providers/sandbox.py).  Money is an integer number of
    10^-9 units and a rate an integer number of 10^-4 units, so every rate in the table is
    exact and both directions of a quote are exact rationals rounded once. */
module Sandbox {
  import opened Prelude

  type Currency = string

  const CENT := 10_000_000       // 0.01 in units of 10^-9
  const RATE_SCALE := 10_000     // 1 in units of 10^-4

  const TTL_MINUTES := 30

  datatype RouteQuote = RouteQuote(sourceAmount: int, destinationAmount: int, rate: int, fee: int)

  function Rate(source: Currency, destination: Currency): (rate: Option<int>)
    ensures rate.Some? ==> rate.value > 0
    ensures source == destination ==> rate == Some(RATE_SCALE)
  {
    if source == destination then Some(RATE_SCALE)
    else match (source, destination)
      case ("USD", "PHP") => Some(561000)
      case ("USD", "HKD") => Some(78000)
      case ("USD", "EUR") => Some(9200)
      case ("USD", "SGD") => Some(13500)
      case ("HKD", "PHP") => Some(72000)
      case ("HKD", "USD") => Some(1280)
      case ("SGD", "USD") => Some(7400)
      case ("EUR", "USD") => Some(10900)
      case ("PHP", "USD") => Some(178)
      case _ => None
  }

  function Abs(x: int): nat {
    if x < 0 then -x else x
  }

  /** The integer nearest to n/d; a tie goes away from zero (decimal's ROUND_HALF_UP). */
  function RoundDiv(n: int, d: int): (q: int)
    requires d > 0
    ensures 2 * Abs(n - q * d) <= d
    ensures 2 * Abs(n - q * d) == d ==> Abs(q * d) > Abs(n)
  {
    var q := (2 * Abs(n) + d) / (2 * d);
    RoundDivBounds(Abs(n), d, q);
    if n >= 0 then q else
      assert -(q * d) == (-q) * d;
      -q
  }

  lemma RoundDivBounds(n: nat, d: int, q: int)
    requires d > 0 && q == (2 * n + d) / (2 * d)
    ensures 2 * Abs(n - q * d) <= d
    ensures 2 * Abs(n - q * d) == d ==> q * d > n
    ensures q >= 0
  {
    assert 2 * n + d == 2 * d * q + (2 * n + d) % (2 * d);
    assert 2 * d * q == 2 * (q * d);
  }

  /** Multiples of d are at least d apart. */
  lemma ProductOrder(p: int, q: int, d: int)
    requires d > 0
    ensures p > q ==> p * d >= q * d + d
  {
    if p > q {
      var x: nat := p - q - 1;
      assert p * d == (q + 1 + x) * d == q * d + d + x * d;
    }
  }

  /** An integer strictly nearer than half a step is the rounded value. */
  lemma RoundDivNearest(n: int, d: int, k: int)
    requires d > 0 && 2 * Abs(n - k * d) < d
    ensures RoundDiv(n, d) == k
  {
    ProductOrder(RoundDiv(n, d), k, d);
    ProductOrder(k, RoundDiv(n, d), d);
  }

  function DestinationFor(source: int, rate: int): int
    requires rate > 0
  {
    CENT * RoundDiv(source * rate, RATE_SCALE * CENT)
  }

  function SourceFor(destination: int, rate: int): int
    requires rate > 0
  {
    CENT * RoundDiv(destination * RATE_SCALE, rate * CENT)
  }

  /** 0.25% of the source, at least one cent. */
  function Fee(source: int): int {
    var fee := CENT * RoundDiv(source * 25, 10_000 * CENT);
    if fee < CENT then CENT else fee
  }

  /** Exactly one of the two amounts is given; `None` is the LookupError for an unknown pair. */
  function Quote(source: Currency, destination: Currency,
                 sourceAmount: Option<int>, destinationAmount: int): Option<RouteQuote>
  {
    match Rate(source, destination)
    case None => None
    case Some(rate) =>
      var src := if sourceAmount.Some? then sourceAmount.value else SourceFor(destinationAmount, rate);
      var dst := if sourceAmount.Some? then DestinationFor(src, rate) else destinationAmount;
      Some(RouteQuote(src, dst, rate, Fee(src)))
  }

  datatype DispatchStatus = DispatchCompleted | DispatchProcessing | DispatchFailed

  datatype DispatchResult = DispatchResult(rail: string, status: DispatchStatus)

  /** The sandbox contract: every dispatch settles at once. */
  function Dispatch(isCrossBorder: bool): (result: DispatchResult)
    ensures result.status == DispatchCompleted
  {
    DispatchResult(if isCrossBorder then "bank_transfer" else "fps", DispatchCompleted)
  }

  /** At a rate of 1 or more, a whole-cent source survives pricing forward and back. */
  lemma SourceRoundTrip(source: int, rate: int)
    requires rate >= RATE_SCALE
    requires source % CENT == 0
    ensures SourceFor(DestinationFor(source, rate), rate) == source
  {
    var cents, q := source / CENT, RoundDiv(source * rate, RATE_SCALE * CENT);
    var n, d := DestinationFor(source, rate) * RATE_SCALE, rate * CENT;
    assert n == q * (RATE_SCALE * CENT);
    assert cents * d == source * rate;
    if rate == RATE_SCALE {
      assert source * rate == cents * (RATE_SCALE * CENT);
      RoundDivNearest(source * rate, RATE_SCALE * CENT, cents);
    }
    assert 2 * Abs(n - cents * d) < d;
    RoundDivNearest(n, d, cents);
  }

  /** At a rate of 1 or less, a whole-cent destination survives pricing back and repricing. */
  lemma DestinationRoundTrip(destination: int, rate: int)
    requires 0 < rate <= RATE_SCALE
    requires destination % CENT == 0
    ensures DestinationFor(SourceFor(destination, rate), rate) == destination
  {
    var cents, q := destination / CENT, RoundDiv(destination * RATE_SCALE, rate * CENT);
    var n, d := SourceFor(destination, rate) * rate, RATE_SCALE * CENT;
    assert n == q * (rate * CENT);
    assert cents * d == destination * RATE_SCALE;
    if rate == RATE_SCALE {
      RoundDivNearest(destination * RATE_SCALE, rate * CENT, cents);
    }
    assert 2 * Abs(n - cents * d) < d;
    RoundDivNearest(n, d, cents);
  }

  // ---- Exactly when the round trips hold ---------------------------------------------------

  /** `k` cents converted at a/b, in cents: DestinationFor and SourceFor are this. */
  function Converted(k: int, a: int, b: int): int
    requires b > 0
  {
    RoundDiv(k * CENT * a, b * CENT)
  }

  lemma RoundDivMonotone(m: int, n: int, d: int)
    requires d > 0 && m <= n
    ensures RoundDiv(m, d) <= RoundDiv(n, d)
  {
    if m < n {
      ProductOrder(RoundDiv(m, d), RoundDiv(n, d), d);
    }
  }

  lemma ConvertedZero(a: int, b: int)
    requires b > 0
    ensures Converted(0, a, b) == 0
  {
    RoundDivNearest(0, b * CENT, 0);
  }

  /** At a/b below 1, two neighbouring whole-cent amounts convert to the same amount. */
  lemma {:induction false} Collision(n: nat, a: int, b: int) returns (k: nat)
    requires 0 < a < b && 0 < n && Converted(n, a, b) < n
    ensures Converted(k, a, b) == Converted(k + 1, a, b)
  {
    ConvertedZero(a, b);
    if Converted(n - 1, a, b) < n - 1 {
      k := Collision(n - 1, a, b);
    } else {
      k := n - 1;
      ConvertedMonotone(k, a, b);
    }
  }

  lemma ConvertedMonotone(k: nat, a: int, b: int)
    requires 0 < a && 0 < b
    ensures Converted(k, a, b) <= Converted(k + 1, a, b)
  {
    assert k * CENT * a + CENT * a == (k + 1) * CENT * a;
    RoundDivMonotone(k * CENT * a, (k + 1) * CENT * a, b * CENT);
  }

  lemma CollisionExists(a: int, b: int) returns (k: nat)
    requires 0 < a < b
    ensures Converted(k, a, b) == Converted(k + 1, a, b)
  {
    assert b * CENT * a == a * (b * CENT);
    RoundDivNearest(b * CENT * a, b * CENT, a);
    k := Collision(b, a, b);
  }

  /** Every whole-cent source survives the trip exactly at a rate of 1 or more. */
  lemma SourceRoundTripIff(rate: int)
    requires rate > 0
    ensures (forall source: int :: source % CENT == 0 ==> SourceFor(DestinationFor(source, rate), rate) == source)
            <==> rate >= RATE_SCALE
  {
    if rate >= RATE_SCALE {
      forall source: int | source % CENT == 0 ensures SourceFor(DestinationFor(source, rate), rate) == source {
        SourceRoundTrip(source, rate);
      }
    } else {
      var k := CollisionExists(rate, RATE_SCALE);
      assert DestinationFor(k * CENT, rate) == DestinationFor((k + 1) * CENT, rate);
      assert k * CENT % CENT == 0 && (k + 1) * CENT % CENT == 0;
    }
  }

  /** Every whole-cent destination survives the trip exactly at a rate of 1 or less. */
  lemma DestinationRoundTripIff(rate: int)
    requires rate > 0
    ensures (forall destination: int :: destination % CENT == 0 ==>
              DestinationFor(SourceFor(destination, rate), rate) == destination)
            <==> rate <= RATE_SCALE
  {
    if rate <= RATE_SCALE {
      forall destination: int | destination % CENT == 0
        ensures DestinationFor(SourceFor(destination, rate), rate) == destination
      {
        DestinationRoundTrip(destination, rate);
      }
    } else {
      var k := CollisionExists(RATE_SCALE, rate);
      assert SourceFor(k * CENT, rate) == SourceFor((k + 1) * CENT, rate);
      assert k * CENT % CENT == 0 && (k + 1) * CENT % CENT == 0;
    }
  }

  /** So 19 US cents priced to euros come back as 18. */
  lemma SourceRoundTripFailsBelowOne()
    ensures var rate := Rate("USD", "EUR").value;
            SourceFor(DestinationFor(19 * CENT, rate), rate) == 18 * CENT
  {
    RoundDivNearest(19 * CENT * 9200, RATE_SCALE * CENT, 17);
    RoundDivNearest(17 * CENT * RATE_SCALE, 9200 * CENT, 18);
  }

  /** Repricing a destination-priced quote moves the destination by at most
      half a cent times (1 + rate), whatever the destination's precision. */
  lemma RepriceDrift(destination: int, rate: int)
    requires rate > 0
    ensures var repriced := DestinationFor(SourceFor(destination, rate), rate);
            2 * Abs(repriced - destination) * RATE_SCALE <= CENT * (RATE_SCALE + rate)
  {
    var source := SourceFor(destination, rate);
    var q := RoundDiv(destination * RATE_SCALE, rate * CENT);
    assert q * (rate * CENT) == source * rate;
    var r := RoundDiv(source * rate, RATE_SCALE * CENT);
    assert r * (RATE_SCALE * CENT) == DestinationFor(source, rate) * RATE_SCALE;
  }
}
