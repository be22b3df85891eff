/** Amounts in minor units and their conversion between currencies, in exact arithmetic. */
module WalletMoney {
  import opened Options
  import opened Rounding
  import opened WalletLedger

  /** Minor units in one unit of a currency: ten to the currency's exponent. */
  function Unit(c: Currency): (u: real)
    ensures u > 0.0
  {
    match c
    case XOF => 1.0
    case XAF => 1.0
    case EUR => 100.0
    case USD => 100.0
    case GBP => 100.0
  }

  function Major(m: Money): real { m.amount as real / Unit(m.currency) }

  /** From the usual unit; a value more precise than the currency allows, or a negative one, is refused. */
  function FromMajor(value: real, c: Currency): Option<Money> {
    var minor := value * Unit(c);
    if minor != minor.Floor as real || minor.Floor < 0 then None else Some(Money(minor.Floor, c))
  }

  /** Both directions: a value is accepted as `m` exactly when it is what `m` is worth. */
  lemma FromMajorIff(value: real, m: Money)
    ensures FromMajor(value, m.currency) == Some(m) <==> value == Major(m)
  {
    var u := Unit(m.currency);
    if value == Major(m) {
      assert value * u == m.amount as real;
      assert (m.amount as real).Floor == m.amount;
    }
  }

  /** A whole unit is one franc, and a hundred cents or pence; a hundredth of a franc is refused. */
  lemma WholeUnitsAre(c: Currency)
    ensures FromMajor(1.0, c) == Some(Money(if c == XOF || c == XAF then 1 else 100, c))
    ensures FromMajor(0.01, c) == if c == XOF || c == XAF then None else Some(Money(1, c))
  {
  }

  function Exact(m: Money, target: Currency, rate: real): real { Major(m) * rate * Unit(target) }

  /** The rate between minor units. */
  function Factor(source: Currency, target: Currency, rate: real): real { rate * Unit(target) / Unit(source) }

  lemma ExactIsScaled(m: Money, target: Currency, rate: real)
    ensures Exact(m, target, rate) == m.amount as real * Factor(m.currency, target, rate)
  {
  }

  lemma FactorPositive(source: Currency, target: Currency, rate: real)
    requires rate > 0.0
    ensures Factor(source, target, rate) > 0.0
  {
    assert rate * Unit(target) > 0.0;
  }

  lemma ScaledNotNegative(a: nat, k: real)
    requires k > 0.0
    ensures a as real * k >= 0.0
  {
  }

  /** The rounded amount in the target currency; a rate that is not positive is refused. */
  function Convert(m: Money, target: Currency, rate: real): Option<Money> {
    if rate <= 0.0 then None else
      ExactIsScaled(m, target, rate);
      FactorPositive(m.currency, target, rate);
      ScaledNotNegative(m.amount, Factor(m.currency, target, rate));
      Some(Money(HalfUp(Exact(m, target, rate)), target))
  }

  // --- Rounding -----------------------------------------------------------------------------------------

  /** What a conversion gains over the exact amount: never more than half a minor unit either way. */
  function Gain(m: Money, target: Currency, rate: real): real
    requires rate > 0.0
  {
    Convert(m, target, rate).value.amount as real - Exact(m, target, rate)
  }

  lemma ErrorAtMostHalf(m: Money, target: Currency, rate: real)
    requires rate > 0.0
    ensures -0.5 < Gain(m, target, rate) <= 0.5
  {
  }

  datatype Quote = Quote(money: Money, target: Currency, rate: real)

  function TotalGain(quotes: seq<Quote>): real
    requires forall i :: 0 <= i < |quotes| ==> quotes[i].rate > 0.0
  {
    if quotes == [] then 0.0 else
      var q := quotes[|quotes| - 1];
      TotalGain(quotes[..|quotes| - 1]) + Gain(q.money, q.target, q.rate)
  }

  /** After n conversions the rounding comes to at most n halves. */
  lemma {:induction false} ErrorAtMostHalfEach(quotes: seq<Quote>)
    requires forall i :: 0 <= i < |quotes| ==> quotes[i].rate > 0.0
    ensures -(|quotes| as real) / 2.0 <= TotalGain(quotes) <= |quotes| as real / 2.0
  {
    if quotes != [] {
      var n := |quotes| - 1;
      ErrorAtMostHalfEach(quotes[..n]);
      ErrorAtMostHalf(quotes[n].money, quotes[n].target, quotes[n].rate);
    }
  }

  // --- There and back --------------------------------------------------------------------------------------

  function There(a: nat, k: real): int { HalfUp(a as real * k) }

  /** An amount that a conversion and the conversion back at the reciprocal rate both accept and return. */
  predicate RoundTrips(m: Money, target: Currency, rate: real)
    requires rate > 0.0
  {
    var there := Convert(m, target, rate).value;
    there.amount > 0 && Convert(there, m.currency, 1.0 / rate) == Some(m)
  }

  lemma SameUnits(source: Currency, target: Currency, rate: real)
    requires rate > 0.0 && Unit(source) == Unit(target)
    ensures Factor(source, target, rate) == rate
  {
    Scale(rate, 1.0 / rate, Unit(source));
  }

  lemma MinorFromMajor(source: Currency, target: Currency, rate: real)
    requires rate > 0.0 && Unit(source) == 1.0 && Unit(target) == 100.0
    ensures Factor(source, target, rate) == rate * 100.0
    ensures Factor(target, source, rate) == rate / 100.0
  {
  }

  lemma ReciprocalFactor(source: Currency, target: Currency, rate: real)
    requires rate > 0.0
    ensures var k := Factor(source, target, rate);
            k > 0.0 && Factor(target, source, 1.0 / rate) == 1.0 / k
  {
    FactorPositive(source, target, rate);
    var k, r := Factor(source, target, rate), 1.0 / rate;
    assert rate * r == 1.0;
    if Unit(source) == Unit(target) {
      SameUnits(source, target, rate);
      SameUnits(target, source, r);
    } else if Unit(source) == 1.0 {
      MinorFromMajor(source, target, rate);
      MinorFromMajor(source, target, r);
      Quotient(k, r / 100.0, rate, r);
    } else {
      MinorFromMajor(target, source, rate);
      MinorFromMajor(target, source, r);
      Quotient(k, r * 100.0, rate, r);
    }
  }

  lemma Scale(rate: real, r: real, u: real)
    requires u > 0.0
    ensures rate * u / u == rate && r * u / u == r
  {
  }

  /** If k scales the rate by 100 or by 1/100 and x the reciprocal rate the other way, they are reciprocal. */
  lemma Quotient(k: real, x: real, rate: real, r: real)
    requires rate * r == 1.0 && k > 0.0
    requires (k == rate * 100.0 && x == r / 100.0) || (k == rate / 100.0 && x == r * 100.0)
    ensures x == 1.0 / k
  {
    assert x * k == r * rate;
    QuotientIs(1.0, x, k);
  }

  lemma QuotientIs(b: real, x: real, k: real)
    requires k > 0.0 && x * k == b
    ensures b / k == x
  {
  }

  lemma TimesReciprocal(b: real, k: real)
    requires k > 0.0
    ensures b * (1.0 / k) == b / k
  {
  }

  lemma RoundTripsScaled(m: Money, target: Currency, rate: real)
    requires rate > 0.0
    ensures var k := Factor(m.currency, target, rate);
            RoundTrips(m, target, rate)
            <==> There(m.amount, k) > 0 && HalfUp(There(m.amount, k) as real / k) == m.amount
  {
    var k := Factor(m.currency, target, rate);
    ReciprocalFactor(m.currency, target, rate);
    ExactIsScaled(m, target, rate);
    var there := Convert(m, target, rate).value;
    assert there.amount == There(m.amount, k);
    ExactIsScaled(there, m.currency, 1.0 / rate);
    TimesReciprocal(there.amount as real, k);
    assert Exact(there, m.currency, 1.0 / rate) == there.amount as real / k;
  }

  /** Scaling up loses nothing: the rounding is less than half a step of the scale. */
  lemma ScalingUpReturns(a: nat, k: real)
    requires k >= 1.0 && a > 0
    ensures There(a, k) > 0 && HalfUp(There(a, k) as real / k) == a
  {
    if k == 1.0 {
      AtParReturns(a);
    } else {
      ScalingFurtherUpReturns(a, k);
    }
  }

  lemma AtParReturns(a: nat)
    ensures There(a, 1.0) == a && HalfUp(a as real / 1.0) == a
  {
  }

  lemma ScalingFurtherUpReturns(a: nat, k: real)
    requires k > 1.0 && a > 0
    ensures There(a, k) > 0 && HalfUp(There(a, k) as real / k) == a
  {
    var x, b := a as real * k, There(a, k);
    MultiplyUp(1.0, k, a as real);
    assert x - 0.5 < b as real <= x + 0.5;
    Between(a as real, b as real, k);
    FloorIs(b as real / k + 0.5, a);
  }

  lemma Between(a: real, b: real, k: real)
    requires k > 1.0 && a * k - 0.5 < b <= a * k + 0.5
    ensures a - 0.5 < b / k < a + 0.5
  {
    var y := b / k;
    QuotientTimes(b, k);
    if y <= a - 0.5 {
      HalfStep(y, a, k);
    } else if y >= a + 0.5 {
      HalfStep(a, y, k);
    }
  }

  lemma HalfStep(x: real, y: real, k: real)
    requires k > 1.0 && x <= y - 0.5
    ensures x * k < y * k - 0.5
  {
    MultiplyUp(x, y - 0.5, k);
    Distribute(y, 0.5, k);
    MultiplyUpStrict(1.0, k, 0.5);
    assert x * k <= y * k - 0.5 * k;
  }

  lemma QuotientTimes(b: real, k: real)
    requires k > 0.0
    ensures b / k * k == b
  {
  }

  lemma Distribute(a: real, d: real, k: real)
    ensures (a + d) * k == a * k + d * k && (a - d) * k == a * k - d * k
  {
  }

  lemma MultiplyUp(x: real, y: real, k: real)
    requires x <= y && k >= 0.0
    ensures x * k <= y * k
  {
  }

  /** If no amount up to n is lost, rounding keeps them apart, so n is not scaled below itself. */
  lemma {:induction false} KeptApart(n: nat, k: real)
    requires k > 0.0
    requires forall a: nat :: 0 < a <= n ==> There(a, k) > 0 && HalfUp(There(a, k) as real / k) == a
    ensures There(n, k) >= n
  {
    if n > 1 {
      KeptApart(n - 1, k);
      assert There(n, k) != There(n - 1, k) by {
        assert HalfUp(There(n, k) as real / k) == n;
        assert HalfUp(There(n - 1, k) as real / k) == n - 1;
      }
      MultiplyUp((n - 1) as real, n as real, k);
    }
  }

  /** Scaling down loses some amount, and one can be found below a known bound. */
  lemma ScalingDownLoses(k: real) returns (a: nat)
    requires 0.0 < k < 1.0
    ensures a > 0 && !(There(a, k) > 0 && HalfUp(There(a, k) as real / k) == a)
  {
    var bound := 0.5 / (1.0 - k);
    var n := bound.Floor + 1;
    assert n as real > bound;
    QuotientTimes(0.5, 1.0 - k);
    MultiplyUpStrict(bound, n as real, 1.0 - k);
    Distribute(1.0, k, n as real);
    assert n as real * (1.0 - k) > 0.5;
    assert n as real * k + 0.5 < n as real;
    if forall a: nat :: 0 < a <= n ==> There(a, k) > 0 && HalfUp(There(a, k) as real / k) == a {
      KeptApart(n, k);
      assert false;
    }
    a :| 0 < a <= n && !(There(a, k) > 0 && HalfUp(There(a, k) as real / k) == a);
  }

  lemma MultiplyUpStrict(x: real, y: real, k: real)
    requires x < y && k > 0.0
    ensures x * k < y * k
  {
  }

  /** Converting back at the reciprocal rate returns every amount if and only if a minor unit of the source
      is worth at least one of the target. */
  lemma RoundTripIff(source: Currency, target: Currency, rate: real)
    requires rate > 0.0
    ensures (forall a: nat :: a > 0 ==> RoundTrips(Money(a, source), target, rate))
            <==> Factor(source, target, rate) >= 1.0
  {
    var k := Factor(source, target, rate);
    FactorPositive(source, target, rate);
    if k >= 1.0 {
      forall a: nat | a > 0 ensures RoundTrips(Money(a, source), target, rate) {
        ScalingUpReturns(a, k);
        RoundTripsScaled(Money(a, source), target, rate);
      }
    } else {
      var a := ScalingDownLoses(k);
      RoundTripsScaled(Money(a, source), target, rate);
    }
  }
}
