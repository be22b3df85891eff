/** Loan terms and repayment schedules. Interest is simple; every installment is the monthly amount except the
    last, which is whatever makes the schedule add up to the total. */
module LoanSchedule {
  import opened Options
  import opened Rounding
  import opened Sums

  const MAX_DURATION_MONTHS := 60

  datatype Date = Date(year: int, month: int, day: int)

  datatype Terms = Terms(principal: int, months: int, total: int, monthly: int)

  datatype Installment = Installment(number: int, due: Date, amount: int)

  // --- Terms ---------------------------------------------------------------------------------------

  /** The terms of a loan; a capital, duration or rate out of range is refused. */
  function CalculateTerms(principal: int, months: int, rate: real): Option<Terms> {
    if principal <= 0 || months <= 0 || months > MAX_DURATION_MONTHS || rate < 0.0 then None else
      var total := HalfUp(principal as real * (1.0 + rate / 100.0));
      Some(Terms(principal, months, total, HalfUp(total as real / months as real)))
  }

  /** The monthly amount used when a loan is paid out: the quotient without its fraction. */
  function TruncatedMonthly(total: int, months: int): int
    requires months > 0
  {
    if total >= 0 then total / months else -(-total / months)
  }

  /** Rounding the quotient half up, in integers. */
  lemma HalfUpQuotient(total: int, months: int)
    requires months > 0
    ensures HalfUp(total as real / months as real) == (2 * total + months) / (2 * months)
  {
    var q, r := (2 * total + months) / (2 * months), (2 * total + months) % (2 * months);
    var x, n := total as real / months as real, months as real;
    assert x * n == total as real;
    assert 2 * total + months == 2 * (q * months) + r;
    AsReals(q, months);
    Distribute(x, q as real, n);
    Fraction(x + 0.5 - q as real, 2.0 * n, r as real);
    FloorIs(x + 0.5, q);
  }

  lemma AsReals(q: int, n: int)
    ensures (q * n) as real == q as real * n as real
  {
  }

  lemma Distribute(x: real, q: real, n: real)
    ensures (x + 0.5 - q) * (2.0 * n) == 2.0 * (x * n) + n - 2.0 * (q * n)
  {
  }

  lemma Fraction(d: real, n: real, r: real)
    requires d * n == r && 0.0 <= r < n
    ensures 0.0 <= d < 1.0
  {
  }

  /** Terms are given exactly for a positive capital over 1 to 60 months at no negative rate. The total is the capital
      with its interest, off by at most half a unit and the same for every duration; the monthly amount is the total
      over the months, off by at most half a unit. */
  lemma TermsAre(principal: int, months: int, rate: real, other: int)
    ensures var t := CalculateTerms(principal, months, rate);
            && (t.Some? <==> principal > 0 && 1 <= months <= 60 && rate >= 0.0)
            && (t.Some? ==>
                  && t.value.principal == principal && t.value.months == months
                  && -0.5 < t.value.total as real - principal as real * (100.0 + rate) / 100.0 <= 0.5
                  && -months < 2 * (t.value.monthly * months - t.value.total) <= months)
            && (t.Some? && CalculateTerms(principal, other, rate).Some? ==>
                  CalculateTerms(principal, other, rate).value.total == t.value.total)
  {
    if CalculateTerms(principal, months, rate).Some? {
      var t := CalculateTerms(principal, months, rate).value;
      assert principal as real * (1.0 + rate / 100.0) == principal as real * (100.0 + rate) / 100.0;
      HalfUpQuotient(t.total, months);
      var q, r := (2 * t.total + months) / (2 * months), (2 * t.total + months) % (2 * months);
      assert 2 * t.total + months == 2 * (q * months) + r;
    }
  }

  /** Interest never makes a loan smaller, and the example of the contract comes out as documented. */
  lemma TermsAreAtLeastPrincipal(principal: int, months: int, rate: real)
    requires CalculateTerms(principal, months, rate).Some?
    ensures CalculateTerms(principal, months, rate).value.total >= principal > 0
    ensures CalculateTerms(200000, 6, 6.5) == Some(Terms(200000, 6, 213000, 35500))
  {
    var p := principal as real;
    assert p * (rate / 100.0) >= 0.0;
    assert p * (1.0 + rate / 100.0) == p + p * (rate / 100.0);
    assert p * (1.0 + rate / 100.0) + 0.5 >= p;
    assert 200000.0 * (1.0 + 6.5 / 100.0) == 213000.0;
  }

  // --- Dates ------------------------------------------------------------------------------------------

  predicate Leap(year: int) { year % 4 == 0 && (year % 100 != 0 || year % 400 == 0) }

  function DaysIn(year: int, month: int): (days: int)
    requires 1 <= month <= 12
    ensures 28 <= days <= 31
  {
    [31, if Leap(year) then 29 else 28, 31, 30, 31, 30, 31, 31, 30, 31, 30, 31][month - 1]
  }

  /** The Gregorian calendar: 30 days for April, June, September and November, and 29 for February every fourth year,
      but in a hundredth year every four hundred years only. */
  lemma DaysAre(year: int, month: int)
    requires 1 <= month <= 12
    ensures DaysIn(year, month)
            == if month == 2 then (if year % 400 == 0 || (year % 4 == 0 && year % 100 != 0) then 29 else 28)
               else if month in {4, 6, 9, 11} then 30 else 31
  {
  }

  predicate Valid(d: Date) { 1 <= d.month <= 12 && 1 <= d.day <= DaysIn(d.year, d.month) }

  function AddMonths(d: Date, months: int): Date {
    var total := d.month - 1 + months;
    var year, month := d.year + total / 12, total % 12 + 1;
    Date(year, month, if d.day <= DaysIn(year, month) then d.day else DaysIn(year, month))
  }

  /** Months counted from year zero. */
  function MonthIndex(d: Date): int { 12 * d.year + d.month - 1 }

  predicate Before(a: Date, b: Date) {
    a.year < b.year || (a.year == b.year && (a.month < b.month || (a.month == b.month && a.day < b.day)))
  }

  /** The date falls exactly so many months later, on the same day or on the last day of a shorter month. */
  lemma AddMonthsIs(d: Date, months: int)
    requires Valid(d)
    ensures var r := AddMonths(d, months);
            && Valid(r) && MonthIndex(r) == MonthIndex(d) + months
            && r.day <= d.day && (r.day < d.day ==> r.day == DaysIn(r.year, r.month))
  {
  }

  lemma LaterMonthIsLater(a: Date, b: Date)
    requires Valid(a) && Valid(b)
    ensures MonthIndex(a) < MonthIndex(b) ==> Before(a, b)
    ensures Before(a, b) ==> MonthIndex(a) <= MonthIndex(b)
  {
  }

  // --- The schedule --------------------------------------------------------------------------------------

  function AmountOf(terms: Terms, number: int): int {
    if number == terms.months then terms.total - (terms.months - 1) * terms.monthly else terms.monthly
  }

  function InstallmentOf(terms: Terms, start: Date, number: int): Installment {
    Installment(number, AddMonths(start, number), AmountOf(terms, number))
  }

  function Schedule(terms: Terms, start: Date): seq<Installment>
    requires terms.months >= 0
  {
    seq(terms.months, i requires 0 <= i < terms.months => InstallmentOf(terms, start, i + 1))
  }

  /** The loop keeps the running total; the last installment is the total less that. */
  method BuildSchedule(terms: Terms, start: Date) returns (schedule: seq<Installment>)
    requires terms.months >= 0
    ensures schedule == Schedule(terms, start)
  {
    schedule := [];
    var sofar := 0;
    for number := 1 to terms.months + 1
      invariant |schedule| == number - 1
      invariant forall i :: 0 <= i < |schedule| ==> schedule[i] == InstallmentOf(terms, start, i + 1)
      invariant number <= terms.months ==> sofar == (number - 1) * terms.monthly
    {
      var amount := terms.monthly;
      if number == terms.months {
        amount := terms.total - sofar;
      }
      sofar := sofar + amount;
      schedule := schedule + [Installment(number, AddMonths(start, number), amount)];
    }
  }

  function Due(i: Installment): int { i.amount }

  lemma {:induction false} EqualInstallments(schedule: seq<Installment>, monthly: int)
    requires forall i :: 0 <= i < |schedule| ==> schedule[i].amount == monthly
    ensures SumBy(schedule, Due) == |schedule| * monthly
  {
    if schedule != [] {
      EqualInstallments(schedule[..|schedule| - 1], monthly);
    }
  }

  /** For every total, monthly amount and duration, the schedule adds up to exactly the total. */
  lemma ScheduleSumsToTotal(terms: Terms, start: Date)
    requires terms.months > 0
    ensures SumBy(Schedule(terms, start), Due) == terms.total
  {
    var s, n := Schedule(terms, start), terms.months;
    EqualInstallments(s[..n - 1], terms.monthly);
  }

  /** Due dates are valid, exactly k months after the start, and strictly increasing. */
  lemma DueDatesInOrder(terms: Terms, start: Date)
    requires terms.months >= 0 && Valid(start)
    ensures var s := Schedule(terms, start);
            && (forall i :: 0 <= i < |s| ==>
                  && s[i].number == i + 1 && Valid(s[i].due)
                  && MonthIndex(s[i].due) == MonthIndex(start) + i + 1
                  && s[i].due.day == if start.day <= DaysIn(s[i].due.year, s[i].due.month) then start.day
                                     else DaysIn(s[i].due.year, s[i].due.month))
            && (forall i, j :: 0 <= i < j < |s| ==> Before(s[i].due, s[j].due))
  {
    var s := Schedule(terms, start);
    forall i | 0 <= i < |s|
      ensures Valid(s[i].due) && MonthIndex(s[i].due) == MonthIndex(start) + i + 1
    {
      AddMonthsIs(start, i + 1);
    }
    forall i, j | 0 <= i < j < |s| ensures Before(s[i].due, s[j].due) { LaterMonthIsLater(s[i].due, s[j].due); }
  }

  /** Computing from the start never drifts: a second step from a shortened date can lose days for good. */
  lemma ChainedDatesDrift()
    ensures AddMonths(AddMonths(Date(2023, 1, 31), 1), 1) == Date(2023, 3, 28)
    ensures AddMonths(Date(2023, 1, 31), 2) == Date(2023, 3, 31)
  {
    assert Date(2023, 2, 28) == AddMonths(Date(2023, 1, 31), 1);
  }

  // --- Truncated and rounded monthly amounts ---------------------------------------------------------------

  lemma Quotient(total: int, months: int)
    requires months > 0 && total >= 0
    ensures total == months * (total / months) + total % months && 0 <= total % months < months
  {
  }

  /** At disbursement the last installment is the monthly amount plus the remainder, so every installment is
      positive if and only if the total is at least one unit a month. */
  lemma TruncatedSchedule(principal: int, total: int, months: int, start: Date)
    requires months > 0 && total >= 0
    ensures var m := TruncatedMonthly(total, months);
            var s := Schedule(Terms(principal, months, total, m), start);
            && s[months - 1].amount == m + total % months
            && ((forall i :: 0 <= i < |s| ==> s[i].amount > 0) <==> total >= months)
  {
    var m := TruncatedMonthly(total, months);
    var s := Schedule(Terms(principal, months, total, m), start);
    Quotient(total, months);
    LastAmount(total, months, m);
    if total < months {
      assert m == 0 by { QuotientIsZero(total, months); }
      if months > 1 { assert s[0].amount == 0; } else { assert s[0].amount == 0; }
    } else {
      QuotientIsPositive(total, months);
    }
  }

  lemma LastAmount(total: int, months: int, m: int)
    ensures total - (months - 1) * m == m + (total - months * m)
  {
  }

  lemma QuotientIsZero(total: int, months: int)
    requires 0 <= total < months
    ensures total / months == 0
  {
  }

  lemma QuotientIsPositive(total: int, months: int)
    requires total >= months > 0
    ensures total / months >= 1
  {
  }

  /** The simulated monthly amount: it exceeds the truncated one by one exactly when the remainder is at least
      half a month's unit, and the last installment differs from the others by at most n / 2. */
  lemma RoundedSchedule(principal: int, total: int, months: int, start: Date)
    requires months > 0 && total >= 0
    ensures var m := HalfUp(total as real / months as real);
            var last := Schedule(Terms(principal, months, total, m), start)[months - 1].amount;
            && m == TruncatedMonthly(total, months) + (if 2 * (total % months) >= months then 1 else 0)
            && -months <= 2 * (last - m) < months
  {
    var m, q, r := HalfUp(total as real / months as real), total / months, total % months;
    HalfUpQuotient(total, months);
    Quotient(total, months);
    RoundedQuotient(total, months, q, r);
    LastAmount(total, months, m);
    if 2 * r >= months { Times(months, q, 1); }
  }

  lemma Times(n: int, q: int, up: int)
    ensures n * (q + up) == n * q + n * up
  {
  }

  lemma RoundedQuotient(total: int, months: int, q: int, r: int)
    requires months > 0 && total == months * q + r && 0 <= r < months
    ensures (2 * total + months) / (2 * months) == q + if 2 * r >= months then 1 else 0
  {
    if 2 * r >= months {
      Times(2 * months, q, 1);
      QuotientFrom(2 * total + months, 2 * months, q + 1, 2 * r - months);
    } else {
      QuotientFrom(2 * total + months, 2 * months, q, 2 * r + months);
    }
  }

  lemma QuotientFrom(a: int, b: int, q: int, r: int)
    requires a == b * q + r && 0 <= r < b
    ensures a / b == q
  {
    assert a / b * b + a % b == a && 0 <= a % b < b;
    if a / b > q { Gap(a / b, q, b); }
    if a / b < q { Gap(q, a / b, b); }
  }

  lemma Gap(x: int, y: int, b: int)
    requires x > y && b > 0
    ensures x * b >= y * b + b
  {
    ProductNotNegative(x - y - 1, b);
    Expand(x, y, b);
  }

  lemma {:induction false} ProductNotNegative(a: int, b: int)
    requires a >= 0 && b >= 0
    ensures a * b >= 0
    decreases a
  {
    if a > 0 {
      ProductNotNegative(a - 1, b);
      assert a * b == (a - 1) * b + b;
    }
  }

  lemma Expand(x: int, y: int, b: int)
    ensures (x - y - 1) * b == x * b - y * b - b
  {
  }

  /** The last rounded installment is positive if and only if the quotient and the remainder together make up
      for what rounding up took too much in the other months. The source builds no schedule with this amount;
      it only shows it in a simulation. */
  lemma RoundedLastPositiveIff(principal: int, total: int, months: int, start: Date)
    requires months > 0 && total >= 0
    ensures var q, r := total / months, total % months;
            var m := HalfUp(total as real / months as real);
            Schedule(Terms(principal, months, total, m), start)[months - 1].amount > 0
            <==> if 2 * r < months then q + r > 0 else q + r >= months
  {
    var q, r := total / months, total % months;
    HalfUpQuotient(total, months);
    Quotient(total, months);
    RoundedQuotient(total, months, q, r);
    LastAmount(total, months, HalfUp(total as real / months as real));
    if 2 * r >= months { Times(months, q, 1); }
  }

  /** Rounding up over a long duration can leave a negative last installment. */
  lemma RoundedLastCanBeNegative()
    ensures var terms := Terms(90, 60, 90, HalfUp(90.0 / 60.0));
            terms.monthly == 2 && Schedule(terms, Date(2024, 1, 1))[59].amount == -28
  {
  }
}
