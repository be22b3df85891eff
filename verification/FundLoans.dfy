/** Loans and the installments that repay them, one at a time and in order. */
module FundLoans {
  import opened Options
  import opened Sums
  import S = LoanSchedule

  datatype RowStatus = RowDue | RowPaid

  datatype Row = Row(number: int, due: S.Date, amountDue: int, amountPaid: int, status: RowStatus)

  datatype LoanStatus = LoanPending | LoanDisbursed | LoanRepaying | LoanClosed

  datatype Loan = Loan(
    campaign: nat, borrower: int, principal: int, months: int, total: int, status: LoanStatus, rows: seq<Row>)

  datatype LoanError = NotDisbursed | AllPaid | ExceedsInstallment

  /** The first installment that is not settled. */
  function NextUnpaid(rows: seq<Row>): (r: Option<nat>)
    ensures r.Some? ==> r.value < |rows| && rows[r.value].status != RowPaid
                        && forall i :: 0 <= i < r.value ==> rows[i].status == RowPaid
    ensures r.None? ==> forall i :: 0 <= i < |rows| ==> rows[i].status == RowPaid
  {
    Find(rows, (r: Row) => r.status != RowPaid)
  }

  function PayRow(row: Row, amount: int): Row {
    var paid := row.amountPaid + amount;
    row.(amountPaid := paid, status := if paid >= row.amountDue then RowPaid else row.status)
  }

  function RepayRefusal(loan: Loan, amount: int): Option<LoanError> {
    if loan.status == LoanPending then Some(NotDisbursed) else
      match NextUnpaid(loan.rows)
      case None => Some(AllPaid)
      case Some(i) =>
        if amount > loan.rows[i].amountDue - loan.rows[i].amountPaid then Some(ExceedsInstallment) else None
  }

  function Repaid(loan: Loan, amount: int): Loan
    requires RepayRefusal(loan, amount).None?
  {
    var i := NextUnpaid(loan.rows).value;
    var rows := loan.rows[i := PayRow(loan.rows[i], amount)];
    var status := if loan.status == LoanDisbursed then LoanRepaying else loan.status;
    loan.(rows := rows, status := if NextUnpaid(rows).None? then LoanClosed else status)
  }

  function RowOf(i: S.Installment): Row { Row(i.number, i.due, i.amount, 0, RowDue) }

  function RowsFor(loan: Loan, start: S.Date): seq<Row>
    requires loan.months > 0
  {
    var terms := S.Terms(loan.principal, loan.months, loan.total, S.TruncatedMonthly(loan.total, loan.months));
    var schedule := S.Schedule(terms, start);
    seq(|schedule|, i requires 0 <= i < |schedule| => RowOf(schedule[i]))
  }

  /** The store's check on installments. */
  predicate RowsAccepted(rows: seq<Row>) { forall i :: 0 <= i < |rows| ==> rows[i].amountDue > 0 }

  // --- The invariant -------------------------------------------------------------------------------------

  function DueOf(r: Row): int { r.amountDue }

  function PaidOf(r: Row): int { r.amountPaid }

  function TotalPaid(loan: Loan): int { SumBy(loan.rows, PaidOf) }

  predicate RowOk(r: Row) {
    && 0 <= r.amountPaid <= r.amountDue && 0 < r.amountDue
    && (r.status == RowPaid <==> r.amountPaid == r.amountDue)
  }

  /** Nothing is paid on an installment before the earlier ones are settled. */
  predicate InOrder(rows: seq<Row>) {
    forall i, j :: 0 <= i < j < |rows| && rows[j].amountPaid > 0 ==> rows[i].status == RowPaid
  }

  predicate LoanOk(loan: Loan) {
    && loan.principal > 0 && 0 < loan.months <= S.MAX_DURATION_MONTHS && loan.total >= loan.principal
    && if loan.status == LoanPending then loan.rows == [] else
         && |loan.rows| == loan.months && SumBy(loan.rows, DueOf) == loan.total
         && (forall i :: 0 <= i < |loan.rows| ==> RowOk(loan.rows[i]))
         && InOrder(loan.rows)
         && (loan.status == LoanDisbursed ==> TotalPaid(loan) == 0)
         && (loan.status == LoanClosed <==> TotalPaid(loan) == loan.total)
  }

  /** A repayment pays its amount on the one installment that is next, and the loan is being repaid or closed. */
  lemma RepaymentPays(loan: Loan, amount: int)
    requires LoanOk(loan) && amount >= 0 && RepayRefusal(loan, amount).None?
    ensures LoanOk(Repaid(loan, amount)) && TotalPaid(Repaid(loan, amount)) == TotalPaid(loan) + amount
    ensures Repaid(loan, amount).status != LoanPending && Repaid(loan, amount).status != LoanDisbursed
  {
    var i := NextUnpaid(loan.rows).value;
    var after := Repaid(loan, amount);
    var row := PayRow(loan.rows[i], amount);
    SumUpdate(loan.rows, i, row, PaidOf);
    SumUpdate(loan.rows, i, row, DueOf);
    assert forall k :: i < k < |loan.rows| ==> loan.rows[k].amountPaid <= 0;
    NothingPaid(loan.rows);
    ClosedIff(loan.rows);
    ClosedIff(after.rows);
  }

  lemma NothingPaid(rows: seq<Row>)
    requires forall i :: 0 <= i < |rows| ==> RowOk(rows[i])
    ensures 0 <= SumBy(rows, PaidOf) <= SumBy(rows, DueOf)
  {
    SumBelow(rows, PaidOf, DueOf);
    SumBelow(rows, (_: Row) => 0, PaidOf);
    SumZero(rows, (_: Row) => 0);
  }

  /** Everything is paid exactly when no installment is left. */
  lemma {:induction false} ClosedIff(rows: seq<Row>)
    requires forall i :: 0 <= i < |rows| ==> RowOk(rows[i])
    ensures NextUnpaid(rows).None? <==> SumBy(rows, PaidOf) == SumBy(rows, DueOf)
  {
    if rows != [] {
      var n := |rows| - 1;
      forall i | 0 <= i < n ensures RowOk(rows[..n][i]) { assert rows[..n][i] == rows[i]; }
      ClosedIff(rows[..n]);
      NothingPaid(rows[..n]);
      assert RowOk(rows[n]);
    }
  }

  /** Paying out sets up a schedule that adds up to the total; the store refuses it exactly when the total is
      less than one unit a month. */
  lemma DisbursementSetsSchedule(loan: Loan, start: S.Date)
    requires LoanOk(loan) && loan.status == LoanPending
    ensures RowsAccepted(RowsFor(loan, start)) <==> loan.total >= loan.months
    ensures RowsAccepted(RowsFor(loan, start)) ==>
              var after := loan.(rows := RowsFor(loan, start), status := LoanDisbursed);
              LoanOk(after) && TotalPaid(after) == 0
  {
    var terms := S.Terms(loan.principal, loan.months, loan.total, S.TruncatedMonthly(loan.total, loan.months));
    var schedule, rows := S.Schedule(terms, start), RowsFor(loan, start);
    S.TruncatedSchedule(loan.principal, loan.total, loan.months, start);
    S.ScheduleSumsToTotal(terms, start);
    SameSums(schedule, rows);
    assert RowsAccepted(rows) <==> (forall i :: 0 <= i < |schedule| ==> schedule[i].amount > 0) by {
      assert forall i :: 0 <= i < |schedule| ==> rows[i].amountDue == schedule[i].amount;
    }
    SumZero(rows, PaidOf);
  }

  lemma {:induction false} SameSums(schedule: seq<S.Installment>, rows: seq<Row>)
    requires |rows| == |schedule| && forall i :: 0 <= i < |rows| ==> rows[i] == RowOf(schedule[i])
    ensures SumBy(rows, DueOf) == SumBy(schedule, S.Due)
  {
    if rows != [] { SameSums(schedule[..|rows| - 1], rows[..|rows| - 1]); }
  }

  /** Installments split into a settled prefix, at most one partly paid, and untouched ones. */
  lemma PrefixPartialUntouched(loan: Loan) returns (k: nat)
    requires LoanOk(loan)
    ensures k <= |loan.rows|
    ensures forall i :: 0 <= i < k ==> loan.rows[i].amountPaid == loan.rows[i].amountDue
    ensures k < |loan.rows| ==> loan.rows[k].amountPaid < loan.rows[k].amountDue
    ensures forall i :: k < i < |loan.rows| ==> loan.rows[i].amountPaid == 0
  {
    k := if NextUnpaid(loan.rows).Some? then NextUnpaid(loan.rows).value else |loan.rows|;
    forall i | k <= i < |loan.rows| ensures RowOk(loan.rows[i]) {}
  }

  /** Status and total paid say the same, except that a loan being repaid may have received nothing so far. */
  lemma StatusIsTotalPaid(loan: Loan)
    requires LoanOk(loan) && loan.status != LoanPending
    ensures 0 <= TotalPaid(loan) <= loan.total
    ensures loan.status == if TotalPaid(loan) == loan.total then LoanClosed
                           else if 0 < TotalPaid(loan) || loan.status != LoanDisbursed then LoanRepaying
                           else LoanDisbursed
  {
    NothingPaid(loan.rows);
  }
}
