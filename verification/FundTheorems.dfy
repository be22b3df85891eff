/** What the fund promises over whole runs. */
module FundTheorems {
  import opened Options
  import opened Sums
  import opened FundStore
  import opened FundSafety
  import W = WalletLedger
  import U = WalletUseCases
  import V = WalletSafety
  import S = LoanSchedule
  import L = FundLoans

  // --- Investments -------------------------------------------------------------------------------------

  /** A campaign's raised amount is always the sum of its investments. */
  lemma RaisedIsInvested(steps: seq<Step>, c: nat)
    requires c < |Run(NOTHING, steps).campaigns|
    ensures var f := Run(NOTHING, steps); f.campaigns[c].raised == SumBy(f.investments, Into(c))
  {
    BooksAndLoansAlways(NOTHING, steps);
    assert RaisedOk(Run(NOTHING, steps), c);
  }

  function ThroughOrder(intent: string): Investment -> int {
    (i: Investment) => if i.intent == Some(intent) then 1 else 0
  }

  lemma {:induction false} CountIsOneIffInvested(investments: seq<Investment>, intent: string)
    requires UniqueSources(investments)
    ensures SumBy(investments, ThroughOrder(intent)) == if Invested(investments, intent) then 1 else 0
  {
    if investments != [] {
      var n := |investments| - 1;
      CountIsOneIffInvested(investments[..n], intent);
      if Invested(investments[..n], intent) {
        var i :| 0 <= i < n && investments[..n][i].intent == Some(intent);
        assert investments[i].intent == Some(intent);
      }
      if Invested(investments, intent) && investments[n].intent != Some(intent) {
        var i :| 0 <= i < |investments| && investments[i].intent == Some(intent);
        assert investments[..n][i].intent == Some(intent);
      }
    }
  }

  /** For any callbacks, repeated, reordered and mixed with everything else: an order yields at most one
      investment, and that one is of the order's own campaign and amount, in the name of its payer. */
  lemma OneInvestmentPerOrder(steps: seq<Step>, o: nat, i: nat)
    requires o < |Run(NOTHING, steps).orders| && i < |Run(NOTHING, steps).investments|
    ensures var f := Run(NOTHING, steps);
            && 0 <= SumBy(f.investments, ThroughOrder(f.orders[o].intent)) <= 1
            && (f.investments[i].intent == Some(f.orders[o].intent) ==>
                  && f.investments[i].campaign == f.orders[o].campaign
                  && f.investments[i].amount == f.orders[o].amount && f.investments[i].investor == f.orders[o].payer)
  {
    BooksAndLoansAlways(NOTHING, steps);
    var f := Run(NOTHING, steps);
    CountIsOneIffInvested(f.investments, f.orders[o].intent);
    assert InvestmentOk(f, i);
  }

  /** An accepted `payment.succeeded` leaves its order with exactly one investment if and only if the order was
      not yet marked succeeded or had its investment already. A callback of another type that reports the status
      "succeeded" marks the order without investing, and no later callback makes up for it. */
  lemma SuccessInvestsIff(f: Fund, e: Event)
    requires Books(f) && e.succeeds && ApplyEvent(f, e).1 == Processed
    ensures var o := ByIntent(f.orders, e.intent);
            && o.Some?
            && (SumBy(ApplyEvent(f, e).0.investments, ThroughOrder(e.intent)) == 1
                <==> f.orders[o.value].status != Succeeded || Invested(f.investments, e.intent))
  {
    var g := ApplyEvent(f, e).0;
    EventKeepsBooks(f, e);
    CountIsOneIffInvested(g.investments, e.intent);
    if g.investments != f.investments {
      assert g.investments[|f.investments|].intent == Some(e.intent);
    }
  }

  /** The branch that invests: a success event that is new and names its order's reference, amount and currency, whose
      order is not marked succeeded and has no investment yet. */
  predicate Invests(f: Fund, step: Step, intent: string) {
    && step.StepEvent? && step.event.succeeds && step.event.intent == intent && step.event.id !in f.inbox
    && var o := ByIntent(f.orders, intent);
    && o.Some?
    && var order := f.orders[o.value];
    && step.event.reference == order.reference && step.event.amount == order.amount
    && step.event.currency == order.currency
    && order.status != Succeeded && order.campaign < |f.campaigns| && !Invested(f.investments, intent)
  }

  predicate SomeInvests(f: Fund, steps: seq<Step>, intent: string)
    decreases |steps|
  {
    steps != [] && (Invests(f, steps[0], intent) || SomeInvests(Next(f, steps[0]), steps[1..], intent))
  }

  lemma StepInvests(f: Fund, step: Step, intent: string)
    ensures Invested(Next(f, step).investments, intent)
            <==> Invested(f.investments, intent) || Invests(f, step, intent)
  {
    var g := Next(f, step);
    assert f.investments <= g.investments;
    if Invested(f.investments, intent) {
      var i :| 0 <= i < |f.investments| && f.investments[i].intent == Some(intent);
      assert g.investments[i].intent == Some(intent);
    }
    if step.StepEvent? && g.investments != f.investments {
      assert g.investments[|f.investments|].intent == Some(step.event.intent);
    }
  }

  lemma {:induction false} InvestedIffSomeInvests(f: Fund, steps: seq<Step>, intent: string)
    ensures Invested(Run(f, steps).investments, intent)
            <==> Invested(f.investments, intent) || SomeInvests(f, steps, intent)
    decreases |steps|
  {
    if steps != [] {
      StepInvests(f, steps[0], intent);
      InvestedIffSomeInvests(Next(f, steps[0]), steps[1..], intent);
    }
  }

  /** Over any run, an order has its one investment if and only if some accepted success found it not marked
      succeeded. */
  lemma OrderInvestedIff(steps: seq<Step>, o: nat)
    requires o < |Run(NOTHING, steps).orders|
    ensures var f := Run(NOTHING, steps);
            SumBy(f.investments, ThroughOrder(f.orders[o].intent)) == 1
            <==> SomeInvests(NOTHING, steps, f.orders[o].intent)
  {
    BooksAndLoansAlways(NOTHING, steps);
    var f := Run(NOTHING, steps);
    CountIsOneIffInvested(f.investments, f.orders[o].intent);
    InvestedIffSomeInvests(NOTHING, steps, f.orders[o].intent);
  }

  // --- Repeated callbacks -------------------------------------------------------------------------------

  /** The steps of a run without the callbacks whose event was already accepted. */
  function WithoutRepeats(f: Fund, steps: seq<Step>, accepted: set<string>): seq<Step>
    decreases |steps|
  {
    if steps == [] then []
    else if !steps[0].StepEvent? then [steps[0]] + WithoutRepeats(Next(f, steps[0]), steps[1..], accepted)
    else if steps[0].event.id in accepted then WithoutRepeats(f, steps[1..], accepted)
    else
      var (g, answer) := ApplyEvent(f, steps[0].event);
      var after := if answer == Processed then accepted + {steps[0].event.id} else accepted;
      [steps[0]] + WithoutRepeats(g, steps[1..], after)
  }

  lemma InboxGrows(f: Fund, step: Step)
    ensures f.inbox <= Next(f, step).inbox
    ensures step.StepEvent? && ApplyEvent(f, step.event).1 == Processed ==> step.event.id in Next(f, step).inbox
  {
  }

  /** Any run gives the same state as the run without the repeats of accepted callbacks. */
  lemma {:induction false} RepeatsChangeNothing(f: Fund, steps: seq<Step>, accepted: set<string>)
    requires accepted <= f.inbox
    ensures Run(f, WithoutRepeats(f, steps, accepted)) == Run(f, steps)
    decreases |steps|
  {
    if steps != [] {
      var step, rest := steps[0], steps[1..];
      InboxGrows(f, step);
      if step.StepEvent? && step.event.id in accepted {
        assert Next(f, step) == f;
        RepeatsChangeNothing(f, rest, accepted);
      } else {
        var after := if step.StepEvent? && ApplyEvent(f, step.event).1 == Processed
                     then accepted + {step.event.id} else accepted;
        var kept := WithoutRepeats(Next(f, step), rest, after);
        RepeatsChangeNothing(Next(f, step), rest, after);
        assert WithoutRepeats(f, steps, accepted) == [step] + kept;
        assert ([step] + kept)[1..] == kept;
      }
    }
  }

  // --- Pools ----------------------------------------------------------------------------------------------

  /** A pool's wallet always holds its wallet investments less the loans paid out plus what was paid back, and
      never less than nothing. */
  lemma PoolIsExpected(steps: seq<Step>, c: nat)
    requires LegalRun(NOTHING, steps) && c < |Run(NOTHING, steps).campaigns|
    ensures var f := Run(NOTHING, steps);
            W.Balance(f.wallet.entries, f.campaigns[c].pool) == Expected(f, c) && Expected(f, c) >= 0
  {
    RunKeeps(NOTHING, steps);
    var f := Run(NOTHING, steps);
    assert PoolHolds(f, c) && PoolOk(f.wallet, f.campaigns[c].pool);
  }

  /** A wallet investment keeps the pool exact if and only if its key is new or is an earlier investment's. */
  lemma InvestmentHoldsIffKeyFits(f: Fund, c: nat, user: int, amount: int, key: string)
    requires Inv(f) && Invest(f, c, user, amount, key).1.Ok?
    ensures PoolHolds(Invest(f, c, user, amount, key).0, c) <==> KeyFits(f, StepInvest(c, user, amount, key))
  {
    if KeyFits(f, StepInvest(c, user, amount, key)) {
      InvestKeepsPools(f, c, user, amount, key);
    } else {
      var own, pool := U.AccountFor(f.wallet, user), f.campaigns[c].pool;
      OpenedAccount(f.wallet, user);
      MoveShifts(own.0, own.1, pool, amount, W.Disbursement, key, pool);
      var g := Invest(f, c, user, amount, key).0;
      SumAppend(f.investments, g.investments[|f.investments|], WalletInto(c));
      assert PoolHolds(f, c);
    }
  }

  /** A repayment keeps the pool exact if and only if its key is new (or it pays nothing): under a known key the
      installment is credited although no money moves. */
  lemma RepaymentHoldsIffKeyNew(f: Fund, l: nat, user: int, amount: int, key: string)
    requires Inv(f) && Repay(f, l, user, amount, key).1.Ok?
    ensures PoolHolds(Repay(f, l, user, amount, key).0, f.loans[l].campaign)
            <==> W.Owner(f.wallet.txs, key).None? || amount == 0
  {
    var g, loan := Repay(f, l, user, amount, key).0, f.loans[l];
    var own, pool := U.AccountFor(f.wallet, loan.borrower), f.campaigns[loan.campaign].pool;
    OpenedAccount(f.wallet, loan.borrower);
    MoveShifts(own.0, own.1, pool, amount, W.Repayment, key, pool);
    var i := L.NextUnpaid(loan.rows).value;
    SumUpdate(loan.rows, i, L.PayRow(loan.rows[i], amount), L.PaidOf);
    assert L.TotalPaid(g.loans[l]) == L.TotalPaid(loan) + amount;
    SumUpdate(f.loans, l, g.loans[l], Lent(loan.campaign));
    SumUpdate(f.loans, l, g.loans[l], PaidBack(loan.campaign));
    assert PoolHolds(f, loan.campaign);
  }

  /** Paying a loan out keeps the pool exact if and only if the disbursement's own key is new: when a client took
      that key before, the loan counts as paid out although no money moves. */
  lemma DisbursementHoldsIffKeyNew(f: Fund, l: nat, start: S.Date)
    requires Inv(f) && Disburse(f, l, start).1.Ok?
    ensures PoolHolds(Disburse(f, l, start).0, f.loans[l].campaign) <==> W.Owner(f.wallet.txs, DisbursementKey(l)).None?
  {
    var g, loan := Disburse(f, l, start).0, f.loans[l];
    var own, pool := U.AccountFor(f.wallet, loan.borrower), f.campaigns[loan.campaign].pool;
    OpenedAccount(f.wallet, loan.borrower);
    MoveShifts(own.0, pool, own.1, loan.principal, W.Disbursement, DisbursementKey(l), pool);
    L.DisbursementSetsSchedule(loan, start);
    SumUpdate(f.loans, l, g.loans[l], Lent(loan.campaign));
    SumUpdate(f.loans, l, g.loans[l], PaidBack(loan.campaign));
    assert L.TotalPaid(loan) == 0 && PoolHolds(f, loan.campaign);
  }

  // --- Loans ------------------------------------------------------------------------------------------------

  /** What a step does to loan l: nothing, paying it out, or a repayment. */
  ghost predicate LoanStep(f: Fund, g: Fund, step: Step, l: nat) {
    && |f.loans| <= |g.loans| && (|f.loans| <= l < |g.loans| ==> g.loans[l].status == L.LoanPending)
    && (l < |f.loans| ==>
          || g.loans[l] == f.loans[l]
          || (f.loans[l].status == L.LoanPending && g.loans[l].status == L.LoanDisbursed
              && L.TotalPaid(g.loans[l]) == 0)
          || (f.loans[l].status != L.LoanPending && g.loans[l].status != L.LoanPending
              && g.loans[l].status != L.LoanDisbursed && step.StepRepay? && step.loan == l && step.amount >= 0
              && L.TotalPaid(g.loans[l]) == L.TotalPaid(f.loans[l]) + step.amount))
    && (PaysNothing(f, step, l) ==>
          l < |g.loans| && g.loans[l].status != L.LoanPending && g.loans[l].status != L.LoanDisbursed)
    && (step.StepRepay? && step.loan == l && step.amount == 0 && !PaysNothing(f, step, l) ==> g == f)
  }

  /** A repayment that reaches the wallet: the borrower's own, of a loan that is not pending, within its next
      installment. */
  predicate MayRepay(f: Fund, step: Step, l: nat) {
    && step.StepRepay? && step.loan == l && l < |f.loans| && f.loans[l].borrower == step.user
    && L.RepayRefusal(f.loans[l], step.amount).None? && f.loans[l].campaign < |f.campaigns|
  }

  /** A repayment of nothing under a known key, which the wallet replays without moving money. */
  predicate PaysNothing(f: Fund, step: Step, l: nat) {
    MayRepay(f, step, l) && step.amount == 0 && W.Owner(f.wallet.txs, step.key).Some?
  }

  /** A repayment of nothing is accepted exactly under a known key. */
  lemma NothingIsAcceptedIff(f: Fund, l: nat, user: int, key: string)
    ensures Repay(f, l, user, 0, key).1.Ok? <==> PaysNothing(f, StepRepay(l, user, 0, key), l)
  {
    if MayRepay(f, StepRepay(l, user, 0, key), l) && W.Owner(f.wallet.txs, key).None?
       && PayBack(f, l, 0, key).answer.Done? {
      var own := U.AccountFor(f.wallet, f.loans[l].borrower);
      NewKeyMovesPositive(own.0, own.1, f.campaigns[f.loans[l].campaign].pool, 0, W.Repayment, key);
    }
  }

  lemma RepayIsLoanStep(f: Fund, r: nat, user: int, amount: int, key: string, l: nat)
    requires LoansOk(f)
    ensures LoanStep(f, Repay(f, r, user, amount, key).0, StepRepay(r, user, amount, key), l)
  {
    if Repay(f, r, user, amount, key).1.Ok? { L.RepaymentPays(f.loans[r], amount); }
    if amount == 0 { NothingIsAcceptedIff(f, r, user, key); }
  }

  lemma DisburseIsLoanStep(f: Fund, r: nat, start: S.Date, l: nat)
    requires LoansOk(f)
    ensures LoanStep(f, Disburse(f, r, start).0, StepDisburse(r, start), l)
  {
    if Disburse(f, r, start).1.Ok? { L.DisbursementSetsSchedule(f.loans[r], start); }
  }

  lemma NextIsLoanStep(f: Fund, step: Step, l: nat)
    requires LoansOk(f)
    ensures LoansOk(Next(f, step)) && LoanStep(f, Next(f, step), step, l)
  {
    NextKeepsLoans(f, step);
    match step
    case StepRepay(r, user, amount, key) => RepayIsLoanStep(f, r, user, amount, key, l);
    case StepDisburse(r, start) => DisburseIsLoanStep(f, r, start, l);
    case StepRequest(_, _, _, _, _) =>
    case _ => assert Next(f, step).loans == f.loans;
  }

  predicate SomePaysNothing(f: Fund, steps: seq<Step>, l: nat)
    decreases |steps|
  {
    steps != [] && (PaysNothing(f, steps[0], l) || SomePaysNothing(Next(f, steps[0]), steps[1..], l))
  }

  /** Paid out and never touched by a repayment. */
  predicate Untouched(f: Fund, l: nat) { l < |f.loans| && f.loans[l].status == L.LoanDisbursed }

  /** Once a repayment was accepted, a loan never counts as merely paid out again. */
  lemma {:induction false} TouchedStays(f: Fund, steps: seq<Step>, l: nat)
    requires LoansOk(f) && l < |f.loans| && f.loans[l].status != L.LoanPending && !Untouched(f, l)
    ensures var g := Run(f, steps); l < |g.loans| && g.loans[l].status != L.LoanPending && !Untouched(g, l)
    decreases |steps|
  {
    if steps != [] {
      NextIsLoanStep(f, steps[0], l);
      TouchedStays(Next(f, steps[0]), steps[1..], l);
    }
  }

  /** Over any run, a loan that was paid out still counts as such if and only if nothing was paid and no
      repayment of nothing was accepted. */
  lemma {:induction false} DisbursedIff(f: Fund, steps: seq<Step>, l: nat)
    requires LoansOk(f)
    requires l < |f.loans| && f.loans[l].status != L.LoanPending ==> (Untouched(f, l) <==> L.TotalPaid(f.loans[l]) == 0)
    ensures var g := Run(f, steps);
            l < |g.loans| && g.loans[l].status != L.LoanPending ==>
              (Untouched(g, l) <==> L.TotalPaid(g.loans[l]) == 0 && !SomePaysNothing(f, steps, l))
    decreases |steps|
  {
    if steps != [] {
      var g := Next(f, steps[0]);
      NextIsLoanStep(f, steps[0], l);
      if PaysNothing(f, steps[0], l) {
        TouchedStays(g, steps[1..], l);
      } else {
        LoanStepTracks(f, g, steps[0], l);
        DisbursedIff(g, steps[1..], l);
      }
    }
  }

  lemma LoanStepTracks(f: Fund, g: Fund, step: Step, l: nat)
    requires LoansOk(f) && LoansOk(g) && LoanStep(f, g, step, l) && !PaysNothing(f, step, l)
    requires l < |f.loans| && f.loans[l].status != L.LoanPending ==> (Untouched(f, l) <==> L.TotalPaid(f.loans[l]) == 0)
    ensures l < |g.loans| && g.loans[l].status != L.LoanPending ==> (Untouched(g, l) <==> L.TotalPaid(g.loans[l]) == 0)
  {
    if l < |f.loans| && f.loans[l].status != L.LoanPending { L.StatusIsTotalPaid(f.loans[l]); }
  }

  /** Over any run, a loan's installments are a settled prefix, at most one partly paid and untouched ones; what
      was paid never exceeds the total; and the status says how far the repayment is, where a repayment of
      nothing under a known key already counts as repaying. */
  lemma LoansRepayInOrder(steps: seq<Step>, l: nat) returns (k: nat)
    requires l < |Run(NOTHING, steps).loans|
    ensures var loan := Run(NOTHING, steps).loans[l];
            && k <= |loan.rows|
            && (forall i :: 0 <= i < k ==> loan.rows[i].amountPaid == loan.rows[i].amountDue)
            && (k < |loan.rows| ==> loan.rows[k].amountPaid < loan.rows[k].amountDue)
            && (forall i :: k < i < |loan.rows| ==> loan.rows[i].amountPaid == 0)
            && (loan.status != L.LoanPending ==>
                  && |loan.rows| == loan.months && SumBy(loan.rows, L.DueOf) == loan.total
                  && 0 <= L.TotalPaid(loan) <= loan.total
                  && loan.status == if L.TotalPaid(loan) == loan.total then L.LoanClosed
                                    else if L.TotalPaid(loan) == 0 && !SomePaysNothing(NOTHING, steps, l)
                                    then L.LoanDisbursed else L.LoanRepaying)
  {
    BooksAndLoansAlways(NOTHING, steps);
    var loan := Run(NOTHING, steps).loans[l];
    k := L.PrefixPartialUntouched(loan);
    if loan.status != L.LoanPending {
      DisbursedIff(NOTHING, steps, l);
      L.StatusIsTotalPaid(loan);
    }
  }

  /** Paying out a loan is refused by the store exactly when the total is below one unit a month; nothing is
      then moved. */
  lemma DisburseRefusedIff(f: Fund, l: nat, start: S.Date)
    requires Inv(f) && l < |f.loans| && f.loans[l].status == L.LoanPending && PayOut(f, l).answer.Done?
    ensures Disburse(f, l, start).1.Ok? <==> f.loans[l].total >= f.loans[l].months
    ensures !Disburse(f, l, start).1.Ok? ==> Disburse(f, l, start) == (f, No(StoreRefused))
  {
    L.DisbursementSetsSchedule(f.loans[l], start);
  }
}
