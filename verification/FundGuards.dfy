/** What the fund asks of a call before it changes anything, told in the fields of the rows: callbacks, investments,
    orders, loan requests and repayments. */
module FundGuards {
  import opened Options
  import opened FundStore
  import opened FundSafety
  import opened FundTheorems
  import W = WalletLedger
  import U = WalletUseCases
  import V = WalletSafety
  import S = LoanSchedule
  import L = FundLoans

  // --- Callbacks -----------------------------------------------------------------------------------------

  /** The event names the order and its reference, amount and currency. */
  predicate NamesOrder(e: Event, o: PaymentOrder) {
    e.intent == o.intent && e.reference == o.reference && e.amount == o.amount && e.currency == o.currency
  }

  /** A callback that no order matches changes nothing at all, and is a duplicate exactly when its id was accepted
      before. */
  lemma StrangeEventChangesNothing(f: Fund, e: Event)
    requires OrdersOk(f) && forall o :: 0 <= o < |f.orders| ==> !NamesOrder(e, f.orders[o])
    ensures ApplyEvent(f, e).0 == f && ApplyEvent(f, e).1 != Processed
    ensures ApplyEvent(f, e).1 == Duplicate <==> e.id in f.inbox
  {
    var o := ByIntent(f.orders, e.intent);
    if o.Some? { assert !NamesOrder(e, f.orders[o.value]); }
  }

  /** What is refused of a callback: an unknown order, then its reference, then its amount or currency. */
  lemma EventRefusalIs(f: Fund, e: Event)
    requires OrdersOk(f) && e.id !in f.inbox
    ensures var answer := ApplyEvent(f, e).1;
            && (answer == No(OrderNotFound) <==> forall o :: 0 <= o < |f.orders| ==> f.orders[o].intent != e.intent)
            && (answer == No(ReferenceMismatch) <==>
                  exists o :: 0 <= o < |f.orders| && f.orders[o].intent == e.intent
                              && f.orders[o].reference != e.reference)
            && (answer == No(AmountMismatch) <==>
                  exists o :: 0 <= o < |f.orders| && f.orders[o].intent == e.intent
                              && f.orders[o].reference == e.reference
                              && (f.orders[o].amount != e.amount || f.orders[o].currency != e.currency))
  {
    var o := ByIntent(f.orders, e.intent);
    if o.Some? {
      forall p | 0 <= p < |f.orders| && f.orders[p].intent == e.intent ensures p == o.value {}
      assert f.orders[o.value].intent == e.intent;
    }
  }

  /** A callback that is accepted marks its order with the status it tells of, and with "succeeded" when it is the
      success itself; an order keeps everything else. */
  lemma AcceptedEventMarks(f: Fund, e: Event, o: nat)
    requires OrdersOk(f) && o < |f.orders| && f.orders[o].intent == e.intent && ApplyEvent(f, e).1 == Processed
    ensures var g := ApplyEvent(f, e).0;
            && g.inbox == f.inbox + {e.id} && NamesOrder(e, f.orders[o])
            && g.orders == f.orders[o := f.orders[o].(
                 status := if e.succeeds then Succeeded
                           else if e.status.Some? then e.status.value.status else f.orders[o].status)]
  {
    var p := ByIntent(f.orders, e.intent);
    assert p == Some(o);
    if ApplyEvent(f, e).0.orders == f.orders { assert f.orders == f.orders[o := f.orders[o]]; }
  }

  // --- Every run: what is behind an investment --------------------------------------------------------------

  predicate SameOrder(a: PaymentOrder, b: PaymentOrder) { b == a.(status := b.status) }

  predicate OrdersKept(f: Fund, g: Fund) {
    |f.orders| <= |g.orders| && forall o :: 0 <= o < |f.orders| ==> SameOrder(f.orders[o], g.orders[o])
  }

  lemma EventKeepsOrders(f: Fund, e: Event)
    ensures OrdersKept(f, ApplyEvent(f, e).0)
  {
  }

  lemma StepKeepsOrders(f: Fund, step: Step)
    ensures OrdersKept(f, Next(f, step))
  {
    match step
    case StepEvent(e) => EventKeepsOrders(f, e);
    case StepOrder(_, _, _, _, _) =>
    case _ => assert Next(f, step).orders == f.orders;
  }

  lemma {:induction false} RunKeepsOrders(f: Fund, steps: seq<Step>)
    ensures OrdersKept(f, Run(f, steps))
    decreases |steps|
  {
    if steps != [] {
      StepKeepsOrders(f, steps[0]);
      RunKeepsOrders(Next(f, steps[0]), steps[1..]);
    }
  }

  /** The step is a success event that names the order. */
  predicate PaysOrder(step: Step, o: PaymentOrder) {
    step.StepEvent? && step.event.succeeds && NamesOrder(step.event, o)
  }

  lemma {:induction false} SomePaysOrder(f: Fund, steps: seq<Step>, intent: string) returns (n: nat, o: nat)
    requires Books(f) && SomeInvests(f, steps, intent)
    ensures n < |steps| && o < |Run(f, steps).orders|
    ensures Run(f, steps).orders[o].intent == intent && PaysOrder(steps[n], Run(f, steps).orders[o])
    decreases |steps|
  {
    if Invests(f, steps[0], intent) {
      n, o := 0, ByIntent(f.orders, intent).value;
      RunKeepsOrders(f, steps);
      assert SameOrder(f.orders[o], Run(f, steps).orders[o]);
    } else {
      NextKeepsBooks(f, steps[0]);
      n, o := SomePaysOrder(Next(f, steps[0]), steps[1..], intent);
      n := n + 1;
    }
  }

  /** In every run, an investment through an order has the order behind it, with its campaign, amount and payer, and a
      success event of the run that names the order's reference, amount and currency. */
  lemma EventBehindInvestment(steps: seq<Step>, i: nat) returns (n: nat, o: nat)
    requires i < |Run(NOTHING, steps).investments| && Run(NOTHING, steps).investments[i].intent.Some?
    ensures var f := Run(NOTHING, steps);
            && n < |steps| && o < |f.orders| && f.investments[i].intent == Some(f.orders[o].intent)
            && f.investments[i].campaign == f.orders[o].campaign && f.investments[i].amount == f.orders[o].amount
            && f.investments[i].investor == f.orders[o].payer
            && steps[n].StepEvent? && steps[n].event.succeeds && steps[n].event.intent == f.orders[o].intent
            && steps[n].event.reference == f.orders[o].reference && steps[n].event.amount == f.investments[i].amount
            && steps[n].event.currency == f.orders[o].currency
  {
    BooksAndLoansAlways(NOTHING, steps);
    var f := Run(NOTHING, steps);
    var intent := f.investments[i].intent.value;
    assert Invested(f.investments, intent);
    InvestedIffSomeInvests(NOTHING, steps, intent);
    n, o := SomePaysOrder(NOTHING, steps, intent);
    assert InvestmentOk(f, i);
    assert ByIntent(f.orders, intent) == Some(o);
  }

  /** In every run, nobody invests in a campaign of his own or orders to, and every loan is the owner's. */
  lemma OwnersDoNotInvest(steps: seq<Step>)
    ensures var f := Run(NOTHING, steps);
            && (forall i :: 0 <= i < |f.investments| ==>
                  f.investments[i].campaign < |f.campaigns|
                  && f.investments[i].investor != f.campaigns[f.investments[i].campaign].owner)
            && (forall o :: 0 <= o < |f.orders| ==>
                  f.orders[o].campaign < |f.campaigns|
                  && f.orders[o].payer != f.campaigns[f.orders[o].campaign].owner)
            && (forall l :: 0 <= l < |f.loans| ==>
                  f.loans[l].campaign < |f.campaigns|
                  && f.loans[l].borrower == f.campaigns[f.loans[l].campaign].owner)
  {
    BooksAndLoansAlways(NOTHING, steps);
    var f := Run(NOTHING, steps);
    forall i | 0 <= i < |f.investments|
      ensures f.investments[i].campaign < |f.campaigns|
              && f.investments[i].investor != f.campaigns[f.investments[i].campaign].owner
    {
      assert InvestmentOk(f, i);
    }
  }

  // --- Calls of users -----------------------------------------------------------------------------------------

  /** The campaign is active and somebody else's, and has not reached its goal. */
  predicate Investable(f: Fund, c: nat, user: int) {
    && c < |f.campaigns| && f.campaigns[c].status == Active && f.campaigns[c].owner != user
    && f.campaigns[c].raised < f.campaigns[c].goal
  }

  /** An investment under a new key is made exactly when the campaign is investable, the amount is positive and the
      investor's wallet may pay it into the pool; otherwise everything stays as it was. */
  lemma InvestAcceptedIff(f: Fund, c: nat, user: int, amount: int, key: string)
    requires Inv(f) && forall t :: 0 <= t < |f.wallet.txs| ==> f.wallet.txs[t].key != key
    ensures var (g, answer) := Invest(f, c, user, amount, key);
            && (answer.Ok? <==>
                  && Investable(f, c, user) && amount > 0
                  && var own := U.AccountFor(f.wallet, user);
                  W.Permitted(own.0, W.Call(own.1, f.campaigns[c].pool, W.Money(amount, W.XOF),
                                            W.Movement(W.Disbursement), W.Completed, key)))
            && (!answer.Ok? ==> g == f)
            && (answer.Ok? ==> g.investments == f.investments
                                 + [Investment(c, user, amount, Some(|f.wallet.txs|), None)])
  {
    if c < |f.campaigns| && amount >= 0 {
      var own := U.AccountFor(f.wallet, user);
      OpenedAccount(f.wallet, user);
      NewMoveIff(own.0, own.1, f.campaigns[c].pool, amount, W.Disbursement, key);
    }
  }

  /** A movement under a new key is made exactly when its amount is positive and the transfer permitted. */
  lemma NewMoveIff(w: W.Wallet, source: nat, destination: nat, amount: nat, purpose: W.Purpose, key: string)
    requires W.Owner(w.txs, key).None?
    ensures var o := Move(w, source, destination, amount, purpose, key);
            && (o.answer.Done? <==>
                  amount > 0 && W.Permitted(w, W.Call(source, destination, W.Money(amount, W.XOF),
                                                      W.Movement(purpose), W.Completed, key)))
            && (o.answer.Done? ==> o.answer.tx == |w.txs|)
  {
    var call := W.Call(source, destination, W.Money(amount, W.XOF), W.Movement(purpose), W.Completed, key);
    W.TransferMoves(w, call, source);
    W.RefusalIs(w, call);
    if Move(w, source, destination, amount, purpose, key).answer.Done? {
      NewKeyMovesPositive(w, source, destination, amount, purpose, key);
    }
  }

  /** An order under a new key is placed exactly for an active campaign of somebody else, with a positive amount that
      does not go beyond the goal, and a payment that is new and in a known status. Under a known key the same order
      is answered and another one is a conflict. */
  lemma OrderPlacedIff(f: Fund, c: nat, user: int, amount: int, key: string, payment: (string, StatusName))
    ensures var (g, answer) := PlaceOrder(f, c, user, amount, key, payment);
            var known := ByKey(f.orders, key);
            if known.Some? then
              var o := f.orders[known.value];
              && g == f
              && answer == if o.campaign == c && o.payer == user && o.amount == amount then Ok(known.value)
                           else No(KeyConflict)
            else
              && (answer.Ok? <==>
                    && c < |f.campaigns| && f.campaigns[c].status == Active && f.campaigns[c].owner != user
                    && 0 < amount <= f.campaigns[c].goal - f.campaigns[c].raised && payment.1.Known?
                    && forall o :: 0 <= o < |f.orders| ==> f.orders[o].intent != payment.0)
              && (!answer.Ok? ==> g == f)
              && (answer.Ok? ==>
                    g == f.(orders := f.orders + [PaymentOrder(c, user, payment.0, key, amount, f.campaigns[c].currency,
                                                               ReferenceOf(c, key), payment.1.status)]))
  {
  }

  /** A loan is requested by the owner of the campaign, for a positive amount over 1 to 60 months at no negative rate;
      it is pending, of the simulated terms and without installments. */
  lemma LoanRequestedIff(f: Fund, c: nat, user: int, amount: int, months: int, rate: real)
    ensures var (g, answer) := RequestLoan(f, c, user, amount, months, rate);
            && (answer.Ok? <==>
                  && c < |f.campaigns| && f.campaigns[c].owner == user
                  && amount > 0 && 1 <= months <= 60 && rate >= 0.0)
            && (!answer.Ok? ==> g == f)
            && (answer.Ok? ==>
                  && S.CalculateTerms(amount, months, rate).Some?
                  && g == f.(loans := f.loans + [L.Loan(c, user, amount, months,
                                                        S.CalculateTerms(amount, months, rate).value.total,
                                                        L.LoanPending, [])]))
  {
  }

  /** The installment that is next is the first one not settled. */
  predicate IsNext(loan: L.Loan, i: nat) {
    && i < |loan.rows| && loan.rows[i].amountPaid < loan.rows[i].amountDue
    && forall j :: 0 <= j < i ==> loan.rows[j].amountPaid >= loan.rows[j].amountDue
  }

  /** A repayment is accepted exactly from the borrower of a loan that was paid out, within its next installment, and
      when its key is known or the wallet may pay a positive amount into the pool. */
  lemma RepayAcceptedIff(f: Fund, l: nat, user: int, amount: nat, key: string)
    requires Inv(f)
    ensures var (g, answer) := Repay(f, l, user, amount, key);
            && (answer.Ok? <==>
                  && l < |f.loans| && f.loans[l].borrower == user && f.loans[l].status != L.LoanPending
                  && (exists i: nat :: IsNext(f.loans[l], i)
                                       && amount <= f.loans[l].rows[i].amountDue - f.loans[l].rows[i].amountPaid)
                  && (!(forall t :: 0 <= t < |f.wallet.txs| ==> f.wallet.txs[t].key != key)
                      || (amount > 0 && PoolMayTake(f, l, amount, key))))
            && (!answer.Ok? ==> g == f)
  {
    if l < |f.loans| {
      var own, pool := U.AccountFor(f.wallet, f.loans[l].borrower), f.campaigns[f.loans[l].campaign].pool;
      OpenedAccount(f.wallet, f.loans[l].borrower);
      if W.Owner(f.wallet.txs, key).None? { NewMoveIff(own.0, own.1, pool, amount, W.Repayment, key); }
      if f.loans[l].status != L.LoanPending {
        NextIsUnpaid(f.loans[l]);
        WithinNext(f.loans[l], amount);
      }
    }
  }

  predicate PoolMayTake(f: Fund, l: nat, amount: nat, key: string) {
    && l < |f.loans| && f.loans[l].campaign < |f.campaigns|
    && var own := U.AccountFor(f.wallet, f.loans[l].borrower);
    W.Permitted(own.0, W.Call(own.1, f.campaigns[f.loans[l].campaign].pool, W.Money(amount, W.XOF),
                              W.Movement(W.Repayment), W.Completed, key))
  }

  lemma NextIsUnpaid(loan: L.Loan)
    requires L.LoanOk(loan) && loan.status != L.LoanPending
    ensures forall i: nat :: IsNext(loan, i) <==> L.NextUnpaid(loan.rows) == Some(i)
  {
    forall j | 0 <= j < |loan.rows| ensures L.RowOk(loan.rows[j]) {}
  }

  lemma WithinNext(loan: L.Loan, amount: nat)
    requires L.LoanOk(loan) && loan.status != L.LoanPending
    ensures L.RepayRefusal(loan, amount).None?
            <==> exists i: nat :: IsNext(loan, i) && amount <= loan.rows[i].amountDue - loan.rows[i].amountPaid
  {
    NextIsUnpaid(loan);
    var next := L.NextUnpaid(loan.rows);
    if next.Some? { assert IsNext(loan, next.value); }
  }

  /** A loan that is pending is paid out exactly when the pool may pay its capital under the loan's own new key and
      its total is at least one unit a month. */
  lemma DisburseAcceptedIff(f: Fund, l: nat, start: S.Date)
    requires Inv(f) && l < |f.loans|
    requires forall t :: 0 <= t < |f.wallet.txs| ==> f.wallet.txs[t].key != DisbursementKey(l)
    ensures var (g, answer) := Disburse(f, l, start);
            && (answer.Ok? <==>
                  && f.loans[l].status == L.LoanPending && f.loans[l].total >= f.loans[l].months
                  && var own := U.AccountFor(f.wallet, f.loans[l].borrower);
                  f.loans[l].principal > 0
                  && W.Permitted(own.0, W.Call(f.campaigns[f.loans[l].campaign].pool, own.1,
                                               W.Money(f.loans[l].principal, W.XOF), W.Movement(W.Disbursement),
                                               W.Completed, DisbursementKey(l))))
            && (!answer.Ok? ==> g == f)
  {
    var loan := f.loans[l];
    var own, pool := U.AccountFor(f.wallet, loan.borrower), f.campaigns[loan.campaign].pool;
    OpenedAccount(f.wallet, loan.borrower);
    NewMoveIff(own.0, pool, own.1, loan.principal, W.Disbursement, DisbursementKey(l));
    if loan.status == L.LoanPending && PayOut(f, l).answer.Done? { DisburseRefusedIff(f, l, start); }
  }

  /** A campaign is created exactly with a positive goal: a draft that raised nothing, with a pool of its own that may
      not go below zero. */
  lemma CampaignCreatedIff(f: Fund, owner: int, title: string, goal: int, currency: string)
    ensures var (g, answer) := CreateCampaign(f, owner, title, goal, currency);
            && (answer.Ok? <==> goal > 0)
            && (!answer.Ok? ==> g == f)
            && (answer.Ok? ==>
                  && g.campaigns == f.campaigns + [Campaign(owner, goal, 0, currency, Draft, |f.wallet.accounts|)]
                  && |g.wallet.accounts| == |f.wallet.accounts| + 1 && PoolOk(g.wallet, |f.wallet.accounts|)
                  && g.wallet.accounts[|f.wallet.accounts|].currency == W.XOF
                  && g.wallet.entries == f.wallet.entries)
  {
  }
}
