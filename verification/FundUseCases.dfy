/** The fund's use cases, step by step on its tables, each proved to do what the fund's specification says. */
module FundUseCases {
  import opened Options
  import opened FundStore
  import W = WalletLedger
  import U = WalletUseCases
  import S = LoanSchedule
  import L = FundLoans

  class FundService {
    const wallets: U.WalletService
    var campaigns: seq<Campaign>
    var investments: seq<Investment>
    var orders: seq<PaymentOrder>
    var inbox: set<string>
    var loans: seq<L.Loan>

    constructor ()
      ensures Db() == NOTHING && fresh(wallets) && fresh(wallets.ledger)
    {
      wallets := new U.WalletService();
      campaigns, investments, orders, inbox, loans := [], [], [], {}, [];
    }

    function Db(): Fund
      reads this, wallets.ledger
    {
      Fund(wallets.ledger.State(), campaigns, investments, orders, inbox, loans)
    }

    /** The wallet port: a debit and a credit are the same movement seen from either side. */
    method MoveMoney(source: nat, destination: nat, amount: int, purpose: W.Purpose, key: string)
      returns (answer: W.Answer)
      modifies wallets.ledger
      ensures W.Outcome(wallets.ledger.State(), answer)
              == Move(old(wallets.ledger.State()), source, destination, amount, purpose, key)
    {
      if amount < 0 {
        return W.Refused(W.InvalidAmount);
      }
      var money := W.Money(amount, W.XOF);
      answer := wallets.ledger.TransferMoney(
        W.Call(source, destination, money, W.Movement(purpose), W.Completed, key));
      if answer.Done? {
        var t := answer.tx;
        wallets.ledger.txs := wallets.ledger.txs[t := wallets.ledger.txs[t].(money := Some(money))];
      }
    }

    method OpenCampaign(owner: int, title: string, goal: int, currency: string) returns (answer: Answer)
      modifies this, wallets.ledger
      ensures (Db(), answer) == CreateCampaign(old(Db()), owner, title, goal, currency)
    {
      var pool := |wallets.ledger.accounts|;
      if goal <= 0 {
        return No(StoreRefused);
      }
      wallets.ledger.accounts := wallets.ledger.accounts + [PoolAccount(title)];
      answer := Ok(|campaigns|);
      campaigns := campaigns + [Campaign(owner, goal, 0, currency, Draft, pool)];
    }

    method MakeInvestment(c: nat, user: int, amount: int, key: string) returns (answer: Answer)
      modifies this, wallets.ledger
      ensures (Db(), answer) == Invest(old(Db()), c, user, amount, key)
    {
      if c >= |campaigns| {
        return No(CampaignNotFound);
      }
      var campaign := campaigns[c];
      if campaign.status != Active {
        return No(CampaignNotActive);
      }
      if campaign.owner == user {
        return No(OwnCampaign);
      }
      if campaign.raised >= campaign.goal {
        return No(GoalReached);
      }
      var before := wallets.ledger.State();
      var account := wallets.AccountOf(user);
      var paid := MoveMoney(account, campaign.pool, amount, W.Disbursement, key);
      if paid.Refused? {
        wallets.RollBack(before);
        return No(InWallet(paid.error));
      }
      var already := ByTx(investments, paid.tx);
      if already.Some? {
        return Ok(already.value);
      }
      if amount <= 0 {
        wallets.RollBack(before);
        return No(StoreRefused);
      }
      answer := Ok(|investments|);
      investments := investments + [Investment(c, user, amount, Some(paid.tx), None)];
      campaigns := campaigns[c := campaign.(raised := campaign.raised + amount)];
    }

    method StartInvestment(c: nat, user: int, amount: int, key: string, payment: (string, StatusName))
      returns (answer: Answer)
      modifies this
      ensures (Db(), answer) == PlaceOrder(old(Db()), c, user, amount, key, payment)
    {
      var existing := ByKey(orders, key);
      if existing.Some? {
        var o := orders[existing.value];
        if o.campaign != c || o.payer != user || o.amount != amount {
          return No(KeyConflict);
        }
        return Ok(existing.value);
      }
      if c >= |campaigns| {
        return No(CampaignNotFound);
      }
      if campaigns[c].status != Active {
        return No(CampaignNotActive);
      }
      if campaigns[c].owner == user {
        return No(OwnCampaign);
      }
      var remaining := campaigns[c].goal - campaigns[c].raised;
      if remaining <= 0 || amount > remaining {
        return No(GoalReached);
      }
      var sameIntent := ByIntent(orders, payment.0);
      if payment.1.NotAStatus? || amount <= 0 || sameIntent.Some? {
        return No(StoreRefused);
      }
      answer := Ok(|orders|);
      orders := orders + [PaymentOrder(c, user, payment.0, key, amount, campaigns[c].currency, ReferenceOf(c, key),
                                       payment.1.status)];
    }

    method ReceiveEvent(e: Event) returns (answer: Answer)
      modifies this
      ensures (Db(), answer) == ApplyEvent(old(Db()), e)
    {
      if e.id in inbox {
        return Duplicate;
      }
      var before := inbox;
      inbox := inbox + {e.id};
      var found := ByIntent(orders, e.intent);
      if found.None? {
        inbox := before;
        return No(OrderNotFound);
      }
      var order := orders[found.value];
      if e.reference != order.reference {
        inbox := before;
        return No(ReferenceMismatch);
      }
      if e.amount != order.amount || e.currency != order.currency {
        inbox := before;
        return No(AmountMismatch);
      }
      if !e.succeeds {
        if e.status.None? {
          return Processed;
        }
        if e.status.value.NotAStatus? {
          inbox := before;
          return No(StoreRefused);
        }
        orders := orders[found.value := order.(status := e.status.value.status)];
        return Processed;
      }
      if order.status != Succeeded {
        if order.campaign >= |campaigns| {
          inbox := before;
          return No(CampaignNotFound);
        }
        if exists i :: 0 <= i < |investments| && investments[i].intent == Some(order.intent) {
          inbox := before;
          return No(StoreRefused);
        }
        investments := investments + [Investment(order.campaign, order.payer, order.amount, None, Some(order.intent))];
        var campaign := campaigns[order.campaign];
        campaigns := campaigns[order.campaign := campaign.(raised := campaign.raised + order.amount)];
        orders := orders[found.value := order.(status := Succeeded)];
      }
      return Processed;
    }

    method AskForLoan(c: nat, borrower: int, amount: int, months: int, rate: real) returns (answer: Answer)
      modifies this
      ensures (Db(), answer) == RequestLoan(old(Db()), c, borrower, amount, months, rate)
    {
      if c >= |campaigns| {
        return No(CampaignNotFound);
      }
      if campaigns[c].owner != borrower {
        return No(NotOwner);
      }
      var terms := S.CalculateTerms(amount, months, rate);
      if terms.None? {
        return No(InvalidTerms);
      }
      var t := terms.value;
      answer := Ok(|loans|);
      loans := loans + [L.Loan(c, borrower, t.principal, t.months, t.total, L.LoanPending, [])];
    }

    /** The installments of a schedule become rows; false when the store refuses one. */
    method AddInstallments(schedule: seq<S.Installment>) returns (rows: seq<L.Row>, ok: bool)
      ensures |rows| == |schedule| && forall i :: 0 <= i < |rows| ==> rows[i] == L.RowOf(schedule[i])
      ensures ok <==> L.RowsAccepted(rows)
    {
      rows, ok := [], true;
      for n := 0 to |schedule|
        invariant |rows| == n && forall i :: 0 <= i < n ==> rows[i] == L.RowOf(schedule[i])
        invariant ok <==> L.RowsAccepted(rows)
      {
        rows := rows + [L.RowOf(schedule[n])];
        ok := ok && schedule[n].amount > 0;
        assert rows[n].amountDue == schedule[n].amount;
      }
    }

    method PayOutLoan(l: nat, start: S.Date) returns (answer: Answer)
      modifies this, wallets.ledger
      ensures (Db(), answer) == Disburse(old(Db()), l, start)
    {
      if l >= |loans| {
        return No(LoanNotFound);
      }
      var loan := loans[l];
      if loan.status != L.LoanPending {
        return No(AlreadyDisbursed);
      }
      if loan.campaign >= |campaigns| {
        return No(CampaignNotFound);
      }
      var before := wallets.ledger.State();
      var account := wallets.AccountOf(loan.borrower);
      var paid := MoveMoney(campaigns[loan.campaign].pool, account, loan.principal, W.Disbursement, DisbursementKey(l));
      if paid.Refused? {
        wallets.RollBack(before);
        return No(InWallet(paid.error));
      }
      if loan.months <= 0 {
        wallets.RollBack(before);
        return No(StoreRefused);
      }
      var monthly := S.TruncatedMonthly(loan.total, loan.months);
      var schedule := S.BuildSchedule(S.Terms(loan.principal, loan.months, loan.total, monthly), start);
      var rows, accepted := AddInstallments(schedule);
      assert rows == L.RowsFor(loan, start);
      if !accepted {
        wallets.RollBack(before);
        return No(StoreRefused);
      }
      loans := loans[l := loan.(rows := rows, status := L.LoanDisbursed)];
      return Ok(l);
    }

    /** The repayment on the installment that is next, and the loan's status after it. */
    method CreditInstallment(l: nat, next: nat, amount: int)
      requires l < |loans| && L.RepayRefusal(loans[l], amount).None? && L.NextUnpaid(loans[l].rows) == Some(next)
      modifies this`loans
      ensures loans == old(loans)[l := L.Repaid(old(loans)[l], amount)]
    {
      var loan := loans[l];
      var row := loan.rows[next];
      row := row.(amountPaid := row.amountPaid + amount);
      if row.amountPaid >= row.amountDue {
        row := row.(status := L.RowPaid);
      }
      var rows, status := loan.rows[next := row], loan.status;
      if status == L.LoanDisbursed {
        status := L.LoanRepaying;
      }
      if L.NextUnpaid(rows).None? {
        status := L.LoanClosed;
      }
      loans := loans[l := loan.(rows := rows, status := status)];
    }

    method RepayLoan(l: nat, borrower: int, amount: int, key: string) returns (answer: Answer)
      modifies this, wallets.ledger
      ensures (Db(), answer) == Repay(old(Db()), l, borrower, amount, key)
    {
      if l >= |loans| || loans[l].borrower != borrower {
        return No(LoanNotFound);
      }
      var loan := loans[l];
      if loan.status == L.LoanPending {
        return No(NotDisbursed);
      }
      var next := L.NextUnpaid(loan.rows);
      if next.None? {
        return No(AllPaid);
      }
      var row := loan.rows[next.value];
      if amount > row.amountDue - row.amountPaid {
        return No(ExceedsInstallment);
      }
      if loan.campaign >= |campaigns| {
        return No(CampaignNotFound);
      }
      var before := wallets.ledger.State();
      var account := wallets.AccountOf(borrower);
      var paid := MoveMoney(account, campaigns[loan.campaign].pool, amount, W.Repayment, key);
      if paid.Refused? {
        wallets.RollBack(before);
        return No(InWallet(paid.error));
      }
      CreditInstallment(l, next.value, amount);
      return Ok(l);
    }
  }
}
