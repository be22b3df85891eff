/** Short runs from nothing that show where the fund falls short of its promises. */
module FundExamples {
  import opened Options
  import opened Sums
  import opened FundStore
  import opened FundSafety
  import opened FundTheorems
  import Runs
  import W = WalletLedger
  import U = WalletUseCases
  import V = WalletSafety
  import R = Rounding
  import S = LoanSchedule
  import L = FundLoans

  lemma RunSnoc(f: Fund, steps: seq<Step>, step: Step)
    ensures Run(f, steps + [step]) == Next(Run(f, steps), step)
  {
    Runs.Snoc(Run, Next, f, steps, step);
  }

  lemma {:induction false} LegalSnoc(f: Fund, steps: seq<Step>, step: Step)
    requires LegalRun(f, steps) && Legal(Run(f, steps), step)
    ensures LegalRun(f, steps + [step])
    decreases |steps|
  {
    if steps == [] {
      assert steps + [step] == [step] && [step][1..] == [];
    } else {
      assert (steps + [step])[1..] == steps[1..] + [step];
      LegalSnoc(Next(f, steps[0]), steps[1..], step);
    }
  }

  // --- An active campaign -----------------------------------------------------------------------------

  const RUNNING := Campaign(1, 1000, 0, "XOF", Active, 0)
  const OPENING := [StepCreate(1, "t", 1000, "XOF"), StepSetCampaign(0, Active)]

  lemma OpeningState()
    ensures LegalRun(NOTHING, OPENING)
    ensures Run(NOTHING, OPENING)
            == NOTHING.(wallet := W.Wallet([PoolAccount("t")], [], [], map[]), campaigns := [RUNNING])
  {
    RunSnoc(NOTHING, [], OPENING[0]);
    RunSnoc(NOTHING, [OPENING[0]], OPENING[1]);
    LegalSnoc(NOTHING, [], OPENING[0]);
    LegalSnoc(NOTHING, [OPENING[0]], OPENING[1]);
    assert [] + [OPENING[0]] == [OPENING[0]] && [OPENING[0]] + [OPENING[1]] == OPENING;
  }

  // --- A status before the success -----------------------------------------------------------------------

  const ORDERED := OPENING + [StepOrder(0, 2, 50, "key", ("intent", Known(Processing)))]

  function Told(): Event {
    Event("a", false, "intent", ReferenceOf(0, "key"), 50, "XOF", Some(Known(Succeeded)))
  }

  function Paid(): Event { Event("b", true, "intent", ReferenceOf(0, "key"), 50, "XOF", None) }

  function OrderAs(status: OrderStatus): PaymentOrder {
    PaymentOrder(0, 2, "intent", "key", 50, "XOF", ReferenceOf(0, "key"), status)
  }

  function OrderBooks(status: OrderStatus, inbox: set<string>): Fund {
    NOTHING.(wallet := W.Wallet([PoolAccount("t")], [], [], map[]), campaigns := [RUNNING], orders := [OrderAs(status)],
             inbox := inbox)
  }

  lemma OrderedState()
    ensures LegalRun(NOTHING, ORDERED) && Run(NOTHING, ORDERED) == OrderBooks(Processing, {})
  {
    OpeningState();
    var order := StepOrder(0, 2, 50, "key", ("intent", Known(Processing)));
    RunSnoc(NOTHING, OPENING, order);
    LegalSnoc(NOTHING, OPENING, order);
  }

  lemma ToldState()
    ensures Next(OrderBooks(Processing, {}), StepEvent(Told())) == OrderBooks(Succeeded, {"a"})
    ensures Next(OrderBooks(Succeeded, {"a"}), StepEvent(Paid())) == OrderBooks(Succeeded, {"a", "b"})
  {
    assert ByIntent([OrderAs(Processing)], "intent") == Some(0);
    assert ByIntent([OrderAs(Succeeded)], "intent") == Some(0);
    assert WithStatus([OrderAs(Processing)], 0, Succeeded) == [OrderAs(Succeeded)];
  }

  /** The investment is lost: the status comes first, the success second, the money never. */
  lemma StatusBeforeSuccessLosesInvestment()
    ensures var steps := ORDERED + [StepEvent(Told())] + [StepEvent(Paid())];
            && LegalRun(NOTHING, steps) && Run(NOTHING, steps) == OrderBooks(Succeeded, {"a", "b"})
            && OrderBooks(Succeeded, {"a", "b"}).investments == [] && RUNNING.raised == 0
  {
    OrderedState();
    ToldState();
    RunSnoc(NOTHING, ORDERED, StepEvent(Told()));
    RunSnoc(NOTHING, ORDERED + [StepEvent(Told())], StepEvent(Paid()));
    LegalSnoc(NOTHING, ORDERED, StepEvent(Told()));
    LegalSnoc(NOTHING, ORDERED + [StepEvent(Told())], StepEvent(Paid()));
  }

  // --- Known keys ----------------------------------------------------------------------------------------

  const DEPOSIT := V.StepDeposit(U.Order(2, "mtn", 500, false, "d"), "mode", U.Replied("p", U.GatewayCompleted))
  const FUNDED := OPENING + [StepWallet(DEPOSIT)]

  function Deposited(): W.Tx {
    W.Tx(W.Deposit, W.Completed, "d", Some(1), Some(W.Money(500, W.XOF)), Some("mode"), Some("p"), None)
  }

  function FundedWallet(): W.Wallet {
    W.Wallet([PoolAccount("t"), U.NewUserAccount(2), U.NewSuspense("mode", W.XOF)], [Deposited()],
             W.Under(0, W.PairOf(2, 1, W.Money(500, W.XOF))), map["mode" := 2])
  }

  function FundedFund(): Fund { NOTHING.(wallet := FundedWallet(), campaigns := [RUNNING]) }

  lemma FundedState()
    ensures LegalRun(NOTHING, FUNDED) && Run(NOTHING, FUNDED) == FundedFund()
  {
    OpeningState();
    RunSnoc(NOTHING, OPENING, StepWallet(DEPOSIT));
    LegalSnoc(NOTHING, OPENING, StepWallet(DEPOSIT));
    DepositState(Run(NOTHING, OPENING).wallet);
  }

  lemma DepositState(w: W.Wallet)
    requires w == W.Wallet([PoolAccount("t")], [], [], map[])
    ensures V.Next(w, DEPOSIT) == FundedWallet()
  {
    assert U.WalletOf(w.accounts, 2).None?;
    var row := U.PendingDeposit("d", 1, W.Money(500, W.XOF), "mode");
    var lines := W.PairOf(2, 1, W.Money(500, W.XOF));
    W.PairBalancedIff(lines);
    var ready := U.SuspenseFor(U.AccountFor(w, 2).0, "mode", W.XOF).0;
    assert ready.accounts == FundedWallet().accounts && ready.gateways == FundedWallet().gateways;
    var written := U.WithReference(ready.(txs := ready.txs + [row]), 0, "p");
    assert written.txs == [row.(providerReference := Some("p"))];
    var confirmed := U.Confirm(written, 0, "mode");
    assert confirmed.wallet.txs == [Deposited()];
    assert confirmed.wallet.entries == W.Under(0, lines);
  }

  /** An investment under the key of the investor's own deposit counts in full although nothing is paid. */
  lemma KnownKeyInvestsForNothing()
    ensures var f := Run(NOTHING, FUNDED + [StepInvest(0, 2, 100, "d")]);
            && f.campaigns == [RUNNING.(raised := 100)] && |f.investments| == 1
            && W.Balance(f.wallet.entries, 0) == 0 && Expected(f, 0) == 100
  {
    FundedState();
    RunSnoc(NOTHING, FUNDED, StepInvest(0, 2, 100, "d"));
    KnownKeyInvests(Run(NOTHING, FUNDED));
  }

  lemma KnownKeyInvests(f: Fund)
    requires f == FundedFund()
    ensures var g := Next(f, StepInvest(0, 2, 100, "d"));
            && g.campaigns == [RUNNING.(raised := 100)] && |g.investments| == 1
            && W.Balance(g.wallet.entries, 0) == 0 && Expected(g, 0) == 100
  {
    FundedLookups();
    var inv := Investment(0, 2, 100, Some(0), None);
    assert Next(f, StepInvest(0, 2, 100, "d")).investments == [] + [inv];
    SumAppend([], inv, WalletInto(0));
  }

  lemma FundedLookups()
    ensures var w := FundedWallet();
            && U.WalletOf(w.accounts, 2) == Some(1) && U.WalletOf(w.accounts, 1) == None
            && W.Owner(w.txs, "d") == Some(0) && W.Owner(w.txs, "i") == None
            && W.Balance(w.entries, 0) == 0 && W.Balance(w.entries, 1) == 500
  {
    W.BalanceUnder([], 0, W.PairOf(2, 1, W.Money(500, W.XOF)), 0);
    W.BalanceUnder([], 0, W.PairOf(2, 1, W.Money(500, W.XOF)), 1);
    assert [] + FundedWallet().entries == FundedWallet().entries;
  }

  // --- A loan repaid under a known key ---------------------------------------------------------------------

  const INVESTED := FUNDED + [StepInvest(0, 2, 200, "i")]

  function Moved(key: string, amount: nat): W.Tx {
    W.Header(W.Movement(W.Disbursement), W.Completed, key).(money := Some(W.Money(amount, W.XOF)))
  }

  function InvestedWallet(): W.Wallet {
    var w := FundedWallet();
    w.(txs := w.txs + [Moved("i", 200)], entries := w.entries + W.Under(1, W.PairOf(1, 0, W.Money(200, W.XOF))))
  }

  function InvestedFund(): Fund {
    NOTHING.(wallet := InvestedWallet(), campaigns := [RUNNING.(raised := 200)],
             investments := [Investment(0, 2, 200, Some(1), None)])
  }

  lemma InvestedState()
    ensures LegalRun(NOTHING, INVESTED) && Run(NOTHING, INVESTED) == InvestedFund()
  {
    FundedState();
    InvestStep(Run(NOTHING, FUNDED));
    RunSnoc(NOTHING, FUNDED, StepInvest(0, 2, 200, "i"));
    LegalSnoc(NOTHING, FUNDED, StepInvest(0, 2, 200, "i"));
  }

  lemma InvestStep(f: Fund)
    requires f == FundedFund()
    ensures Legal(f, StepInvest(0, 2, 200, "i")) && Next(f, StepInvest(0, 2, 200, "i")) == InvestedFund()
  {
    FundedLookups();
    MoveState(FundedWallet(), 1, 0, 200, "i");
  }

  /** A first movement between two active XOF accounts that is covered. */
  lemma MoveState(w: W.Wallet, source: nat, destination: nat, amount: nat, key: string)
    requires source < |w.accounts| && destination < |w.accounts| && amount > 0 && W.Owner(w.txs, key).None?
    requires w.accounts[source].status == W.Active && w.accounts[destination].status == W.Active
    requires w.accounts[source].currency == W.XOF && w.accounts[destination].currency == W.XOF
    requires W.Balance(w.entries, source) >= amount
    ensures Move(w, source, destination, amount, W.Disbursement, key)
            == W.Outcome(w.(txs := w.txs + [Moved(key, amount)],
                            entries := w.entries
                              + W.Under(|w.txs|, W.PairOf(source, destination, W.Money(amount, W.XOF)))),
                         W.Done(|w.txs|, false))
  {
    W.PairBalancedIff(W.PairOf(source, destination, W.Money(amount, W.XOF)));
    var header := W.Header(W.Movement(W.Disbursement), W.Completed, key);
    assert (w.txs + [header])[|w.txs| := Moved(key, amount)] == w.txs + [Moved(key, amount)];
  }

  const REQUESTED := INVESTED + [StepRequest(0, 1, 100, 1, 0.0)]
  const START := S.Date(2024, 1, 15)
  const LENT := REQUESTED + [StepDisburse(0, START)]

  function LoanAs(status: L.LoanStatus, rows: seq<L.Row>): L.Loan { L.Loan(0, 1, 100, 1, 100, status, rows) }

  function RowAs(paid: int, status: L.RowStatus): L.Row { L.Row(1, S.Date(2024, 2, 15), 100, paid, status) }

  lemma RequestedState()
    ensures LegalRun(NOTHING, REQUESTED)
    ensures Run(NOTHING, REQUESTED) == InvestedFund().(loans := [LoanAs(L.LoanPending, [])])
  {
    InvestedState();
    RunSnoc(NOTHING, INVESTED, StepRequest(0, 1, 100, 1, 0.0));
    LegalSnoc(NOTHING, INVESTED, StepRequest(0, 1, 100, 1, 0.0));
    assert 100.0 * (1.0 + 0.0 / 100.0) == 100.0 && 100.0 / 1.0 == 100.0;
    assert R.HalfUp(100.0) == 100;
    assert S.CalculateTerms(100, 1, 0.0) == Some(S.Terms(100, 1, 100, 100));
  }

  function LentWallet(): W.Wallet {
    var w := InvestedWallet();
    w.(accounts := w.accounts + [U.NewUserAccount(1)], txs := w.txs + [Moved(DisbursementKey(0), 100)],
       entries := w.entries + W.Under(2, W.PairOf(0, 3, W.Money(100, W.XOF))))
  }

  lemma InvestedLookups()
    ensures var w := InvestedWallet();
            && U.WalletOf(w.accounts, 1) == None && W.Owner(w.txs, DisbursementKey(0)).None?
            && W.Balance(w.entries, 0) == 200
  {
    FundedLookups();
    assert |DisbursementKey(0)| > 1;
    W.BalanceUnder(FundedWallet().entries, 1, W.PairOf(1, 0, W.Money(200, W.XOF)), 0);
    assert InvestedWallet().accounts == FundedWallet().accounts;
  }

  function LentFund(): Fund {
    InvestedFund().(wallet := LentWallet(), loans := [LoanAs(L.LoanDisbursed, [RowAs(0, L.RowDue)])])
  }

  lemma LentState()
    ensures LegalRun(NOTHING, LENT) && Run(NOTHING, LENT) == LentFund()
  {
    RequestedState();
    DisburseStep(Run(NOTHING, REQUESTED));
    RunSnoc(NOTHING, REQUESTED, StepDisburse(0, START));
    LegalSnoc(NOTHING, REQUESTED, StepDisburse(0, START));
  }

  lemma DisburseStep(f: Fund)
    requires f == InvestedFund().(loans := [LoanAs(L.LoanPending, [])])
    ensures Legal(f, StepDisburse(0, START)) && Next(f, StepDisburse(0, START)) == LentFund()
  {
    InvestedLookups();
    var own := U.AccountFor(InvestedWallet(), 1);
    MoveState(own.0, 0, own.1, 100, DisbursementKey(0));
    FirstRow();
  }

  lemma FirstRow()
    ensures L.RowsFor(LoanAs(L.LoanPending, []), START) == [RowAs(0, L.RowDue)]
  {
    assert S.AddMonths(START, 1) == S.Date(2024, 2, 15);
    assert S.TruncatedMonthly(100, 1) == 100;
  }

  /** A loan repaid under the key of somebody's deposit is closed although the pool gets nothing back. */
  lemma KnownKeyRepaysForNothing()
    ensures var f := Run(NOTHING, LENT + [StepRepay(0, 1, 100, "d")]);
            && f.loans == [LoanAs(L.LoanClosed, [RowAs(100, L.RowPaid)])]
            && W.Balance(f.wallet.entries, 0) == 100 && Expected(f, 0) == 200
  {
    LentState();
    RunSnoc(NOTHING, LENT, StepRepay(0, 1, 100, "d"));
    KnownKeyRepays(Run(NOTHING, LENT));
  }

  lemma KnownKeyRepays(f: Fund)
    requires f == LentFund()
    ensures var g := Next(f, StepRepay(0, 1, 100, "d"));
            && g.loans == [LoanAs(L.LoanClosed, [RowAs(100, L.RowPaid)])]
            && W.Balance(g.wallet.entries, 0) == 100 && Expected(g, 0) == 200
  {
    LentLookups();
    var g := Next(f, StepRepay(0, 1, 100, "d"));
    RepaidState();
    assert PayBack(f, 0, 100, "d").answer == W.Done(0, true);
    assert g.loans == [LoanAs(L.LoanClosed, [RowAs(100, L.RowPaid)])];
    ExpectedAfter(g);
  }

  lemma RepaidState()
    ensures var loan := LoanAs(L.LoanDisbursed, [RowAs(0, L.RowDue)]);
            && L.RepayRefusal(loan, 100).None?
            && L.Repaid(loan, 100) == LoanAs(L.LoanClosed, [RowAs(100, L.RowPaid)])
  {
    assert L.NextUnpaid([RowAs(0, L.RowDue)]) == Some(0);
    assert L.NextUnpaid([RowAs(100, L.RowPaid)]) == None;
    assert [RowAs(0, L.RowDue)][0 := RowAs(100, L.RowPaid)] == [RowAs(100, L.RowPaid)];
  }

  lemma LentLookups()
    ensures var w := LentWallet();
            U.WalletOf(w.accounts, 1) == Some(3) && W.Owner(w.txs, "d") == Some(0) && W.Balance(w.entries, 0) == 100
  {
    InvestedLookups();
    assert |DisbursementKey(0)| > 1;
    assert W.Owner(LentWallet().txs[..2], "d") == Some(0) by { assert LentWallet().txs[..2][..1] == [Deposited()]; }
    W.BalanceUnder(InvestedWallet().entries, 2, W.PairOf(0, 3, W.Money(100, W.XOF)), 0);
  }

  lemma ExpectedAfter(f: Fund)
    requires f.investments == [Investment(0, 2, 200, Some(1), None)]
    requires f.loans == [LoanAs(L.LoanClosed, [RowAs(100, L.RowPaid)])]
    ensures Expected(f, 0) == 200
  {
    assert f.investments == [] + [f.investments[0]] && f.loans == [] + [f.loans[0]];
    SumAppend([], f.investments[0], WalletInto(0));
    SumAppend([], f.loans[0], Lent(0));
    SumAppend([], f.loans[0], PaidBack(0));
    assert f.loans[0].rows == [] + [RowAs(100, L.RowPaid)];
    SumAppend([], RowAs(100, L.RowPaid), L.PaidOf);
  }
}
