/** What every run of the fund keeps: raised amounts match the investments, loans match their installments, and
    each pool's wallet holds exactly what the fund's own books say. */
module FundSafety {
  import opened Options
  import opened Sums
  import opened FundStore
  import W = WalletLedger
  import U = WalletUseCases
  import V = WalletSafety
  import S = LoanSchedule
  import L = FundLoans

  // --- Books -----------------------------------------------------------------------------------------

  function Into(c: nat): Investment -> int { (i: Investment) => if i.campaign == c then i.amount else 0 }

  predicate RaisedOk(f: Fund, c: nat)
    requires c < |f.campaigns|
  {
    f.campaigns[c].raised == SumBy(f.investments, Into(c))
  }

  /** Nobody orders an investment in a campaign of his own. */
  predicate OrdersOk(f: Fund) {
    && (forall o :: 0 <= o < |f.orders| ==>
          && f.orders[o].campaign < |f.campaigns| && f.orders[o].amount > 0
          && f.orders[o].payer != f.campaigns[f.orders[o].campaign].owner)
    && (forall o, p :: 0 <= o < p < |f.orders| ==> f.orders[o].intent != f.orders[p].intent)
  }

  /** An investment is not the owner's own; one through an order is that order's, for its campaign and amount and in
      the name of its payer. */
  predicate InvestmentOk(f: Fund, i: nat)
    requires i < |f.investments|
  {
    var inv := f.investments[i];
    && inv.campaign < |f.campaigns| && inv.amount > 0 && (inv.tx.Some? <==> inv.intent.None?)
    && inv.investor != f.campaigns[inv.campaign].owner
    && (inv.intent.Some? ==>
          var o := ByIntent(f.orders, inv.intent.value);
          o.Some? && f.orders[o.value].campaign == inv.campaign && f.orders[o.value].amount == inv.amount
          && f.orders[o.value].payer == inv.investor)
  }

  predicate UniqueSources(investments: seq<Investment>) {
    forall i, j :: 0 <= i < j < |investments| ==>
      (investments[i].intent.Some? ==> investments[i].intent != investments[j].intent)
      && (investments[i].tx.Some? ==> investments[i].tx != investments[j].tx)
  }

  predicate Books(f: Fund) {
    && OrdersOk(f) && UniqueSources(f.investments)
    && (forall i :: 0 <= i < |f.investments| ==> InvestmentOk(f, i))
    && (forall c :: 0 <= c < |f.campaigns| ==> RaisedOk(f, c))
  }

  /** A loan is the owner's of its campaign. */
  predicate LoansOk(f: Fund) {
    forall l :: 0 <= l < |f.loans| ==>
      && f.loans[l].campaign < |f.campaigns| && L.LoanOk(f.loans[l])
      && f.loans[l].borrower == f.campaigns[f.loans[l].campaign].owner
  }

  // --- Pools -----------------------------------------------------------------------------------------

  predicate PoolOk(w: W.Wallet, p: nat) {
    && p < |w.accounts| && w.accounts[p].kind == W.Technical && !w.accounts[p].allowsNegative
    && w.accounts[p].reference.Some? && w.accounts[p].reference.value.Other?
  }

  function WalletInto(c: nat): Investment -> int {
    (i: Investment) => if i.campaign == c && i.tx.Some? then i.amount else 0
  }

  function Lent(c: nat): L.Loan -> int {
    (l: L.Loan) => if l.campaign == c && l.status != L.LoanPending then l.principal else 0
  }

  function PaidBack(c: nat): L.Loan -> int { (l: L.Loan) => if l.campaign == c then L.TotalPaid(l) else 0 }

  /** What a pool should hold: what wallets invested, less what was lent, plus what was paid back. */
  function Expected(f: Fund, c: nat): int {
    SumBy(f.investments, WalletInto(c)) - SumBy(f.loans, Lent(c)) + SumBy(f.loans, PaidBack(c))
  }

  predicate PoolHolds(f: Fund, c: nat)
    requires c < |f.campaigns|
  {
    W.Balance(f.wallet.entries, f.campaigns[c].pool) == Expected(f, c)
  }

  predicate PoolsApart(f: Fund) {
    && (forall c :: 0 <= c < |f.campaigns| ==> PoolOk(f.wallet, f.campaigns[c].pool))
    && (forall c, d :: 0 <= c < d < |f.campaigns| ==> f.campaigns[c].pool != f.campaigns[d].pool)
  }

  predicate PaidByMovements(f: Fund) {
    forall i :: 0 <= i < |f.investments| && f.investments[i].tx.Some? ==>
      f.investments[i].tx.value < |f.wallet.txs| && f.wallet.txs[f.investments[i].tx.value].kind.Movement?
  }

  predicate Pools(f: Fund) {
    && V.Inv(f.wallet) && PoolsApart(f) && PaidByMovements(f)
    && (forall c :: 0 <= c < |f.campaigns| ==> PoolHolds(f, c))
  }

  predicate Inv(f: Fund) { Books(f) && LoansOk(f) && Pools(f) }

  /** Keys name one operation: a wallet investment brings a new key or repeats an earlier investment's; a loan's
      repayments and its disbursement bring new ones. Only the fund moves the pools. */
  predicate KeyFits(f: Fund, step: Step) {
    match step
    case StepInvest(_, _, _, key) =>
      var t := W.Owner(f.wallet.txs, key);
      t.None? || ByTx(f.investments, t.value).Some?
    case StepDisburse(l, _) => W.Owner(f.wallet.txs, DisbursementKey(l)).None?
    case StepRepay(_, _, _, key) => W.Owner(f.wallet.txs, key).None?
    case _ => true
  }

  predicate Legal(f: Fund, step: Step) {
    && KeyFits(f, step)
    && (step.StepWallet? ==>
          V.Legal(step.step) && forall c :: 0 <= c < |f.campaigns| ==> f.campaigns[c].pool !in V.Named(step.step))
  }

  predicate LegalRun(f: Fund, steps: seq<Step>)
    decreases |steps|
  {
    steps == [] || (Legal(f, steps[0]) && LegalRun(Next(f, steps[0]), steps[1..]))
  }

  // --- Books over the steps -----------------------------------------------------------------------------

  lemma IntentStays(orders: seq<PaymentOrder>, after: seq<PaymentOrder>, intent: string)
    requires |orders| <= |after| && ByIntent(orders, intent).Some?
    requires forall o :: 0 <= o < |orders| ==> after[o].intent == orders[o].intent
    requires forall o, p :: 0 <= o < p < |after| ==> after[o].intent != after[p].intent
    ensures ByIntent(after, intent) == ByIntent(orders, intent)
  {
    var o := ByIntent(orders, intent).value;
    assert after[o].intent == intent;
  }

  /** Orders that are added or change status leave the investments in place. */
  lemma OrdersKeep(f: Fund, orders: seq<PaymentOrder>)
    requires Books(f) && OrdersOk(f.(orders := orders)) && |f.orders| <= |orders|
    requires forall o :: 0 <= o < |f.orders| ==> orders[o] == f.orders[o].(status := orders[o].status)
    ensures Books(f.(orders := orders))
  {
    var g := f.(orders := orders);
    forall i | 0 <= i < |g.investments| ensures InvestmentOk(g, i) {
      assert InvestmentOk(f, i);
      if f.investments[i].intent.Some? { IntentStays(f.orders, orders, f.investments[i].intent.value); }
    }
    forall c | 0 <= c < |g.campaigns| ensures RaisedOk(g, c) { assert RaisedOk(f, c); }
  }

  lemma InvestmentAddedKeeps(f: Fund, inv: Investment)
    requires Books(f)
    requires InvestmentOk(f.(investments := f.investments + [inv]), |f.investments|)
    requires UniqueSources(f.investments + [inv])
    ensures Books(f.(investments := f.investments + [inv], campaigns := Raise(f.campaigns, inv.campaign, inv.amount)))
  {
    var g := f.(investments := f.investments + [inv], campaigns := Raise(f.campaigns, inv.campaign, inv.amount));
    forall i | 0 <= i < |g.investments| ensures InvestmentOk(g, i) {
      if i < |f.investments| { assert InvestmentOk(f, i); }
    }
    forall c | 0 <= c < |g.campaigns| ensures RaisedOk(g, c) {
      assert RaisedOk(f, c);
      SumAppend(f.investments, inv, Into(c));
    }
  }

  /** Whatever else a step touches, the books only look at amounts, sources, orders and owners. */
  lemma SameBooks(f: Fund, g: Fund)
    requires Books(f) && g.investments == f.investments && g.orders == f.orders && |g.campaigns| == |f.campaigns|
    requires forall c :: 0 <= c < |f.campaigns| ==>
               g.campaigns[c].raised == f.campaigns[c].raised && g.campaigns[c].owner == f.campaigns[c].owner
    ensures Books(g)
  {
    forall i | 0 <= i < |g.investments| ensures InvestmentOk(g, i) { assert InvestmentOk(f, i); }
    forall c | 0 <= c < |g.campaigns| ensures RaisedOk(g, c) { assert RaisedOk(f, c); }
  }

  lemma NewCampaignKeepsBooks(f: Fund, g: Fund, campaign: Campaign)
    requires Books(f) && g.investments == f.investments && g.orders == f.orders
    requires g.campaigns == f.campaigns + [campaign] && campaign.raised == 0
    ensures Books(g)
  {
    forall i | 0 <= i < |g.investments| ensures InvestmentOk(g, i) { assert InvestmentOk(f, i); }
    forall i | 0 <= i < |f.investments| ensures Into(|f.campaigns|)(f.investments[i]) == 0 {
      assert InvestmentOk(f, i);
    }
    SumZero(f.investments, Into(|f.campaigns|));
    forall c | 0 <= c < |g.campaigns| ensures RaisedOk(g, c) {
      if c < |f.campaigns| { assert RaisedOk(f, c); }
    }
  }

  lemma EventKeepsBooks(f: Fund, e: Event)
    requires Books(f)
    ensures Books(ApplyEvent(f, e).0)
  {
    var (g, answer) := ApplyEvent(f, e);
    if answer == Processed {
      var i := ByIntent(f.orders, e.intent).value;
      var order, noted := f.orders[i], f.(inbox := f.inbox + {e.id});
      SameBooks(f, noted);
      if g.investments != f.investments {
        var inv := Investment(order.campaign, order.payer, order.amount, None, Some(order.intent));
        assert f.investments + [inv] == g.investments;
        OrderInvestmentFits(noted, inv, i);
        InvestmentAddedKeeps(noted, inv);
        var invested := noted.(investments := g.investments, campaigns := g.campaigns);
        OrdersKeep(invested, g.orders);
        assert invested.(orders := g.orders) == g;
      } else if g.orders != f.orders {
        OrdersKeep(noted, g.orders);
        assert noted.(orders := g.orders) == g;
      }
    }
  }

  lemma OrderInvestmentFits(f: Fund, inv: Investment, o: nat)
    requires Books(f) && o < |f.orders| && ByIntent(f.orders, f.orders[o].intent) == Some(o)
    requires var order := f.orders[o];
             inv == Investment(order.campaign, order.payer, order.amount, None, Some(order.intent))
    requires !Invested(f.investments, f.orders[o].intent)
    ensures InvestmentOk(f.(investments := f.investments + [inv]), |f.investments|)
    ensures UniqueSources(f.investments + [inv])
  {
    forall i | 0 <= i < |f.investments| ensures f.investments[i].intent != inv.intent {}
  }

  lemma InvestKeepsBooks(f: Fund, c: nat, user: int, amount: int, key: string)
    requires Books(f)
    ensures Books(Invest(f, c, user, amount, key).0)
  {
    var (g, answer) := Invest(f, c, user, amount, key);
    if answer.Ok? {
      var paid := PayIn(f, c, user, amount, key);
      var moved := f.(wallet := paid.wallet);
      SameBooks(f, moved);
      if ByTx(f.investments, paid.answer.tx).None? {
        var inv := Investment(c, user, amount, Some(paid.answer.tx), None);
        InvestmentAddedKeeps(moved, inv);
        assert g == moved.(investments := f.investments + [inv], campaigns := Raise(f.campaigns, c, amount));
      }
    }
  }

  lemma NewOrderFits(f: Fund, o: PaymentOrder)
    requires OrdersOk(f) && ByIntent(f.orders, o.intent).None? && o.campaign < |f.campaigns| && o.amount > 0
    requires o.payer != f.campaigns[o.campaign].owner
    ensures OrdersOk(f.(orders := f.orders + [o]))
  {
  }

  lemma OrderKeepsBooks(f: Fund, c: nat, user: int, amount: int, key: string, payment: (string, StatusName))
    requires Books(f)
    ensures Books(PlaceOrder(f, c, user, amount, key, payment).0)
  {
    var g := PlaceOrder(f, c, user, amount, key, payment).0;
    if g != f {
      var o := g.orders[|f.orders|];
      assert g == f.(orders := f.orders + [o]);
      NewOrderFits(f, o);
      OrdersKeep(f, f.orders + [o]);
    }
  }

  lemma NextKeepsBooks(f: Fund, step: Step)
    requires Books(f)
    ensures Books(Next(f, step))
  {
    var g := Next(f, step);
    match step
    case StepCreate(owner, title, goal, currency) =>
      if goal > 0 { NewCampaignKeepsBooks(f, g, g.campaigns[|f.campaigns|]); }
    case StepSetCampaign(c, to) => SameBooks(f, g);
    case StepInvest(c, user, amount, key) => InvestKeepsBooks(f, c, user, amount, key);
    case StepOrder(c, user, amount, key, payment) =>
      OrderKeepsBooks(f, c, user, amount, key, payment);
    case StepEvent(e) => EventKeepsBooks(f, e);
    case StepRequest(_, _, _, _, _) => SameBooks(f, g);
    case StepDisburse(_, _) => SameBooks(f, g);
    case StepRepay(_, _, _, _) => SameBooks(f, g);
    case StepWallet(_) => SameBooks(f, g);
  }

  // --- Loans over the steps ---------------------------------------------------------------------------------

  /** Under a new key only a positive amount moves. */
  lemma NewKeyMovesPositive(w: W.Wallet, source: nat, destination: nat, amount: int, purpose: W.Purpose, key: string)
    requires W.Owner(w.txs, key).None? && Move(w, source, destination, amount, purpose, key).answer.Done?
    ensures amount > 0 && Move(w, source, destination, amount, purpose, key).answer.tx == |w.txs|
  {
    var lines := W.PairOf(source, destination, W.Money(amount, W.XOF));
    W.PairBalancedIff(lines);
  }

  lemma DisburseKeepsLoans(f: Fund, l: nat, start: S.Date)
    requires LoansOk(f)
    ensures LoansOk(Disburse(f, l, start).0)
  {
    if Disburse(f, l, start).1.Ok? { L.DisbursementSetsSchedule(f.loans[l], start); }
  }

  lemma RepayKeepsLoans(f: Fund, l: nat, user: int, amount: int, key: string)
    requires LoansOk(f)
    ensures LoansOk(Repay(f, l, user, amount, key).0)
  {
    if Repay(f, l, user, amount, key).1.Ok? { L.RepaymentPays(f.loans[l], amount); }
  }

  lemma RequestKeepsLoans(f: Fund, c: nat, user: int, amount: int, months: int, rate: real)
    requires LoansOk(f)
    ensures LoansOk(RequestLoan(f, c, user, amount, months, rate).0)
  {
    if S.CalculateTerms(amount, months, rate).Some? { S.TermsAreAtLeastPrincipal(amount, months, rate); }
  }

  lemma SameLoans(f: Fund, g: Fund)
    requires LoansOk(f) && g.loans == f.loans && |f.campaigns| <= |g.campaigns|
    requires forall c :: 0 <= c < |f.campaigns| ==> g.campaigns[c].owner == f.campaigns[c].owner
    ensures LoansOk(g)
  {
  }

  lemma NextKeepsLoans(f: Fund, step: Step)
    requires LoansOk(f)
    ensures LoansOk(Next(f, step))
  {
    match step
    case StepDisburse(l, start) => DisburseKeepsLoans(f, l, start);
    case StepRepay(l, user, amount, key) => RepayKeepsLoans(f, l, user, amount, key);
    case StepRequest(c, user, amount, months, rate) => RequestKeepsLoans(f, c, user, amount, months, rate);
    case StepCreate(_, _, _, _) => SameLoans(f, Next(f, step));
    case StepSetCampaign(_, _) => SameLoans(f, Next(f, step));
    case StepInvest(_, _, _, _) => SameLoans(f, Next(f, step));
    case StepOrder(_, _, _, _, _) => SameLoans(f, Next(f, step));
    case StepEvent(_) => SameLoans(f, Next(f, step));
    case StepWallet(_) => SameLoans(f, Next(f, step));
  }

  /** Books and loans are kept by every run, whatever keys are used. */
  lemma {:induction false} BooksAndLoansAlways(f: Fund, steps: seq<Step>)
    requires Books(f) && LoansOk(f)
    ensures Books(Run(f, steps)) && LoansOk(Run(f, steps))
    decreases |steps|
  {
    if steps != [] {
      NextKeepsBooks(f, steps[0]);
      NextKeepsLoans(f, steps[0]);
      BooksAndLoansAlways(Next(f, steps[0]), steps[1..]);
    }
  }

  // --- Pools over the steps -----------------------------------------------------------------------------------

  predicate OnlyMovement(w: W.Wallet, key: string) {
    var t := W.Owner(w.txs, key);
    t.Some? ==> w.txs[t.value].kind.Movement?
  }

  lemma MoveKeeps(w: W.Wallet, source: nat, destination: nat, amount: int, purpose: W.Purpose, key: string)
    requires V.Inv(w) && OnlyMovement(w, key) && Move(w, source, destination, amount, purpose, key).answer.Done?
    ensures var o := Move(w, source, destination, amount, purpose, key);
            && V.Inv(o.wallet) && o.wallet.accounts == w.accounts && |w.txs| <= |o.wallet.txs|
            && (forall t :: 0 <= t < |w.txs| ==> o.wallet.txs[t].kind == w.txs[t].kind)
            && o.answer.tx < |o.wallet.txs| && o.wallet.txs[o.answer.tx].kind.Movement?
            && o.answer.tx == (var t := W.Owner(w.txs, key); if t.Some? then t.value else |w.txs|)
  {
    var c := W.Call(source, destination, W.Money(amount, W.XOF), W.Movement(purpose), W.Completed, key);
    var moved := W.Transfer(w, c);
    V.TransferKeeps(w, c);
    assert W.Owner(w.txs, key).None? ==> moved.wallet.txs == w.txs + [W.Header(c.kind, c.status, c.key)];
    V.SameRowsKeep(moved.wallet, WithMoney(moved.wallet, moved.answer.tx, c.money));
  }

  /** Any account's balance after a movement: shifted when the key is new, else the same. */
  lemma MoveShifts(w: W.Wallet, source: nat, destination: nat, amount: int, purpose: W.Purpose, key: string, a: nat)
    requires Move(w, source, destination, amount, purpose, key).answer.Done?
    ensures var first := W.Owner(w.txs, key).None?;
            W.Balance(Move(w, source, destination, amount, purpose, key).wallet.entries, a)
            == W.Balance(w.entries, a) - (if first && a == source then amount else 0)
                 + (if first && a == destination then amount else 0)
  {
    W.TransferMoves(w, W.Call(source, destination, W.Money(amount, W.XOF), W.Movement(purpose), W.Completed, key), a);
  }

  lemma OpenedAccount(w: W.Wallet, user: int)
    requires V.Inv(w)
    ensures var own := U.AccountFor(w, user);
            && V.Inv(own.0) && own.0.txs == w.txs && own.0.entries == w.entries && w.accounts <= own.0.accounts
            && !PoolOk(own.0, own.1)
            && (forall p :: 0 <= p < |w.accounts| ==> (PoolOk(own.0, p) <==> PoolOk(w, p)))
  {
    V.AccountForKeeps(w, user);
  }

  /** The books fit the pool again when the wallet and the books of one campaign shift by the same amount. */
  lemma PoolShifted(f: Fund, g: Fund, c: nat, shift: int)
    requires Pools(f) && c < |f.campaigns| && |g.campaigns| == |f.campaigns|
    requires forall d :: 0 <= d < |f.campaigns| ==> g.campaigns[d].pool == f.campaigns[d].pool
    requires f.wallet.accounts <= g.wallet.accounts && V.Inv(g.wallet) && PaidByMovements(g)
    requires forall d :: 0 <= d < |f.campaigns| ==>
               W.Balance(g.wallet.entries, f.campaigns[d].pool)
               == W.Balance(f.wallet.entries, f.campaigns[d].pool) + (if d == c then shift else 0)
    requires forall d: nat :: Expected(g, d) == Expected(f, d) + (if d == c then shift else 0)
    ensures Pools(g)
  {
    forall d | 0 <= d < |g.campaigns| ensures PoolHolds(g, d) { assert PoolHolds(f, d); }
  }

  lemma InvestKeepsPools(f: Fund, c: nat, user: int, amount: int, key: string)
    requires Pools(f) && KeyFits(f, StepInvest(c, user, amount, key))
    ensures Pools(Invest(f, c, user, amount, key).0)
  {
    var (g, answer) := Invest(f, c, user, amount, key);
    if answer.Ok? {
      var own, pool := U.AccountFor(f.wallet, user), f.campaigns[c].pool;
      var paid := PayIn(f, c, user, amount, key);
      OpenedAccount(f.wallet, user);
      MoveKeeps(own.0, own.1, pool, amount, W.Disbursement, key);
      var first := W.Owner(f.wallet.txs, key).None?;
      var shift := if first then amount else 0;
      forall d | 0 <= d < |f.campaigns|
        ensures W.Balance(g.wallet.entries, f.campaigns[d].pool)
                == W.Balance(f.wallet.entries, f.campaigns[d].pool) + (if d == c then shift else 0)
      {
        MoveShifts(own.0, own.1, pool, amount, W.Disbursement, key, f.campaigns[d].pool);
        assert f.campaigns[d].pool == pool ==> d == c;
      }
      InvestExpected(f, c, user, amount, key);
      PoolShifted(f, g, c, shift);
    }
  }

  /** The wallet transaction an investment ends up with, and the row that a new one adds. */
  lemma InvestRow(f: Fund, c: nat, user: int, amount: int, key: string)
    requires Pools(f) && KeyFits(f, StepInvest(c, user, amount, key)) && Invest(f, c, user, amount, key).1.Ok?
    ensures var g, paid := Invest(f, c, user, amount, key).0, PayIn(f, c, user, amount, key);
            && g.wallet == paid.wallet && paid.answer.Done? && paid.answer.tx < |g.wallet.txs|
            && g.wallet.txs[paid.answer.tx].kind.Movement? && |f.wallet.txs| <= |g.wallet.txs|
            && (forall t :: 0 <= t < |f.wallet.txs| ==> g.wallet.txs[t].kind == f.wallet.txs[t].kind)
            && g.investments == if W.Owner(f.wallet.txs, key).None?
                                then f.investments + [Investment(c, user, amount, Some(paid.answer.tx), None)]
                                else f.investments
  {
    var own := U.AccountFor(f.wallet, user);
    OpenedAccount(f.wallet, user);
    MoveKeeps(own.0, own.1, f.campaigns[c].pool, amount, W.Disbursement, key);
  }

  lemma InvestExpected(f: Fund, c: nat, user: int, amount: int, key: string)
    requires Pools(f) && KeyFits(f, StepInvest(c, user, amount, key)) && Invest(f, c, user, amount, key).1.Ok?
    ensures var g := Invest(f, c, user, amount, key).0;
            && PaidByMovements(g)
            && forall d: nat :: Expected(g, d)
                 == Expected(f, d) + (if d == c && W.Owner(f.wallet.txs, key).None? then amount else 0)
  {
    InvestRow(f, c, user, amount, key);
    var inv := Investment(c, user, amount, Some(PayIn(f, c, user, amount, key).answer.tx), None);
    forall d: nat
      ensures SumBy(f.investments + [inv], WalletInto(d))
              == SumBy(f.investments, WalletInto(d)) + (if d == c then amount else 0)
    {
      SumAppend(f.investments, inv, WalletInto(d));
    }
  }

  lemma DisburseKeepsPools(f: Fund, l: nat, start: S.Date)
    requires Pools(f) && KeyFits(f, StepDisburse(l, start)) && LoansOk(f)
    ensures Pools(Disburse(f, l, start).0)
  {
    var (g, answer) := Disburse(f, l, start);
    if answer.Ok? {
      var loan := f.loans[l];
      var c := loan.campaign;
      var own, pool := U.AccountFor(f.wallet, loan.borrower), f.campaigns[c].pool;
      OpenedAccount(f.wallet, loan.borrower);
      MoveKeeps(own.0, pool, own.1, loan.principal, W.Disbursement, DisbursementKey(l));
      forall d | 0 <= d < |f.campaigns|
        ensures W.Balance(g.wallet.entries, f.campaigns[d].pool)
                == W.Balance(f.wallet.entries, f.campaigns[d].pool) + (if d == c then -loan.principal else 0)
      {
        MoveShifts(own.0, pool, own.1, loan.principal, W.Disbursement, DisbursementKey(l), f.campaigns[d].pool);
        assert f.campaigns[d].pool == pool ==> d == c;
      }
      L.DisbursementSetsSchedule(loan, start);
      forall d: nat ensures Expected(g, d) == Expected(f, d) + (if d == c then -loan.principal else 0) {
        SumUpdate(f.loans, l, g.loans[l], Lent(d));
        SumUpdate(f.loans, l, g.loans[l], PaidBack(d));
        assert L.TotalPaid(loan) == 0;
      }
      PoolShifted(f, g, c, -loan.principal);
    }
  }

  lemma RepayKeepsPools(f: Fund, l: nat, user: int, amount: int, key: string)
    requires Pools(f) && KeyFits(f, StepRepay(l, user, amount, key)) && LoansOk(f)
    ensures Pools(Repay(f, l, user, amount, key).0)
  {
    var (g, answer) := Repay(f, l, user, amount, key);
    if answer.Ok? {
      var loan := f.loans[l];
      var c := loan.campaign;
      var own, pool := U.AccountFor(f.wallet, loan.borrower), f.campaigns[c].pool;
      OpenedAccount(f.wallet, loan.borrower);
      NewKeyMovesPositive(own.0, own.1, pool, amount, W.Repayment, key);
      MoveKeeps(own.0, own.1, pool, amount, W.Repayment, key);
      forall d | 0 <= d < |f.campaigns|
        ensures W.Balance(g.wallet.entries, f.campaigns[d].pool)
                == W.Balance(f.wallet.entries, f.campaigns[d].pool) + (if d == c then amount else 0)
      {
        MoveShifts(own.0, own.1, pool, amount, W.Repayment, key, f.campaigns[d].pool);
        assert f.campaigns[d].pool == pool ==> d == c;
      }
      L.RepaymentPays(loan, amount);
      forall d: nat ensures Expected(g, d) == Expected(f, d) + (if d == c then amount else 0) {
        SumUpdate(f.loans, l, g.loans[l], Lent(d));
        SumUpdate(f.loans, l, g.loans[l], PaidBack(d));
      }
      PoolShifted(f, g, c, amount);
    }
  }

  lemma CreateKeepsPools(f: Fund, owner: int, title: string, goal: int, currency: string)
    requires Inv(f)
    ensures Pools(CreateCampaign(f, owner, title, goal, currency).0)
  {
    var g := CreateCampaign(f, owner, title, goal, currency).0;
    if goal > 0 {
      var n := |f.campaigns|;
      V.OpenKeeps(f.wallet, PoolAccount(title));
      forall i | 0 <= i < |f.investments| ensures WalletInto(n)(f.investments[i]) == 0 { assert InvestmentOk(f, i); }
      SumZero(f.investments, WalletInto(n));
      SumZero(f.loans, Lent(n));
      SumZero(f.loans, PaidBack(n));
      forall c | 0 <= c < |g.campaigns| ensures PoolHolds(g, c) {
        if c < n { assert PoolHolds(f, c); }
      }
    }
  }

  lemma WalletStepKeepsPools(f: Fund, step: V.Step)
    requires Pools(f) && Legal(f, StepWallet(step))
    ensures Pools(Next(f, StepWallet(step)))
  {
    var g := Next(f, StepWallet(step));
    V.NextKeeps(f.wallet, step);
    if step.StepSetStatus? {
      forall c | 0 <= c < |f.campaigns| ensures PoolOk(g.wallet, f.campaigns[c].pool) && PoolHolds(g, c) {
        assert PoolHolds(f, c);
      }
    } else {
      forall c | 0 <= c < |f.campaigns| ensures PoolOk(g.wallet, f.campaigns[c].pool) && PoolHolds(g, c) {
        assert PoolHolds(f, c);
        assert !V.Served(f.wallet, f.campaigns[c].pool);
      }
      forall i | 0 <= i < |g.investments| && g.investments[i].tx.Some?
        ensures g.investments[i].tx.value < |g.wallet.txs| && g.wallet.txs[g.investments[i].tx.value].kind.Movement?
      {
        assert V.KeepsTx(f.wallet, g.wallet, f.investments[i].tx.value);
      }
    }
  }

  /** Steps that leave the wallet and the loans alone add nothing a wallet paid. */
  lemma ApartFromWallet(f: Fund, g: Fund)
    requires Pools(f) && g.wallet == f.wallet && |g.campaigns| == |f.campaigns|
    requires forall d :: 0 <= d < |f.campaigns| ==> g.campaigns[d].pool == f.campaigns[d].pool
    requires g.investments == f.investments
             || (exists inv :: g.investments == f.investments + [inv] && inv.tx.None?)
    requires g.loans == f.loans || (exists l :: g.loans == f.loans + [l] && l.status == L.LoanPending && l.rows == [])
    ensures Pools(g)
  {
    forall d: nat ensures Expected(g, d) == Expected(f, d) {
      if g.investments != f.investments {
        var inv := g.investments[|f.investments|];
        SumAppend(f.investments, inv, WalletInto(d));
      }
      if g.loans != f.loans {
        var l := g.loans[|f.loans|];
        SumAppend(f.loans, l, Lent(d));
        SumAppend(f.loans, l, PaidBack(d));
      }
    }
    forall c | 0 <= c < |g.campaigns| ensures PoolHolds(g, c) { assert PoolHolds(f, c); }
  }

  lemma EventKeepsPools(f: Fund, e: Event)
    requires Pools(f)
    ensures Pools(ApplyEvent(f, e).0)
  {
    var g := ApplyEvent(f, e).0;
    if g.investments != f.investments {
      var inv := g.investments[|f.investments|];
      assert g.investments == f.investments + [inv] && inv.tx.None?;
    }
    ApartFromWallet(f, g);
  }

  lemma RequestKeepsPools(f: Fund, c: nat, user: int, amount: int, months: int, rate: real)
    requires Pools(f)
    ensures Pools(RequestLoan(f, c, user, amount, months, rate).0)
  {
    var g := RequestLoan(f, c, user, amount, months, rate).0;
    if g.loans != f.loans {
      var l := g.loans[|f.loans|];
      assert g.loans == f.loans + [l] && l.status == L.LoanPending && l.rows == [];
    }
    ApartFromWallet(f, g);
  }

  lemma QuietStepKeepsPools(f: Fund, step: Step)
    requires Pools(f) && (step.StepSetCampaign? || step.StepOrder?)
    ensures Pools(Next(f, step))
  {
    ApartFromWallet(f, Next(f, step));
  }

  lemma NextKeepsPools(f: Fund, step: Step)
    requires Inv(f) && Legal(f, step)
    ensures Pools(Next(f, step))
  {
    match step
    case StepCreate(owner, title, goal, currency) => CreateKeepsPools(f, owner, title, goal, currency);
    case StepSetCampaign(_, _) => QuietStepKeepsPools(f, step);
    case StepInvest(c, user, amount, key) => InvestKeepsPools(f, c, user, amount, key);
    case StepOrder(_, _, _, _, _) => QuietStepKeepsPools(f, step);
    case StepEvent(e) => EventKeepsPools(f, e);
    case StepRequest(c, user, amount, months, rate) => RequestKeepsPools(f, c, user, amount, months, rate);
    case StepDisburse(l, start) => DisburseKeepsPools(f, l, start);
    case StepRepay(l, user, amount, key) => RepayKeepsPools(f, l, user, amount, key);
    case StepWallet(s) => WalletStepKeepsPools(f, s);
  }

  lemma NextKeeps(f: Fund, step: Step)
    requires Inv(f) && Legal(f, step)
    ensures Inv(Next(f, step))
  {
    NextKeepsBooks(f, step);
    NextKeepsLoans(f, step);
    NextKeepsPools(f, step);
  }

  lemma {:induction false} RunKeeps(f: Fund, steps: seq<Step>)
    requires Inv(f) && LegalRun(f, steps)
    ensures Inv(Run(f, steps))
    decreases |steps|
  {
    if steps != [] {
      NextKeeps(f, steps[0]);
      RunKeeps(Next(f, steps[0]), steps[1..]);
    }
  }
}
