/** Where the money that a loan's installments show comes from: the transfers made to the campaign's pool for
    that loan, over every run and whatever keys are used. */
module FundRepayments {
  import opened Options
  import opened FundStore
  import opened FundSafety
  import opened FundTheorems
  import W = WalletLedger
  import U = WalletUseCases
  import V = WalletSafety
  import S = LoanSchedule
  import L = FundLoans

  // --- Pools stay apart from the users' accounts ----------------------------------------------------------

  /** Every campaign's pool is a technical account. */
  predicate PoolsTechnical(f: Fund) {
    forall c :: 0 <= c < |f.campaigns| ==>
      f.campaigns[c].pool < |f.wallet.accounts| && f.wallet.accounts[f.campaigns[c].pool].kind == W.Technical
  }

  /** Accounts are only added, and keep their kind. */
  predicate KindsKept(w: W.Wallet, v: W.Wallet) {
    |w.accounts| <= |v.accounts| && forall a :: 0 <= a < |w.accounts| ==> v.accounts[a].kind == w.accounts[a].kind
  }

  lemma TransferKeepsAccounts(w: W.Wallet, call: W.Call)
    ensures W.Transfer(w, call).wallet.accounts == w.accounts == W.TransferLocked(w, call).wallet.accounts
  {
  }

  lemma ConfirmKeepsKinds(w: W.Wallet, t: nat, mode: string)
    ensures KindsKept(w, U.Confirm(w, t, mode).wallet) && KindsKept(w, U.Fail(w, t, mode).wallet)
  {
  }

  lemma InitiatedKeepsKinds(before: W.Wallet, w: W.Wallet, t: nat, mode: string, reply: U.GatewayReply)
    requires KindsKept(before, w) && t < |w.txs|
    ensures KindsKept(before, U.Initiated(before, w, t, mode, reply).wallet)
  {
    if reply.Replied? { ConfirmKeepsKinds(U.WithReference(w, t, reply.reference), t, mode); }
  }

  lemma DepositKeepsKinds(w: W.Wallet, order: U.Order, mode: string, reply: U.GatewayReply)
    ensures KindsKept(w, U.DepositStep(w, order, mode, reply).wallet)
  {
    if W.Owner(w.txs, order.key).None? && order.amount > 0 {
      var own := U.AccountFor(w, order.user);
      var money := W.Money(order.amount, own.0.accounts[own.1].currency);
      var ready := U.SuspenseFor(own.0, mode, money.currency).0;
      var row := U.PendingDeposit(order.key, own.1, money, mode);
      InitiatedKeepsKinds(w, ready.(txs := ready.txs + [row]), |ready.txs|, mode, reply);
    }
  }

  lemma WithdrawKeepsKinds(w: W.Wallet, order: U.Order, mode: string, supported: bool, reply: U.GatewayReply)
    ensures KindsKept(w, U.WithdrawStep(w, order, mode, supported, reply).wallet)
  {
    if W.Owner(w.txs, order.key).None? && order.amount > 0 && supported {
      var own := U.AccountFor(w, order.user);
      var money := W.Money(order.amount, own.0.accounts[own.1].currency);
      var ready := U.SuspenseFor(own.0, mode, money.currency);
      var call := W.Call(own.1, ready.1, money, W.Withdrawal, W.Pending, order.key);
      var moved := W.Transfer(ready.0, call);
      TransferKeepsAccounts(ready.0, call);
      if moved.answer.Done? {
        InitiatedKeepsKinds(w, U.Described(moved.wallet, moved.answer.tx, own.1, money, mode), moved.answer.tx, mode,
                            reply);
      }
    }
  }

  lemma ReconcileKeepsKinds(w: W.Wallet, t: nat, reply: U.VerifierReply)
    ensures KindsKept(w, U.ReconcileStep(w, t, reply).0)
  {
    if t < |w.txs| { ConfirmKeepsKinds(w, t, if w.txs[t].mode.Some? then w.txs[t].mode.value else "paystack"); }
  }

  lemma WalletKeepsKinds(w: W.Wallet, step: V.Step)
    ensures KindsKept(w, V.Next(w, step))
  {
    match step
    case StepTransfer(call) => TransferKeepsAccounts(w, call);
    case StepTransferLocked(call) => TransferKeepsAccounts(w, call);
    case StepDeposit(order, mode, reply) => DepositKeepsKinds(w, order, mode, reply);
    case StepWithdraw(order, mode, supported, reply) => WithdrawKeepsKinds(w, order, mode, supported, reply);
    case StepConfirm(t, mode) => ConfirmKeepsKinds(w, t, mode);
    case StepFail(t, mode) => ConfirmKeepsKinds(w, t, mode);
    case StepReconcile(t, reply) => ReconcileKeepsKinds(w, t, reply);
    case _ =>
  }

  lemma MoveKeepsAccounts(w: W.Wallet, source: nat, destination: nat, amount: int, purpose: W.Purpose, key: string)
    ensures Move(w, source, destination, amount, purpose, key).wallet.accounts == w.accounts
  {
  }

  lemma AccountForKeepsKinds(w: W.Wallet, user: int)
    ensures KindsKept(w, U.AccountFor(w, user).0)
  {
  }

  lemma SamePools(f: Fund, g: Fund)
    requires PoolsTechnical(f) && KindsKept(f.wallet, g.wallet) && |g.campaigns| == |f.campaigns|
    requires forall c :: 0 <= c < |f.campaigns| ==> g.campaigns[c].pool == f.campaigns[c].pool
    ensures PoolsTechnical(g)
  {
  }

  lemma InvestKeepsTechnical(f: Fund, c: nat, user: int, amount: int, key: string)
    requires PoolsTechnical(f)
    ensures PoolsTechnical(Invest(f, c, user, amount, key).0)
  {
    if c < |f.campaigns| {
      var own := U.AccountFor(f.wallet, user);
      AccountForKeepsKinds(f.wallet, user);
      MoveKeepsAccounts(own.0, own.1, f.campaigns[c].pool, amount, W.Disbursement, key);
      SamePools(f, Invest(f, c, user, amount, key).0);
    }
  }

  lemma DisburseKeepsTechnical(f: Fund, l: nat, start: S.Date)
    requires PoolsTechnical(f)
    ensures PoolsTechnical(Disburse(f, l, start).0)
  {
    if l < |f.loans| && f.loans[l].campaign < |f.campaigns| {
      var own, pool := U.AccountFor(f.wallet, f.loans[l].borrower), f.campaigns[f.loans[l].campaign].pool;
      AccountForKeepsKinds(f.wallet, f.loans[l].borrower);
      MoveKeepsAccounts(own.0, pool, own.1, f.loans[l].principal, W.Disbursement, DisbursementKey(l));
      SamePools(f, Disburse(f, l, start).0);
    }
  }

  lemma RepayKeepsTechnical(f: Fund, l: nat, user: int, amount: int, key: string)
    requires PoolsTechnical(f)
    ensures PoolsTechnical(Repay(f, l, user, amount, key).0)
  {
    if l < |f.loans| && f.loans[l].campaign < |f.campaigns| {
      var own, pool := U.AccountFor(f.wallet, f.loans[l].borrower), f.campaigns[f.loans[l].campaign].pool;
      AccountForKeepsKinds(f.wallet, f.loans[l].borrower);
      MoveKeepsAccounts(own.0, own.1, pool, amount, W.Repayment, key);
      SamePools(f, Repay(f, l, user, amount, key).0);
    }
  }

  lemma EventKeepsTechnical(f: Fund, e: Event)
    requires PoolsTechnical(f)
    ensures PoolsTechnical(ApplyEvent(f, e).0)
  {
    SamePools(f, ApplyEvent(f, e).0);
  }

  lemma NextKeepsTechnical(f: Fund, step: Step)
    requires PoolsTechnical(f)
    ensures PoolsTechnical(Next(f, step))
  {
    match step
    case StepInvest(c, user, amount, key) => InvestKeepsTechnical(f, c, user, amount, key);
    case StepDisburse(l, start) => DisburseKeepsTechnical(f, l, start);
    case StepRepay(l, user, amount, key) => RepayKeepsTechnical(f, l, user, amount, key);
    case StepEvent(e) => EventKeepsTechnical(f, e);
    case StepWallet(s) => WalletKeepsKinds(f.wallet, s);
    case StepSetCampaign(_, _) => SamePools(f, Next(f, step));
    case StepOrder(_, _, _, _, _) => SamePools(f, Next(f, step));
    case StepRequest(_, _, _, _, _) => SamePools(f, Next(f, step));
    case StepCreate(_, _, _, _) =>
  }

  // --- One repayment -----------------------------------------------------------------------------------------

  /** What the installments of loan l show as paid; nothing before there is one. */
  function Paid(f: Fund, l: nat): int { if l < |f.loans| then L.TotalPaid(f.loans[l]) else 0 }

  /** What a step brings the pool for loan l, as the pool's own balance shows it. */
  function Brought(f: Fund, step: Step, l: nat): int {
    if step.StepRepay? && step.loan == l && l < |f.loans| && f.loans[l].campaign < |f.campaigns| then
      var pool := f.campaigns[f.loans[l].campaign].pool;
      W.Balance(Next(f, step).wallet.entries, pool) - W.Balance(f.wallet.entries, pool)
    else 0
  }

  /** A repayment of something under a known key, which the wallet replays without moving money. */
  predicate CreditsForNothing(f: Fund, step: Step, l: nat) {
    MayRepay(f, step, l) && step.amount > 0 && W.Owner(f.wallet.txs, step.key).Some?
  }

  lemma AcceptedBrings(f: Fund, l: nat, user: int, amount: int, key: string)
    requires LoansOk(f) && PoolsTechnical(f) && Repay(f, l, user, amount, key).1.Ok?
    ensures var step := StepRepay(l, user, amount, key);
            && Paid(Next(f, step), l) == Paid(f, l) + amount && MayRepay(f, step, l) && amount >= 0
            && Brought(f, step, l) == if W.Owner(f.wallet.txs, key).None? then amount else 0
  {
    var own, pool := U.AccountFor(f.wallet, f.loans[l].borrower), f.campaigns[f.loans[l].campaign].pool;
    MoveShifts(own.0, own.1, pool, amount, W.Repayment, key, pool);
    L.RepaymentPays(f.loans[l], amount);
    assert own.1 != pool;
  }

  lemma RepaymentBrings(f: Fund, l: nat, user: int, amount: int, key: string)
    requires LoansOk(f) && PoolsTechnical(f)
    ensures var step := StepRepay(l, user, amount, key);
            Paid(Next(f, step), l) - Paid(f, l)
            == Brought(f, step, l) + (if CreditsForNothing(f, step, l) then amount else 0)
  {
    if Repay(f, l, user, amount, key).1.Ok? {
      AcceptedBrings(f, l, user, amount, key);
    } else {
      assert Next(f, StepRepay(l, user, amount, key)) == f;
    }
  }

  lemma StepBrings(f: Fund, step: Step, l: nat)
    requires LoansOk(f) && PoolsTechnical(f)
    ensures Paid(Next(f, step), l) - Paid(f, l)
            == Brought(f, step, l) + (if CreditsForNothing(f, step, l) then step.amount else 0)
  {
    if step.StepRepay? && step.loan == l {
      RepaymentBrings(f, l, step.user, step.amount, step.key);
    } else {
      NextIsLoanStep(f, step, l);
    }
  }

  // --- Every run -----------------------------------------------------------------------------------------------

  function TotalBrought(f: Fund, steps: seq<Step>, l: nat): int
    decreases |steps|
  {
    if steps == [] then 0 else Brought(f, steps[0], l) + TotalBrought(Next(f, steps[0]), steps[1..], l)
  }

  predicate SomeCreditsForNothing(f: Fund, steps: seq<Step>, l: nat)
    decreases |steps|
  {
    steps != [] && (CreditsForNothing(f, steps[0], l) || SomeCreditsForNothing(Next(f, steps[0]), steps[1..], l))
  }

  lemma {:induction false} RunBrings(f: Fund, steps: seq<Step>, l: nat)
    requires LoansOk(f) && PoolsTechnical(f)
    ensures TotalBrought(f, steps, l) <= Paid(Run(f, steps), l) - Paid(f, l)
    ensures TotalBrought(f, steps, l) == Paid(Run(f, steps), l) - Paid(f, l) <==> !SomeCreditsForNothing(f, steps, l)
    decreases |steps|
  {
    if steps != [] {
      StepBrings(f, steps[0], l);
      NextKeepsLoans(f, steps[0]);
      NextKeepsTechnical(f, steps[0]);
      RunBrings(Next(f, steps[0]), steps[1..], l);
    }
  }

  /** Over every run, the installments of a loan never show less than its repayments brought the pool, and show
      exactly that if and only if no repayment of something was accepted under a known key. */
  lemma PaidIsBroughtIff(steps: seq<Step>, l: nat)
    requires l < |Run(NOTHING, steps).loans|
    ensures var paid := L.TotalPaid(Run(NOTHING, steps).loans[l]);
            && TotalBrought(NOTHING, steps, l) <= paid
            && (TotalBrought(NOTHING, steps, l) == paid <==> !SomeCreditsForNothing(NOTHING, steps, l))
  {
    RunBrings(NOTHING, steps, l);
  }
}
