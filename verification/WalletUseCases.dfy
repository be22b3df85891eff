/** Deposits and withdrawals through a payment gateway. A deposit books its lines when the gateway confirms it;
    a withdrawal books them at once and is reversed when the gateway declines it. */
module WalletUseCases {
  import opened Options
  import opened WalletLedger

  datatype GatewayStatus = GatewayPending | GatewayCompleted | GatewayFailed

  /** What the gateway does when an operation is initiated. */
  datatype GatewayReply = Raised | Unsupported | Replied(reference: string, status: GatewayStatus)

  datatype VerifierReply =
    | VerifierRaised
    | Verified(status: GatewayStatus, amount: Option<nat>, currency: Option<Currency>)

  datatype Report =
    | Unknown | MissingReference | AlreadyFinal | Mismatch | Confirmed | Declined | StillPending | Broken(error: Error)

  datatype Order = Order(user: int, provider: string, amount: int, hasEmail: bool, key: string)

  // --- Accounts --------------------------------------------------------------------------------------

  function NewUserAccount(user: int): Account { Account(User, XOF, Active, false, None, Some(user)) }

  function NewSuspense(mode: string, currency: Currency): Account {
    Account(Technical, currency, Active, true, Some(Gateway(mode)), None)
  }

  predicate IsWalletOf(a: Account, user: int) { a.kind == User && a.currency == XOF && a.user == Some(user) }

  function WalletOf(accounts: seq<Account>, user: int): (r: Option<nat>)
    ensures r.Some? ==> r.value < |accounts| && IsWalletOf(accounts[r.value], user)
    ensures r.None? ==> forall i :: 0 <= i < |accounts| ==> !IsWalletOf(accounts[i], user)
  {
    Find(accounts, (r: Account) => IsWalletOf(r, user))
  }

  /** The wallet of a user, opened on first use. */
  function AccountFor(w: Wallet, user: int): (Wallet, nat) {
    match WalletOf(w.accounts, user)
    case Some(a) => (w, a)
    case None => (w.(accounts := w.accounts + [NewUserAccount(user)]), |w.accounts|)
  }

  /** The suspense account of a processor, opened on first use. */
  function SuspenseFor(w: Wallet, mode: string, currency: Currency): (Wallet, nat) {
    if mode in w.gateways then (w, w.gateways[mode])
    else (w.(accounts := w.accounts + [NewSuspense(mode, currency)], gateways := w.gateways[mode := |w.accounts|]),
          |w.accounts|)
  }

  // --- Confirming and failing --------------------------------------------------------------------------

  function Marked(w: Wallet, t: nat, status: TxStatus): Wallet
    requires t < |w.txs|
  {
    w.(txs := w.txs[t := w.txs[t].(status := status)])
  }

  function Confirm(w: Wallet, t: nat, mode: string): Outcome {
    if t >= |w.txs| then Outcome(w, Refused(TransactionNotFound))
    else if w.txs[t].status != Pending then Outcome(w, Done(t, false))
    else if w.txs[t].kind != Deposit then Outcome(Marked(w, t, Completed), Done(t, false))
    else if w.txs[t].money.None? || w.txs[t].account.None? then Outcome(w, Refused(InvalidAmount))
    else
      var suspense := SuspenseFor(w, mode, XOF);
      var o := PostOn(suspense.0, t, PairOf(suspense.1, w.txs[t].account.value, w.txs[t].money.value));
      if o.answer.Refused? then Outcome(w, o.answer)
      else Outcome(Marked(o.wallet, t, Completed), Done(t, false))
  }

  function Fail(w: Wallet, t: nat, mode: string): Outcome {
    if t >= |w.txs| then Outcome(w, Refused(TransactionNotFound))
    else if w.txs[t].status != Pending then Outcome(w, Done(t, false))
    else if w.txs[t].kind != Withdrawal then Outcome(Marked(w, t, Failed), Done(t, false))
    else
      var o := Reverse(w, t);
      if o.answer.Refused? then o else Outcome(Marked(o.wallet, t, Reversed), Done(t, false))
  }

  /** What the gateway's first status makes of an operation just initiated. */
  function Settle(w: Wallet, t: nat, mode: string, status: GatewayStatus): Outcome {
    match status
    case GatewayCompleted => Confirm(w, t, mode)
    case GatewayFailed => Fail(w, t, mode)
    case GatewayPending => Outcome(w, Done(t, false))
  }

  /** The request's transaction: whatever a refusal had already written is rolled back. */
  function OrRollBack(before: Wallet, o: Outcome): Outcome {
    if o.answer.Refused? then Outcome(before, o.answer) else o
  }

  function WithReference(w: Wallet, t: nat, reference: string): Wallet
    requires t < |w.txs|
  {
    w.(txs := w.txs[t := w.txs[t].(providerReference := Some(reference))])
  }

  /** The gateway is called with the operation already written, inside the same database transaction. */
  function Initiated(before: Wallet, w: Wallet, t: nat, mode: string, reply: GatewayReply): Outcome
    requires t < |w.txs|
  {
    match reply
    case Raised => Outcome(before, Refused(GatewayUnavailable))
    case Unsupported => Outcome(before, Refused(NotSupported))
    case Replied(reference, status) => OrRollBack(before, Settle(WithReference(w, t, reference), t, mode, status))
  }

  // --- Deposit and withdrawal ------------------------------------------------------------------------

  function PendingDeposit(key: string, account: nat, money: Money, mode: string): Tx {
    Tx(Deposit, Pending, key, Some(account), Some(money), Some(mode), None, None)
  }

  function DepositStep(w: Wallet, order: Order, mode: string, reply: GatewayReply): Outcome {
    match Owner(w.txs, order.key)
    case Some(t) => Outcome(w, Done(t, true))
    case None =>
      var own := AccountFor(w, order.user);
      if order.amount <= 0 then Outcome(w, Refused(InvalidAmount)) else
        var currency := own.0.accounts[own.1].currency;
        var ready := SuspenseFor(own.0, mode, currency).0;
        if order.provider == "paystack" && !order.hasEmail then Outcome(w, Refused(InvalidAmount)) else
          var row := PendingDeposit(order.key, own.1, Money(order.amount, currency), mode);
          Initiated(w, ready.(txs := ready.txs + [row]), |ready.txs|, mode, reply)
  }

  /** The withdrawal's own fields, set once its lines are booked. */
  function Described(w: Wallet, t: nat, account: nat, money: Money, mode: string): Wallet
    requires t < |w.txs|
  {
    w.(txs := w.txs[t := w.txs[t].(account := Some(account), money := Some(money), mode := Some(mode))])
  }

  function WithdrawStep(w: Wallet, order: Order, mode: string, supported: bool, reply: GatewayReply): Outcome {
    var own := AccountFor(w, order.user);
    match Owner(w.txs, order.key)
    case Some(t) => Outcome(own.0, Done(t, true))
    case None =>
      if order.amount <= 0 then Outcome(w, Refused(InvalidAmount))
      else if !supported then Outcome(w, Refused(NotSupported))
      else
        var money := Money(order.amount, own.0.accounts[own.1].currency);
        var ready := SuspenseFor(own.0, mode, money.currency);
        var moved := Transfer(ready.0, Call(own.1, ready.1, money, Withdrawal, Pending, order.key));
        if moved.answer.Refused? then Outcome(w, moved.answer)
        else Initiated(w, Described(moved.wallet, moved.answer.tx, own.1, money, mode), moved.answer.tx, mode, reply)
  }

  // --- Reconciliation ------------------------------------------------------------------------------------

  predicate Agrees(tx: Tx, reply: VerifierReply)
    requires reply.Verified?
  {
    reply.amount.None? || (tx.money.Some? && reply.amount.value == tx.money.value.amount
                           && reply.currency == Some(tx.money.value.currency))
  }

  function Reported(before: Wallet, o: Outcome, report: Report): (Wallet, Report) {
    if o.answer.Refused? then (before, Broken(o.answer.error)) else (o.wallet, report)
  }

  function ReconcileStep(w: Wallet, t: nat, reply: VerifierReply): (Wallet, Report) {
    if t >= |w.txs| then (w, Unknown)
    else if w.txs[t].providerReference.None? then (w, MissingReference)
    else if w.txs[t].status != Pending then (w, AlreadyFinal)
    else
      var mode := if w.txs[t].mode.Some? then w.txs[t].mode.value else "paystack";
      match reply
      case VerifierRaised => (w, Broken(GatewayUnavailable))
      case Verified(status, _, _) =>
        match status
        case GatewayCompleted =>
          if Agrees(w.txs[t], reply) then Reported(w, Confirm(w, t, mode), Confirmed) else (w, Mismatch)
        case GatewayFailed => Reported(w, Fail(w, t, mode), Declined)
        case GatewayPending => (w, StillPending)
  }

  // --- The use cases ----------------------------------------------------------------------------------------

  class WalletService {
    const ledger: LedgerService

    constructor ()
      ensures ledger.State() == Wallet([], [], [], map[]) && fresh(ledger)
    {
      ledger := new LedgerService();
    }

    /** The session's rollback. */
    method RollBack(before: Wallet)
      modifies ledger
      ensures ledger.State() == before
    {
      ledger.accounts, ledger.txs := before.accounts, before.txs;
      ledger.entries, ledger.gateways := before.entries, before.gateways;
    }

    method GetByUser(user: int) returns (a: Option<nat>)
      ensures a == WalletOf(ledger.accounts, user)
    {
      a := WalletOf(ledger.accounts, user);
    }

    method AccountOf(user: int) returns (a: nat)
      modifies ledger
      ensures (ledger.State(), a) == AccountFor(old(ledger.State()), user)
      ensures a < |ledger.accounts|
    {
      var existing := GetByUser(user);
      if existing.Some? {
        return existing.value;
      }
      a := |ledger.accounts|;
      ledger.accounts := ledger.accounts + [NewUserAccount(user)];
    }

    method SuspenseAccount(mode: string, currency: Currency) returns (a: nat)
      modifies ledger
      ensures (ledger.State(), a) == SuspenseFor(old(ledger.State()), mode, currency)
    {
      if mode in ledger.gateways {
        return ledger.gateways[mode];
      }
      a := |ledger.accounts|;
      ledger.accounts := ledger.accounts + [NewSuspense(mode, currency)];
      ledger.gateways := ledger.gateways[mode := a];
    }

    method Mark(t: nat, status: TxStatus)
      requires t < |ledger.txs|
      modifies ledger
      ensures ledger.State() == Marked(old(ledger.State()), t, status)
    {
      ledger.txs := ledger.txs[t := ledger.txs[t].(status := status)];
    }

    method ConfirmOperation(t: nat, mode: string) returns (answer: Answer)
      modifies ledger
      ensures Outcome(ledger.State(), answer) == Confirm(old(ledger.State()), t, mode)
    {
      if t >= |ledger.txs| {
        return Refused(TransactionNotFound);
      }
      var tx := ledger.txs[t];
      if tx.status != Pending {
        return Done(t, false);
      }
      if tx.kind == Deposit {
        if tx.money.None? || tx.account.None? {
          return Refused(InvalidAmount);
        }
        var before := ledger.State();
        var suspense := SuspenseAccount(mode, XOF);
        answer := ledger.PostOnTransaction(t, [Line(suspense, Debit, tx.money.value),
                                               Line(tx.account.value, Credit, tx.money.value)]);
        if answer.Refused? {
          RollBack(before);
          return;
        }
      }
      Mark(t, Completed);
      return Done(t, false);
    }

    method FailOperation(t: nat, mode: string) returns (answer: Answer)
      modifies ledger
      ensures Outcome(ledger.State(), answer) == Fail(old(ledger.State()), t, mode)
    {
      if t >= |ledger.txs| {
        return Refused(TransactionNotFound);
      }
      if ledger.txs[t].status != Pending {
        return Done(t, false);
      }
      if ledger.txs[t].kind == Withdrawal {
        answer := ledger.ReverseTransaction(t);
        if answer.Refused? {
          return;
        }
        Mark(t, Reversed);
      } else {
        Mark(t, Failed);
      }
      return Done(t, false);
    }

    method Initiate(before: Wallet, t: nat, mode: string, reply: GatewayReply) returns (answer: Answer)
      requires t < |ledger.txs|
      modifies ledger
      ensures Outcome(ledger.State(), answer) == Initiated(before, old(ledger.State()), t, mode, reply)
    {
      if reply.Raised? {
        RollBack(before);
        return Refused(GatewayUnavailable);
      }
      if reply.Unsupported? {
        RollBack(before);
        return Refused(NotSupported);
      }
      ledger.txs := ledger.txs[t := ledger.txs[t].(providerReference := Some(reply.reference))];
      answer := Done(t, false);
      if reply.status == GatewayCompleted {
        answer := ConfirmOperation(t, mode);
      } else if reply.status == GatewayFailed {
        answer := FailOperation(t, mode);
      }
      if answer.Refused? {
        RollBack(before);
      }
    }

    method MakeDeposit(order: Order, mode: string, reply: GatewayReply) returns (answer: Answer)
      modifies ledger
      ensures Outcome(ledger.State(), answer) == DepositStep(old(ledger.State()), order, mode, reply)
    {
      var existing := ledger.FindByKey(order.key);
      if existing.Some? {
        return Done(existing.value, true);
      }
      var before := ledger.State();
      var account := AccountOf(order.user);
      if order.amount <= 0 {
        RollBack(before);
        return Refused(InvalidAmount);
      }
      var money := Money(order.amount, ledger.accounts[account].currency);
      var _ := SuspenseAccount(mode, money.currency);
      if order.provider == "paystack" && !order.hasEmail {
        RollBack(before);
        return Refused(InvalidAmount);
      }
      var t := |ledger.txs|;
      ledger.txs := ledger.txs + [PendingDeposit(order.key, account, money, mode)];
      answer := Initiate(before, t, mode, reply);
    }

    method MakeWithdrawal(order: Order, mode: string, supported: bool, reply: GatewayReply) returns (answer: Answer)
      modifies ledger
      ensures Outcome(ledger.State(), answer) == WithdrawStep(old(ledger.State()), order, mode, supported, reply)
    {
      var before := ledger.State();
      var account := AccountOf(order.user);
      var existing := ledger.FindByKey(order.key);
      if existing.Some? {
        return Done(existing.value, true);
      }
      if order.amount <= 0 {
        RollBack(before);
        return Refused(InvalidAmount);
      }
      if !supported {
        RollBack(before);
        return Refused(NotSupported);
      }
      var money := Money(order.amount, ledger.accounts[account].currency);
      var suspense := SuspenseAccount(mode, money.currency);
      answer := ledger.TransferMoney(Call(account, suspense, money, Withdrawal, Pending, order.key));
      if answer.Refused? {
        RollBack(before);
        return;
      }
      var t := answer.tx;
      ledger.txs := ledger.txs[t := ledger.txs[t].(account := Some(account), money := Some(money), mode := Some(mode))];
      answer := Initiate(before, t, mode, reply);
    }

    method ReconcileTransaction(t: nat, reply: VerifierReply) returns (report: Report)
      modifies ledger
      ensures (ledger.State(), report) == ReconcileStep(old(ledger.State()), t, reply)
    {
      if t >= |ledger.txs| {
        return Unknown;
      }
      var tx := ledger.txs[t];
      if tx.providerReference.None? {
        return MissingReference;
      }
      if tx.status != Pending {
        return AlreadyFinal;
      }
      var mode := "paystack";
      if tx.mode.Some? {
        mode := tx.mode.value;
      }
      if reply.VerifierRaised? {
        return Broken(GatewayUnavailable);
      }
      if reply.status == GatewayCompleted {
        if !Agrees(tx, reply) {
          return Mismatch;
        }
        var answer := ConfirmOperation(t, mode);
        return if answer.Refused? then Broken(answer.error) else Confirmed;
      }
      if reply.status == GatewayFailed {
        var answer := FailOperation(t, mode);
        return if answer.Refused? then Broken(answer.error) else Declined;
      }
      return StillPending;
    }
  }
}
