/** What a gateway's answer does to a deposit or a withdrawal, told by statuses and balances: at initiation, when it
    is verified later, and over whole runs. */
module GatewayAnswers {
  import opened Options
  import opened WalletLedger
  import opened WalletUseCases
  import opened WalletSafety

  /** A deposit or a withdrawal that is still open; movements and reversals are completed at once. */
  predicate Open(w: Wallet, t: nat) { t < |w.txs| && w.txs[t].status == Pending }

  predicate KeyIsFree(w: Wallet, key: string) { forall t :: 0 <= t < |w.txs| ==> w.txs[t].key != key }

  /** An open transaction names its account and amount, and reverses nothing. */
  lemma OpenIsNamed(w: Wallet, t: nat)
    requires Inv(w) && Open(w, t)
    ensures var tx := w.txs[t];
            && tx.account.Some? && tx.account.value < |w.accounts| && tx.money.Some? && tx.money.value.amount > 0
            && tx.reverses.None? && (tx.kind == Deposit || tx.kind == Withdrawal)
            && Personal(w, tx.account.value)
            && (tx.kind == Deposit ==> LinesOf(w.entries, t) == [])
  {
    assert TxOk(w, t);
  }

  /** A user's wallet and a gateway's suspense account are opened once: asking again finds the same account, and a known
      one opens nothing. */
  lemma OpenedOnce(w: Wallet, user: int, mode: string, currency: Currency)
    requires Inv(w)
    ensures var own, suspense := AccountFor(w, user), SuspenseFor(w, mode, currency);
            && AccountFor(own.0, user) == own && SuspenseFor(suspense.0, mode, currency) == suspense
            && ((exists a :: 0 <= a < |w.accounts| && IsWalletOf(w.accounts[a], user)) ==> own.0 == w)
            && (mode in w.gateways ==> suspense == (w, w.gateways[mode]))
            && (forall other :: other in w.gateways ==>
                  other in suspense.0.gateways && suspense.0.gateways[other] == w.gateways[other])
  {
  }

  // --- Confirming and failing one transaction ---------------------------------------------------------------

  /** Confirming an open deposit credits its account; confirming an open withdrawal moves nothing more. */
  lemma ConfirmedOpen(w: Wallet, t: nat, mode: string, a: nat)
    requires Inv(w) && Open(w, t)
    ensures w.txs[t].account.Some? && w.txs[t].money.Some?
    ensures var o := Confirm(w, t, mode);
            && o.answer == Done(t, false) && o.wallet.txs == w.txs[t := w.txs[t].(status := Completed)]
            && (w.txs[t].kind == Deposit && Personal(w, a) ==>
                  Balance(o.wallet.entries, a)
                  == Balance(w.entries, a) + (if w.txs[t].account.value == a then w.txs[t].money.value.amount else 0))
            && (w.txs[t].kind == Withdrawal ==> o.wallet.entries == w.entries)
  {
    OpenIsNamed(w, t);
    if w.txs[t].kind == Deposit {
      var s := SuspenseFor(w, mode, XOF);
      SuspenseForKeeps(w, mode, XOF);
      var lines := PairOf(s.1, w.txs[t].account.value, w.txs[t].money.value);
      PairBalancedIff(lines);
      BalanceUnder(w.entries, t, lines, a);
      assert Personal(w, a) ==> a != s.1;
    }
  }

  /** Failing an open deposit moves nothing. Failing an open withdrawal brings its amount back, unless somebody took
      the key of its reversal: then the request is refused. */
  lemma FailedOpen(w: Wallet, t: nat, mode: string, a: nat)
    requires Inv(w) && Open(w, t)
    ensures w.txs[t].account.Some? && w.txs[t].money.Some?
    ensures var o := Fail(w, t, mode);
            if w.txs[t].kind == Deposit
            then o == Outcome(w.(txs := w.txs[t := w.txs[t].(status := Failed)]), Done(t, false))
            else if !KeyIsFree(w, ReversalKey(t)) then o.wallet == w && o.answer.Refused?
            else
              && o.answer == Done(t, false) && |o.wallet.txs| == |w.txs| + 1
              && o.wallet.txs[..|w.txs|] == w.txs[t := w.txs[t].(status := Reversed)]
              && o.wallet.txs[|w.txs|].reverses == Some(t)
              && (Personal(w, a) ==>
                    Balance(o.wallet.entries, a)
                    == Balance(w.entries, a) + (if w.txs[t].account.value == a then w.txs[t].money.value.amount else 0))
  {
    OpenIsNamed(w, t);
    if w.txs[t].kind == Withdrawal {
      assert TxOk(w, t);
      if KeyIsFree(w, ReversalKey(t)) {
        ReversalKeeps(w, t);
        BalanceUnder(w.entries, |w.txs|, OppositeOf(LinesOf(w.entries, t)), a);
      }
    }
  }

  // --- A later verification -------------------------------------------------------------------------------------

  predicate AnswerAgrees(tx: Tx, amount: Option<nat>, currency: Option<Currency>) {
    amount.None? || (tx.money.Some? && amount == Some(tx.money.value.amount)
                     && currency == Some(tx.money.value.currency))
  }

  predicate Verifiable(w: Wallet, t: nat) { Open(w, t) && w.txs[t].providerReference.Some? }

  /** A "failed" answer: an open deposit fails and nothing moves; an open withdrawal is reversed and its account gets
      the amount back. */
  lemma DeclinedAnswer(w: Wallet, t: nat, amount: Option<nat>, currency: Option<Currency>)
    requires Inv(w) && Verifiable(w, t)
    ensures w.txs[t].account.Some? && w.txs[t].money.Some?
    ensures var (v, report) := ReconcileStep(w, t, Verified(GatewayFailed, amount, currency));
            var a := w.txs[t].account.value;
            if w.txs[t].kind == Deposit
            then report == Declined && v.entries == w.entries && v.txs == w.txs[t := w.txs[t].(status := Failed)]
            else if exists s :: 0 <= s < |w.txs| && w.txs[s].key == ReversalKey(t) then v == w && report.Broken?
            else report == Declined && |v.txs| == |w.txs| + 1
                 && v.txs[..|w.txs|] == w.txs[t := w.txs[t].(status := Reversed)]
                 && Balance(v.entries, a) == Balance(w.entries, a) + w.txs[t].money.value.amount
  {
    OpenIsNamed(w, t);
    var mode := if w.txs[t].mode.Some? then w.txs[t].mode.value else "paystack";
    FailedOpen(w, t, mode, w.txs[t].account.value);
  }

  /** A "completed" answer that names another amount or currency changes nothing; one that agrees, or names none,
      completes the transaction and credits a deposit's account. */
  lemma CompletedAnswer(w: Wallet, t: nat, amount: Option<nat>, currency: Option<Currency>)
    requires Inv(w) && Verifiable(w, t)
    ensures w.txs[t].account.Some? && w.txs[t].money.Some?
    ensures var (v, report) := ReconcileStep(w, t, Verified(GatewayCompleted, amount, currency));
            var a, money := w.txs[t].account.value, w.txs[t].money.value;
            if amount.Some? && (amount.value != money.amount || currency != Some(money.currency))
            then v == w && report == Mismatch
            else report == Confirmed && v.txs == w.txs[t := w.txs[t].(status := Completed)]
                 && Balance(v.entries, a)
                    == Balance(w.entries, a) + (if w.txs[t].kind == Deposit then money.amount else 0)
  {
    OpenIsNamed(w, t);
    var mode := if w.txs[t].mode.Some? then w.txs[t].mode.value else "paystack";
    ConfirmedOpen(w, t, mode, w.txs[t].account.value);
  }

  /** Nothing else that a verification finds changes anything. */
  lemma OtherAnswersChangeNothing(w: Wallet, t: nat, reply: VerifierReply)
    requires Inv(w)
    requires !Verifiable(w, t) || reply.VerifierRaised? || reply.status == GatewayPending
    ensures var (v, report) := ReconcileStep(w, t, reply);
            && v == w && report != Confirmed && report != Declined
            && (report == StillPending <==> Verifiable(w, t) && reply.Verified?)
            && (report == Unknown <==> t >= |w.txs|)
  {
  }

  // --- Initiation -------------------------------------------------------------------------------------------------

  predicate DepositAccepted(w: Wallet, order: Order) {
    KeyIsFree(w, order.key) && order.amount > 0 && (order.provider == "paystack" ==> order.hasEmail)
  }

  /** The deposit as it is written before the gateway is asked. */
  function WrittenDeposit(w: Wallet, order: Order, mode: string): Wallet
    requires order.amount > 0
  {
    var own := AccountFor(w, order.user);
    var ready := SuspenseFor(own.0, mode, XOF).0;
    ready.(txs := ready.txs + [PendingDeposit(order.key, own.1, Money(order.amount, XOF), mode)])
  }

  lemma DepositIsWritten(w: Wallet, order: Order, mode: string, reply: GatewayReply)
    requires Inv(w) && DepositAccepted(w, order)
    ensures var v, own := WrittenDeposit(w, order, mode), AccountFor(w, order.user);
            && Inv(v) && v.txs == w.txs + [PendingDeposit(order.key, own.1, Money(order.amount, XOF), mode)]
            && v.entries == w.entries && own.1 < |v.accounts| && IsWalletOf(v.accounts[own.1], order.user)
            && DepositStep(w, order, mode, reply) == Initiated(w, v, |w.txs|, mode, reply)
  {
    var own := AccountFor(w, order.user);
    AccountForKeeps(w, order.user);
    SuspenseForKeeps(own.0, mode, XOF);
    DepositRowAddedKeeps(SuspenseFor(own.0, mode, XOF).0, own.1, Money(order.amount, XOF), mode, order.key);
    assert Owner(w.txs, order.key).None? && own.0.entries == w.entries;
  }

  function DepositStatus(status: GatewayStatus): TxStatus {
    match status
    case GatewayCompleted => Completed
    case GatewayFailed => Failed
    case GatewayPending => Pending
  }

  /** What the first answer makes of an open deposit that was just written. */
  lemma SettledDeposit(w: Wallet, t: nat, mode: string, status: GatewayStatus, a: nat)
    requires Inv(w) && Open(w, t) && w.txs[t].kind == Deposit && w.txs[t].account == Some(a)
    ensures w.txs[t].money.Some?
    ensures var o := Settle(w, t, mode, status);
            && o.answer == Done(t, false) && o.wallet.txs == w.txs[t := w.txs[t].(status := DepositStatus(status))]
            && w.accounts <= o.wallet.accounts
            && Balance(o.wallet.entries, a)
               == Balance(w.entries, a) + (if status == GatewayCompleted then w.txs[t].money.value.amount else 0)
  {
    OpenIsNamed(w, t);
    ConfirmedOpen(w, t, mode, a);
    FailedOpen(w, t, mode, a);
  }

  /** A deposit that the gateway answers at once: completed, it credits the user; failed or pending, it moves
      nothing. */
  lemma DepositAnswered(w: Wallet, order: Order, mode: string, reference: string, status: GatewayStatus)
    requires Inv(w) && DepositAccepted(w, order)
    ensures var o := DepositStep(w, order, mode, Replied(reference, status));
            && o.answer == Done(|w.txs|, false) && |o.wallet.txs| == |w.txs| + 1
            && o.wallet.txs[..|w.txs|] == w.txs
            && var tx := o.wallet.txs[|w.txs|];
            && tx.kind == Deposit && tx.key == order.key && tx.account.Some? && tx.account.value < |o.wallet.accounts|
            && IsWalletOf(o.wallet.accounts[tx.account.value], order.user)
            && tx.money == Some(Money(order.amount, XOF)) && tx.providerReference == Some(reference)
            && tx.status == (match status
                             case GatewayCompleted => Completed
                             case GatewayFailed => Failed
                             case GatewayPending => Pending)
            && Balance(o.wallet.entries, tx.account.value)
               == Balance(w.entries, tx.account.value) + (if status == GatewayCompleted then order.amount else 0)
  {
    DepositIsWritten(w, order, mode, Replied(reference, status));
    var v := WrittenDeposit(w, order, mode);
    ReferenceKeeps(v, |w.txs|, reference);
    SettledDeposit(WithReference(v, |w.txs|, reference), |w.txs|, mode, status, AccountFor(w, order.user).1);
  }

  /** A deposit is refused, and leaves nothing behind, exactly when its key is new but it is not accepted, or the
      gateway does not reply. */
  lemma DepositRefusedIff(w: Wallet, order: Order, mode: string, reply: GatewayReply)
    requires Inv(w) && KeyIsFree(w, order.key)
    ensures var o := DepositStep(w, order, mode, reply);
            && (o.answer.Refused? <==> !DepositAccepted(w, order) || !reply.Replied?)
            && (o.answer.Refused? ==> o.wallet == w)
  {
    if DepositAccepted(w, order) && reply.Replied? { DepositAnswered(w, order, mode, reply.reference, reply.status); }
  }

  /** The user's wallet is active and covers the amount, and the gateway's suspense account is not closed. */
  predicate WithdrawalAccepted(w: Wallet, order: Order, mode: string, supported: bool) {
    && KeyIsFree(w, order.key) && order.amount > 0 && supported
    && var own := WalletOf(w.accounts, order.user);
    && own.Some? && w.accounts[own.value].status == Active && Balance(w.entries, own.value) >= order.amount
    && (mode in w.gateways ==>
          w.gateways[mode] < |w.accounts| && w.accounts[w.gateways[mode]].status != Closed)
  }

  /** The withdrawal as it is written before the gateway is asked. */
  function WrittenWithdrawal(w: Wallet, order: Order, mode: string): Wallet
    requires order.amount > 0 && WalletOf(w.accounts, order.user).Some?
  {
    var a, money := WalletOf(w.accounts, order.user).value, Money(order.amount, XOF);
    var s := SuspenseFor(w, mode, XOF);
    Booked(s.0, Tx(Withdrawal, Pending, order.key, Some(a), Some(money), Some(mode), None, None),
           PairOf(a, s.1, money))
  }

  /** The transfer to the suspense account is made, and describing it gives the withdrawal as written. */
  lemma TransferIsWritten(w: Wallet, order: Order, mode: string, supported: bool)
    requires Inv(w) && WithdrawalAccepted(w, order, mode, supported)
    ensures var a, money := WalletOf(w.accounts, order.user).value, Money(order.amount, XOF);
            var s, v := SuspenseFor(w, mode, XOF), WrittenWithdrawal(w, order, mode);
            var moved := Transfer(s.0, Call(a, s.1, money, Withdrawal, Pending, order.key));
            && moved.answer == Done(|w.txs|, false) && |w.txs| < |moved.wallet.txs|
            && Described(moved.wallet, |w.txs|, a, money, mode) == v && |v.txs| == |w.txs| + 1 && Inv(v)
  {
    var a, money := WalletOf(w.accounts, order.user).value, Money(order.amount, XOF);
    var s := SuspenseFor(w, mode, XOF);
    SuspenseForKeeps(w, mode, XOF);
    var call := Call(a, s.1, money, Withdrawal, Pending, order.key);
    SuspenseIsOpen(w, order, mode, supported);
    TransferMoves(s.0, call, a);
    WithdrawalBookedKeeps(s.0, a, s.1, money, mode, order.key);
    var moved := Transfer(s.0, call);
    assert moved.wallet.txs == w.txs + [Header(Withdrawal, Pending, order.key)];
    assert Described(moved.wallet, |w.txs|, a, money, mode).txs == WrittenWithdrawal(w, order, mode).txs;
  }

  lemma SuspenseIsOpen(w: Wallet, order: Order, mode: string, supported: bool)
    requires Inv(w) && WithdrawalAccepted(w, order, mode, supported)
    ensures var a, s := WalletOf(w.accounts, order.user).value, SuspenseFor(w, mode, XOF);
            Permitted(s.0, Call(a, s.1, Money(order.amount, XOF), Withdrawal, Pending, order.key))
            && Personal(s.0, a) && !s.0.accounts[a].allowsNegative
  {
    SuspenseForKeeps(w, mode, XOF);
  }

  lemma WrittenIsDescribed(w: Wallet, order: Order, mode: string, supported: bool, reply: GatewayReply)
    requires Inv(w) && WithdrawalAccepted(w, order, mode, supported)
    ensures var v := WrittenWithdrawal(w, order, mode);
            && |v.txs| == |w.txs| + 1 && Inv(v)
            && WithdrawStep(w, order, mode, supported, reply) == Initiated(w, v, |w.txs|, mode, reply)
  {
    TransferIsWritten(w, order, mode, supported);
    assert AccountFor(w, order.user) == (w, WalletOf(w.accounts, order.user).value);
    assert Owner(w.txs, order.key).None?;
  }

  lemma WrittenBalance(w: Wallet, order: Order, mode: string)
    requires Inv(w) && order.amount > 0 && WalletOf(w.accounts, order.user).Some?
    ensures var a := WalletOf(w.accounts, order.user).value;
            Balance(WrittenWithdrawal(w, order, mode).entries, a) == Balance(w.entries, a) - order.amount
  {
    var a, money := WalletOf(w.accounts, order.user).value, Money(order.amount, XOF);
    var s := SuspenseFor(w, mode, XOF);
    SuspenseForKeeps(w, mode, XOF);
    BalanceUnder(w.entries, |w.txs|, PairOf(a, s.1, money), a);
  }

  /** The key of the reversal that a withdrawal at the next position would need. */
  predicate MayBeReversed(w: Wallet, key: string) {
    KeyIsFree(w, ReversalKey(|w.txs|)) && key != ReversalKey(|w.txs|)
  }

  /** What the first answer makes of an open withdrawal that was just written. */
  lemma SettledWithdrawal(w: Wallet, t: nat, mode: string, status: GatewayStatus, a: nat)
    requires Inv(w) && Open(w, t) && w.txs[t].kind == Withdrawal && w.txs[t].account == Some(a)
    requires status == GatewayFailed ==> KeyIsFree(w, ReversalKey(t))
    ensures w.txs[t].money.Some?
    ensures var o := Settle(w, t, mode, status);
            && o.answer == Done(t, false) && |w.txs| <= |o.wallet.txs|
            && (forall s :: 0 <= s < |w.txs| && s != t ==> o.wallet.txs[s] == w.txs[s])
            && o.wallet.txs[t] == w.txs[t].(status := if status == GatewayCompleted then Completed
                                                      else if status == GatewayFailed then Reversed else Pending)
            && Balance(o.wallet.entries, a)
               == Balance(w.entries, a) + (if status == GatewayFailed then w.txs[t].money.value.amount else 0)
  {
    OpenIsNamed(w, t);
    ConfirmedOpen(w, t, mode, a);
    FailedOpen(w, t, mode, a);
    if status == GatewayFailed {
      var f := Fail(w, t, mode).wallet.txs;
      assert forall s :: 0 <= s < |w.txs| ==> f[s] == f[..|w.txs|][s];
    }
  }

  lemma ReferencedWithdrawal(w: Wallet, order: Order, mode: string, reference: string)
    requires order.amount > 0 && WalletOf(w.accounts, order.user).Some?
    requires Inv(WrittenWithdrawal(w, order, mode))
    ensures var v := WrittenWithdrawal(w, order, mode);
            && |w.txs| < |v.txs|
            && var r := WithReference(v, |w.txs|, reference);
            && Inv(r) && r.entries == v.entries && r.txs[..|w.txs|] == w.txs
            && (MayBeReversed(w, order.key) ==> KeyIsFree(r, ReversalKey(|w.txs|)))
  {
    ReferenceKeeps(WrittenWithdrawal(w, order, mode), |w.txs|, reference);
  }

  /** A withdrawal that the gateway answers at once: it is completed or left pending with its amount taken, or
      reversed with the amount back. */
  lemma WithdrawalAnswered(w: Wallet, order: Order, mode: string, supported: bool, reference: string,
                           status: GatewayStatus)
    requires Inv(w) && WithdrawalAccepted(w, order, mode, supported)
    requires status == GatewayFailed ==> MayBeReversed(w, order.key)
    ensures var o := WithdrawStep(w, order, mode, supported, Replied(reference, status));
            var a := WalletOf(w.accounts, order.user).value;
            && o.answer == Done(|w.txs|, false) && |o.wallet.txs| > |w.txs| && o.wallet.txs[..|w.txs|] == w.txs
            && var tx := o.wallet.txs[|w.txs|];
            && tx.kind == Withdrawal && tx.reverses.None? && tx.key == order.key && tx.account == Some(a)
            && tx.money == Some(Money(order.amount, XOF)) && tx.providerReference == Some(reference)
            && tx.status == (match status
                             case GatewayCompleted => Completed
                             case GatewayFailed => Reversed
                             case GatewayPending => Pending)
            && Balance(o.wallet.entries, a)
               == Balance(w.entries, a) - (if status == GatewayFailed then 0 else order.amount)
  {
    WrittenIsDescribed(w, order, mode, supported, Replied(reference, status));
    WrittenBalance(w, order, mode);
    var v := WrittenWithdrawal(w, order, mode);
    ReferencedWithdrawal(w, order, mode, reference);
    SettledWithdrawal(WithReference(v, |w.txs|, reference), |w.txs|, mode, status,
                      WalletOf(w.accounts, order.user).value);
  }

  /** A withdrawal is refused, and leaves nothing behind, exactly when its key is new but it is not accepted, the
      gateway does not reply, or it declines one whose reversal's key is taken. */
  lemma WithdrawalRefusedIff(w: Wallet, order: Order, mode: string, supported: bool, reply: GatewayReply)
    requires Inv(w) && KeyIsFree(w, order.key)
    ensures var o := WithdrawStep(w, order, mode, supported, reply);
            && (o.answer.Refused? <==>
                  || !WithdrawalAccepted(w, order, mode, supported) || !reply.Replied?
                  || (reply.status == GatewayFailed && !MayBeReversed(w, order.key)))
            && (o.answer.Refused? ==> o.wallet == w)
  {
    if WithdrawalAccepted(w, order, mode, supported) {
      WrittenIsDescribed(w, order, mode, supported, reply);
      if reply.Replied? {
        if reply.status == GatewayFailed && !MayBeReversed(w, order.key) {
          ReversalKeyTaken(w, order, mode, reply.reference);
        } else {
          WithdrawalAnswered(w, order, mode, supported, reply.reference, reply.status);
        }
      }
    } else if order.amount > 0 && supported {
      NotAccepted(w, order, mode, supported, reply);
    }
  }

  lemma ReversalKeyTaken(w: Wallet, order: Order, mode: string, reference: string)
    requires Inv(w) && order.amount > 0 && WalletOf(w.accounts, order.user).Some?
    requires Inv(WrittenWithdrawal(w, order, mode)) && !MayBeReversed(w, order.key)
    ensures var v := WrittenWithdrawal(w, order, mode);
            |w.txs| < |v.txs| && Fail(WithReference(v, |w.txs|, reference), |w.txs|, mode).answer.Refused?
  {
    var v, t := WrittenWithdrawal(w, order, mode), |w.txs|;
    ReferenceKeeps(v, t, reference);
    var r := WithReference(v, t, reference);
    if order.key == ReversalKey(t) {
      assert r.txs[t].key == ReversalKey(t);
    } else {
      var s :| 0 <= s < |w.txs| && w.txs[s].key == ReversalKey(t);
      assert r.txs[s].key == ReversalKey(t);
    }
    FailedOpen(r, t, mode, 0);
  }

  /** The transfer of a withdrawal that is not accepted is refused. */
  lemma NotAccepted(w: Wallet, order: Order, mode: string, supported: bool, reply: GatewayReply)
    requires Inv(w) && KeyIsFree(w, order.key) && order.amount > 0 && supported
    requires !WithdrawalAccepted(w, order, mode, supported)
    ensures WithdrawStep(w, order, mode, supported, reply).answer.Refused?
    ensures WithdrawStep(w, order, mode, supported, reply).wallet == w
  {
    var own := AccountFor(w, order.user);
    AccountForKeeps(w, order.user);
    var s := SuspenseFor(own.0, mode, XOF);
    SuspenseForKeeps(own.0, mode, XOF);
    var call := Call(own.1, s.1, Money(order.amount, XOF), Withdrawal, Pending, order.key);
    NotPermitted(w, order, mode);
    RefusalIs(s.0, call);
  }

  lemma NotPermitted(w: Wallet, order: Order, mode: string)
    requires Inv(w) && KeyIsFree(w, order.key) && order.amount > 0 && !WithdrawalAccepted(w, order, mode, true)
    ensures var own := AccountFor(w, order.user);
            var s := SuspenseFor(own.0, mode, XOF);
            !Permitted(s.0, Call(own.1, s.1, Money(order.amount, XOF), Withdrawal, Pending, order.key))
  {
    AccountForKeeps(w, order.user);
    SuspenseForKeeps(AccountFor(w, order.user).0, mode, XOF);
    if WalletOf(w.accounts, order.user).None? { OpenKeeps(w, NewUserAccount(order.user)); }
  }

  // --- Every run ----------------------------------------------------------------------------------------------------

  /** A deposit or a withdrawal, and not the reversal of one. */
  predicate Operation(tx: Tx) { !tx.kind.Movement? && tx.reverses.None? }

  /** A step that tells that operation t, open until then, was completed. */
  predicate TellsCompleted(w: Wallet, step: Step, t: nat) {
    match step
    case StepConfirm(u, _) => u == t && Open(w, t)
    case StepReconcile(u, reply) =>
      u == t && Verifiable(w, t) && reply.Verified? && reply.status == GatewayCompleted
      && AnswerAgrees(w.txs[t], reply.amount, reply.currency)
    case StepDeposit(order, _, reply) =>
      t == |w.txs| && reply.Replied? && reply.status == GatewayCompleted && DepositAccepted(w, order)
    case StepWithdraw(order, mode, supported, reply) =>
      t == |w.txs| && reply.Replied? && reply.status == GatewayCompleted
      && WithdrawalAccepted(w, order, mode, supported)
    case _ => false
  }

  /** A step that tells that operation t, open until then, failed, and may take it back. */
  predicate TellsFailed(w: Wallet, step: Step, t: nat) {
    match step
    case StepFail(u, _) => u == t && Open(w, t) && MayFail(w, t)
    case StepReconcile(u, reply) =>
      u == t && Verifiable(w, t) && MayFail(w, t) && reply.Verified? && reply.status == GatewayFailed
    case StepDeposit(order, _, reply) =>
      t == |w.txs| && reply.Replied? && reply.status == GatewayFailed && DepositAccepted(w, order)
    case StepWithdraw(order, mode, supported, reply) =>
      t == |w.txs| && reply.Replied? && reply.status == GatewayFailed
      && WithdrawalAccepted(w, order, mode, supported) && MayBeReversed(w, order.key)
    case _ => false
  }

  predicate MayFail(w: Wallet, t: nat)
    requires t < |w.txs|
  {
    w.txs[t].kind == Deposit || KeyIsFree(w, ReversalKey(t))
  }

  function Undone(kind: TxKind): TxStatus { if kind == Deposit then Failed else Reversed }

  predicate Was(w: Wallet, t: nat, status: TxStatus) { t < |w.txs| && w.txs[t].status == status }

  /** What a step that takes w to v does to the status of transaction t. */
  predicate Tells(w: Wallet, v: Wallet, t: nat, completed: bool, failed: bool) {
    && |w.txs| <= |v.txs|
    && (t < |w.txs| ==> v.txs[t].kind == w.txs[t].kind && v.txs[t].reverses == w.txs[t].reverses)
    && (t < |v.txs| && Operation(v.txs[t]) ==>
          if t < |w.txs| && w.txs[t].status != Pending
          then v.txs[t].status == w.txs[t].status && !completed && !failed
          else !(completed && failed)
               && v.txs[t].status == if completed then Completed else if failed then Undone(v.txs[t].kind) else Pending)
    && (t >= |v.txs| ==> !completed && !failed)
  }

  lemma ConfirmTells(w: Wallet, u: nat, mode: string, t: nat)
    requires Inv(w)
    ensures Tells(w, Confirm(w, u, mode).wallet, t, u == t && Open(w, t), false)
  {
    if Open(w, u) { ConfirmedOpen(w, u, mode, 0); }
  }

  lemma FailTells(w: Wallet, u: nat, mode: string, t: nat)
    requires Inv(w)
    ensures Tells(w, Fail(w, u, mode).wallet, t, false, u == t && Open(w, t) && MayFail(w, t))
  {
    if Open(w, u) {
      OpenIsNamed(w, u);
      FailedOpen(w, u, mode, 0);
      var v := Fail(w, u, mode).wallet;
      if v != w && |v.txs| > |w.txs| {
        assert forall s :: 0 <= s < |w.txs| ==> v.txs[s] == v.txs[..|w.txs|][s];
      }
    }
  }

  /** Verifying an open transaction confirms it, fails it or leaves everything. */
  lemma ReconcileIs(w: Wallet, u: nat, reply: VerifierReply)
    requires Inv(w) && Verifiable(w, u) && reply.Verified?
    ensures var mode := if w.txs[u].mode.Some? then w.txs[u].mode.value else "paystack";
            ReconcileStep(w, u, reply).0
            == if reply.status == GatewayFailed then Fail(w, u, mode).wallet
               else if reply.status == GatewayCompleted && AnswerAgrees(w.txs[u], reply.amount, reply.currency)
               then Confirm(w, u, mode).wallet else w
  {
    var mode := if w.txs[u].mode.Some? then w.txs[u].mode.value else "paystack";
    OpenIsNamed(w, u);
    FailedOpen(w, u, mode, 0);
    ConfirmedOpen(w, u, mode, 0);
  }

  lemma ReconcileTells(w: Wallet, u: nat, reply: VerifierReply, t: nat)
    requires Inv(w)
    ensures var step := StepReconcile(u, reply);
            Tells(w, Next(w, step), t, TellsCompleted(w, step, t), TellsFailed(w, step, t))
  {
    if Verifiable(w, u) && reply.Verified? {
      var mode := if w.txs[u].mode.Some? then w.txs[u].mode.value else "paystack";
      ReconcileIs(w, u, reply);
      ConfirmTells(w, u, mode, t);
      FailTells(w, u, mode, t);
    } else {
      OtherAnswersChangeNothing(w, u, reply);
    }
  }

  lemma DepositTells(w: Wallet, order: Order, mode: string, reply: GatewayReply, t: nat)
    requires Inv(w)
    ensures var step := StepDeposit(order, mode, reply);
            Tells(w, Next(w, step), t, TellsCompleted(w, step, t), TellsFailed(w, step, t))
  {
    var v := DepositStep(w, order, mode, reply).wallet;
    if KeyIsFree(w, order.key) {
      DepositRefusedIff(w, order, mode, reply);
      if DepositAccepted(w, order) && reply.Replied? {
        DepositAnswered(w, order, mode, reply.reference, reply.status);
        assert forall s :: 0 <= s < |w.txs| ==> v.txs[s] == v.txs[..|w.txs|][s];
      }
    }
  }

  /** A withdrawal that is kept. */
  lemma KeptTells(w: Wallet, order: Order, mode: string, supported: bool, reply: GatewayReply, t: nat)
    requires Inv(w) && WithdrawalAccepted(w, order, mode, supported) && reply.Replied?
    requires reply.status == GatewayFailed ==> MayBeReversed(w, order.key)
    ensures Tells(w, WithdrawStep(w, order, mode, supported, reply).wallet, t,
                  t == |w.txs| && reply.status == GatewayCompleted, t == |w.txs| && reply.status == GatewayFailed)
  {
    var v := WithdrawStep(w, order, mode, supported, reply).wallet;
    WithdrawalAnswered(w, order, mode, supported, reply.reference, reply.status);
    NewRowsOfWithdrawal(w, order, mode, supported, reply);
    assert forall s :: 0 <= s < |w.txs| ==> v.txs[s] == v.txs[..|w.txs|][s];
  }

  lemma WithdrawTells(w: Wallet, order: Order, mode: string, supported: bool, reply: GatewayReply, t: nat)
    requires Inv(w)
    ensures var step := StepWithdraw(order, mode, supported, reply);
            Tells(w, Next(w, step), t, TellsCompleted(w, step, t), TellsFailed(w, step, t))
  {
    if KeyIsFree(w, order.key) {
      WithdrawalRefusedIff(w, order, mode, supported, reply);
      if !WithdrawStep(w, order, mode, supported, reply).answer.Refused? {
        KeptTells(w, order, mode, supported, reply, t);
      }
    }
  }

  /** A withdrawal adds its own row, and when it is declined the row of its reversal. */
  lemma NewRowsOfWithdrawal(w: Wallet, order: Order, mode: string, supported: bool, reply: GatewayReply)
    requires Inv(w) && WithdrawalAccepted(w, order, mode, supported) && reply.Replied?
    requires reply.status == GatewayFailed ==> MayBeReversed(w, order.key)
    ensures var v := WithdrawStep(w, order, mode, supported, reply).wallet;
            forall s :: |w.txs| < s < |v.txs| ==> v.txs[s].reverses.Some?
  {
    WrittenIsDescribed(w, order, mode, supported, reply);
    ReferencedWithdrawal(w, order, mode, reply.reference);
    var r := WithReference(WrittenWithdrawal(w, order, mode), |w.txs|, reply.reference);
    ConfirmedOpen(r, |w.txs|, mode, 0);
    FailedOpen(r, |w.txs|, mode, 0);
  }

  lemma StepTells(w: Wallet, step: Step, t: nat)
    requires Inv(w) && Legal(step)
    ensures Tells(w, Next(w, step), t, TellsCompleted(w, step, t), TellsFailed(w, step, t))
  {
    match step
    case StepConfirm(u, mode) => ConfirmTells(w, u, mode, t);
    case StepFail(u, mode) => FailTells(w, u, mode, t);
    case StepReconcile(u, reply) => ReconcileTells(w, u, reply, t);
    case StepDeposit(order, mode, reply) => DepositTells(w, order, mode, reply, t);
    case StepWithdraw(order, mode, supported, reply) => WithdrawTells(w, order, mode, supported, reply, t);
    case _ =>
  }

  predicate SomeTellsCompleted(w: Wallet, steps: seq<Step>, t: nat)
    decreases |steps|
  {
    steps != [] && (TellsCompleted(w, steps[0], t) || SomeTellsCompleted(Next(w, steps[0]), steps[1..], t))
  }

  predicate SomeTellsFailed(w: Wallet, steps: seq<Step>, t: nat)
    decreases |steps|
  {
    steps != [] && (TellsFailed(w, steps[0], t) || SomeTellsFailed(Next(w, steps[0]), steps[1..], t))
  }

  lemma {:induction false} RunTells(w: Wallet, steps: seq<Step>, t: nat)
    requires Inv(w) && AllLegal(steps)
    ensures var v := Run(w, steps);
            && |w.txs| <= |v.txs|
            && (t < |v.txs| && Operation(v.txs[t]) ==>
                  && (v.txs[t].status == Completed <==> Was(w, t, Completed) || SomeTellsCompleted(w, steps, t))
                  && (v.txs[t].status == Undone(v.txs[t].kind) <==>
                        Was(w, t, Undone(v.txs[t].kind)) || SomeTellsFailed(w, steps, t)))
    ensures t < |w.txs| ==> Run(w, steps).txs[t].kind == w.txs[t].kind
                            && Run(w, steps).txs[t].reverses == w.txs[t].reverses
    decreases |steps|
  {
    if steps != [] {
      var u := Next(w, steps[0]);
      StepTells(w, steps[0], t);
      NextKeeps(w, steps[0]);
      RunTells(u, steps[1..], t);
    }
  }

  /** Over every run: a deposit or a withdrawal is completed if and only if somebody confirmed it, or the gateway
      answered "completed" in agreement with it, while it was open; and it is failed or reversed if and only if
      somebody failed it, or the gateway answered "failed", while it was open and could be taken back. */
  lemma StatusIsWhatWasTold(steps: seq<Step>, t: nat)
    requires AllLegal(steps) && t < |Run(EMPTY, steps).txs| && Operation(Run(EMPTY, steps).txs[t])
    ensures var tx := Run(EMPTY, steps).txs[t];
            && (tx.status == Completed <==> SomeTellsCompleted(EMPTY, steps, t))
            && (tx.status == (if tx.kind == Deposit then Failed else Reversed) <==> SomeTellsFailed(EMPTY, steps, t))
  {
    RunTells(EMPTY, steps, t);
  }
}
