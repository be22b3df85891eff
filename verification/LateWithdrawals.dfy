/** A withdrawal that looked its key up before another request with the same key was written. The ledger then
    answers with the other request's transaction, and the withdrawal goes on with it: it writes its own account and
    amount on that transaction and asks the gateway again. */
module LateWithdrawals {
  import opened Options
  import opened WalletLedger
  import opened WalletUseCases
  import opened WalletSafety
  import opened WalletTheorems

  /** Where the request first sees the key: when the transfer looks it up, or when the transfer is written. */
  datatype Lookup = InTransfer | InPost

  /** The accounts that a withdrawal opens on the way, and the transfer it asks for. */
  function Prepared(w: Wallet, order: Order, mode: string): (r: (Wallet, Call))
    requires order.amount > 0
    ensures r.0.txs == w.txs
  {
    var own := AccountFor(w, order.user);
    var money := Money(order.amount, own.0.accounts[own.1].currency);
    var suspense := SuspenseFor(own.0, mode, money.currency);
    (suspense.0, Call(own.1, suspense.1, money, Withdrawal, Pending, order.key))
  }

  function Reserved(w: Wallet, order: Order, mode: string, at: Lookup): Outcome
    requires order.amount > 0
  {
    var (ready, call) := Prepared(w, order, mode);
    if at.InTransfer? then Transfer(ready, call) else TransferLocked(ready, call)
  }

  /** The gateway is asked to pay out. */
  predicate Asks(w: Wallet, order: Order, mode: string, supported: bool, at: Lookup) {
    order.amount > 0 && supported && Reserved(w, order, mode, at).answer.Done?
  }

  /** The withdrawal from its first lookup on, which found nothing in an older state. */
  function WithdrawLate(w: Wallet, order: Order, mode: string, supported: bool, at: Lookup, reply: GatewayReply)
    : Outcome
  {
    if order.amount <= 0 then Outcome(w, Refused(InvalidAmount))
    else if !supported then Outcome(w, Refused(NotSupported))
    else
      var moved, call := Reserved(w, order, mode, at), Prepared(w, order, mode).1;
      if moved.answer.Refused? then Outcome(w, moved.answer)
      else
        Initiated(w, Described(moved.wallet, moved.answer.tx, call.source, call.money, mode), moved.answer.tx, mode,
                  reply)
  }

  /** Under a new key, a late withdrawal is an ordinary one. */
  lemma NewKeyIsOnTime(w: Wallet, order: Order, mode: string, supported: bool, at: Lookup, reply: GatewayReply)
    requires Owner(w.txs, order.key).None?
    ensures WithdrawLate(w, order, mode, supported, at, reply) == WithdrawStep(w, order, mode, supported, reply)
  {
  }

  /** What goes on with another request's transaction: nothing is booked. */
  lemma KnownKeyIsReplayed(w: Wallet, order: Order, mode: string, supported: bool, at: Lookup)
    requires Owner(w.txs, order.key).Some? && order.amount > 0
    ensures var (ready, call) := Prepared(w, order, mode);
            && ready.txs == w.txs && ready.entries == w.entries
            && (Asks(w, order, mode, supported, at)
                <==> supported && (at.InPost? ==> Permitted(ready, call)))
            && (Asks(w, order, mode, supported, at) ==>
                  Reserved(w, order, mode, at) == Outcome(ready, Done(Owner(w.txs, order.key).value, true)))
  {
    LateKeyLookup(Prepared(w, order, mode).0, Prepared(w, order, mode).1);
  }

  // --- How often the gateway is asked ----------------------------------------------------------------------

  /** The withdrawal that was kept asked the gateway, and its key names its transaction from then on. */
  lemma KeptWithdrawal(w: Wallet, order: Order, mode: string, supported: bool, reply: GatewayReply, between: seq<Step>)
    requires Inv(w) && AllLegal(between) && Owner(w.txs, order.key).None?
    requires WithdrawStep(w, order, mode, supported, reply).answer.Done?
    ensures Asks(w, order, mode, supported, InTransfer)
    ensures var o := WithdrawStep(w, order, mode, supported, reply);
            var v := Run(o.wallet, between);
            Inv(v) && o.answer == Done(|w.txs|, false) && Owner(v.txs, order.key) == Some(|w.txs|)
  {
    var o := WithdrawStep(w, order, mode, supported, reply);
    WithdrawKeeps(w, order, mode, supported, reply);
    KeptKey(w, order, mode, supported, reply);
    FinalTransactionsStay(o.wallet, between, |w.txs|);
    var v := Run(o.wallet, between);
    assert KeepsTx(o.wallet, v, |w.txs|);
    OwnerIs(v.txs, |w.txs|);
  }

  lemma KeptKey(w: Wallet, order: Order, mode: string, supported: bool, reply: GatewayReply)
    requires Inv(w) && Owner(w.txs, order.key).None?
    requires WithdrawStep(w, order, mode, supported, reply).answer.Done?
    ensures Asks(w, order, mode, supported, InTransfer)
    ensures var o := WithdrawStep(w, order, mode, supported, reply);
            o.answer == Done(|w.txs|, false) && |w.txs| < |o.wallet.txs| && o.wallet.txs[|w.txs|].key == order.key
  {
    NewKeyIsOnTime(w, order, mode, supported, InTransfer, reply);
    var (ready, call) := Prepared(w, order, mode);
    var moved := Transfer(ready, call);
    SettledKey(Described(moved.wallet, moved.answer.tx, call.source, call.money, mode), moved.answer.tx, mode, reply);
  }

  /** Settling an operation answers with its own transaction and keeps its key. */
  lemma SettledKey(w: Wallet, t: nat, mode: string, reply: GatewayReply)
    requires t < |w.txs|
    ensures reply.Replied? ==>
              var o := Settle(WithReference(w, t, reply.reference), t, mode, reply.status);
              && t < |o.wallet.txs| && o.wallet.txs[t].key == w.txs[t].key
              && (o.answer.Done? ==> o.answer == Done(t, false))
  {
  }

  /** Once a withdrawal was kept, another request with its key, after any steps, asks the gateway again exactly when
      it missed its own lookup, its amount is positive and supported, and, if it missed the transfer's lookup too,
      the transfer's checks pass. It books nothing; a request that looks the key up in time asks nothing. */
  lemma GatewayAskedAgainIff(w: Wallet, first: Order, mode: string, supported: bool, reply: GatewayReply,
                             between: seq<Step>, second: Order, again: string, possible: bool, at: Lookup)
    requires Inv(w) && AllLegal(between) && Owner(w.txs, first.key).None? && second.key == first.key
    requires WithdrawStep(w, first, mode, supported, reply).answer.Done?
    ensures var v := Run(WithdrawStep(w, first, mode, supported, reply).wallet, between);
            && Asks(w, first, mode, supported, InTransfer)
            && (Asks(v, second, again, possible, at)
                <==> && second.amount > 0 && possible
                     && var (ready, call) := Prepared(v, second, again);
                        at.InPost? ==> Permitted(ready, call))
            && (forall reference: string ::
                  WithdrawLate(v, second, again, possible, at, Replied(reference, GatewayPending)).wallet.entries
                  == v.entries)
            && (forall r: GatewayReply ::
                  WithdrawStep(v, second, again, possible, r)
                  == Outcome(AccountFor(v, second.user).0, Done(|w.txs|, true)))
  {
    KeptWithdrawal(w, first, mode, supported, reply, between);
    var v := Run(WithdrawStep(w, first, mode, supported, reply).wallet, between);
    if second.amount > 0 { KnownKeyIsReplayed(v, second, again, possible, at); }
  }

  // --- What is written on the other request's transaction --------------------------------------------------

  /** The account and amount may be written on transaction t: they are its own, or nothing depends on them. */
  predicate DescriptionFits(w: Wallet, t: nat, account: nat, money: Money)
    requires t < |w.txs|
  {
    var tx := w.txs[t];
    || tx.reverses.Some? || tx.kind.Movement?
    || (tx.kind == Deposit && tx.status != Completed && account < |w.accounts|
        && w.accounts[account].currency == money.currency == XOF)
    || (tx.account == Some(account) && tx.money == Some(money))
  }

  lemma DescribedRow(w: Wallet, t: nat, account: nat, money: Money, mode: string)
    requires Inv(w) && t < |w.txs| && Personal(w, account) && money.amount > 0
    ensures var v := Described(w, t, account, money, mode);
            TxOk(v, t) <==> DescriptionFits(w, t, account, money)
  {
    assert TxOk(w, t);
    SameReversals(w.txs, Described(w, t, account, money, mode).txs, t);
  }

  lemma OtherDescribedRow(w: Wallet, t: nat, account: nat, money: Money, mode: string, s: nat)
    requires Inv(w) && t < |w.txs| && s < |w.txs|
    ensures var v := Described(w, t, account, money, mode);
            KeepsTx(w, v, s) && (s != t ==> TxOk(v, s))
  {
    assert TxOk(w, s);
    SameReversals(w.txs, Described(w, t, account, money, mode).txs, s);
  }

  /** Writing a withdrawal's account and amount on a transaction that is there already keeps the wallet's invariant
      exactly when they fit: otherwise the transaction shows an amount its lines never moved. */
  lemma DescriptionKeepsIff(w: Wallet, t: nat, account: nat, money: Money, mode: string)
    requires Inv(w) && t < |w.txs| && Personal(w, account) && money.amount > 0
    ensures var v := Described(w, t, account, money, mode);
            && (Inv(v) <==> DescriptionFits(w, t, account, money))
            && (DescriptionFits(w, t, account, money) ==> Later(w, v, {}))
  {
    var v := Described(w, t, account, money, mode);
    DescribedRow(w, t, account, money, mode);
    forall m | m in v.gateways ensures Suspense(v, v.gateways[m]) { assert Suspense(w, w.gateways[m]); }
    forall s | 0 <= s < |w.txs| ensures KeepsTx(w, v, s) && (s != t ==> TxOk(v, s)) {
      OtherDescribedRow(w, t, account, money, mode, s);
    }
  }

  lemma PreparedKeeps(w: Wallet, order: Order, mode: string)
    requires Inv(w) && order.amount > 0
    ensures var (ready, call) := Prepared(w, order, mode);
            && Inv(ready) && Later(w, ready, {}) && ready.txs == w.txs
            && Personal(ready, call.source) && call.money.amount == order.amount
  {
    var own := AccountFor(w, order.user);
    AccountForKeeps(w, order.user);
    var currency := own.0.accounts[own.1].currency;
    SuspenseForKeeps(own.0, mode, currency);
    LaterTransitive(w, own.0, SuspenseFor(own.0, mode, currency).0);
  }

  /** A late withdrawal under a known key is one more step that keeps the wallet's invariant and everything final,
      provided that its description fits the transaction it meets. */
  lemma LateWithdrawalKeeps(w: Wallet, order: Order, mode: string, supported: bool, at: Lookup, reply: GatewayReply)
    requires Inv(w) && Owner(w.txs, order.key).Some? && order.amount > 0
    requires var (ready, call) := Prepared(w, order, mode);
             DescriptionFits(ready, Owner(w.txs, order.key).value, call.source, call.money)
    ensures var v := WithdrawLate(w, order, mode, supported, at, reply).wallet; Inv(v) && Later(w, v, {})
  {
    SameStateIsLater(w);
    KnownKeyIsReplayed(w, order, mode, supported, at);
    if Asks(w, order, mode, supported, at) {
      var (ready, call) := Prepared(w, order, mode);
      var t := Owner(w.txs, order.key).value;
      PreparedKeeps(w, order, mode);
      DescriptionKeepsIff(ready, t, call.source, call.money, mode);
      var described := Described(ready, t, call.source, call.money, mode);
      LaterTransitive(w, ready, described);
      InitiatedKeeps(w, described, t, mode, reply);
    }
  }

  /** The gateway takes a late withdrawal for processing: the wallet's invariant holds afterwards if and only if the
      request names the transaction's own account and amount, or one that neither matters for. A second request for
      another amount therefore leaves a withdrawal that shows an amount its lines never moved. */
  lemma LateWithdrawalKeepsIff(w: Wallet, order: Order, mode: string, at: Lookup, reference: string)
    requires Inv(w) && Owner(w.txs, order.key).Some? && Asks(w, order, mode, true, at)
    ensures var (ready, call) := Prepared(w, order, mode);
            Inv(WithdrawLate(w, order, mode, true, at, Replied(reference, GatewayPending)).wallet)
            <==> DescriptionFits(ready, Owner(w.txs, order.key).value, call.source, call.money)
  {
    KnownKeyIsReplayed(w, order, mode, true, at);
    PreparedKeeps(w, order, mode);
    var (ready, call) := Prepared(w, order, mode);
    var t := Owner(w.txs, order.key).value;
    if DescriptionFits(ready, t, call.source, call.money) {
      LateWithdrawalKeeps(w, order, mode, true, at, Replied(reference, GatewayPending));
    } else {
      var v := Described(ready, t, call.source, call.money, mode);
      DescribedRow(ready, t, call.source, call.money, mode);
      ReferenceOfBadRow(v, t, reference);
    }
  }

  lemma ReferenceOfBadRow(w: Wallet, t: nat, reference: string)
    requires t < |w.txs| && !TxOk(w, t)
    ensures !TxOk(WithReference(w, t, reference), t)
  {
    SameReversals(w.txs, WithReference(w, t, reference).txs, t);
  }
}
