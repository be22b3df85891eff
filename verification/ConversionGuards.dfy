/** When a conversion is made and what it does to the two customers, told by accounts, rates and balances. */
module ConversionGuards {
  import opened Options
  import opened Rounding
  import opened WalletLedger
  import opened WalletSafety
  import opened WalletMoney
  import opened CurrencyExchange

  /** Both accounts are there and in different currencies, the money is the source's and positive, the rate is known
      and positive, and half a unit or more would be paid out. */
  predicate Quotable(w: Wallet, c: Conversion) {
    && c.source < |w.accounts| && c.target < |w.accounts|
    && w.accounts[c.source].currency != w.accounts[c.target].currency
    && c.money.currency == w.accounts[c.source].currency && c.money.amount > 0
    && c.rate.Some? && c.rate.value > 0.0
    && c.money.amount as real / Unit(c.money.currency) * c.rate.value * Unit(w.accounts[c.target].currency) >= 0.5
  }

  lemma QuotedIff(w: Wallet, c: Conversion)
    ensures var (error, target) := Quoted(w, c);
            && (error.None? <==> Quotable(w, c))
            && (error.None? ==>
                  && target.currency == w.accounts[c.target].currency && target.amount > 0
                  && Convert(c.money, target.currency, c.rate.value) == Some(target))
            && (error == Some(SameCurrency) <==>
                  c.source < |w.accounts| && c.target < |w.accounts|
                  && w.accounts[c.source].currency == w.accounts[c.target].currency)
            && (error == Some(RateUnavailable) ==> c.rate.None?)
  {
  }

  /** The position of a currency may take part: it is not there yet, or active. */
  predicate PositionReady(w: Wallet, c: Currency) {
    forall a :: 0 <= a < |w.accounts| && PositionIn(w.accounts[a], c) ==> w.accounts[a].status == Active
  }

  /** The source is active and covers the money, and the target is not closed. */
  predicate CustomersReady(w: Wallet, c: Conversion)
    requires c.source < |w.accounts| && c.target < |w.accounts|
  {
    && w.accounts[c.source].status == Active && w.accounts[c.target].status != Closed
    && (w.accounts[c.source].allowsNegative || c.money.amount <= Balance(w.entries, c.source))
  }

  lemma ReadyPosition(w: Wallet, c: Currency)
    requires Inv(w) && OnePositionEach(w) && PositionReady(w, c)
    ensures var p := PositionFor(w, c);
            && p.1 < |p.0.accounts| && p.0.accounts[p.1].currency == c && p.0.accounts[p.1].status == Active
            && p.0.accounts[p.1].allowsNegative && w.accounts <= p.0.accounts && p.0.entries == w.entries
            && (forall d: Currency :: d != c && PositionReady(w, d) ==> PositionReady(p.0, d))
  {
    PositionForKeeps(w, c);
  }

  /** Both positions once they are open. */
  lemma ReadyPositions(w: Wallet, c: Currency, d: Currency)
    requires Inv(w) && OnePositionEach(w) && c != d && PositionReady(w, c) && PositionReady(w, d)
    ensures var (v, a, b) := WithPositions(w, c, d);
            && a < |v.accounts| && b < |v.accounts|
            && v.accounts[a].currency == c && v.accounts[a].status == Active && v.accounts[a].allowsNegative
            && v.accounts[b].currency == d && v.accounts[b].status == Active && v.accounts[b].allowsNegative
            && w.accounts <= v.accounts && v.entries == w.entries && v.txs == w.txs
  {
    ReadyPosition(w, c);
    PositionForKeeps(w, c);
    ReadyPosition(PositionFor(w, c).0, d);
    PositionForKeeps(PositionFor(w, c).0, d);
  }

  /** The transfer out of the source and then the one into the target are made, and move the two customers. */
  lemma BothTransfersMove(w: Wallet, c: Conversion, a: nat, b: nat, target: Money)
    requires c.source < |w.accounts| && c.target < |w.accounts| && a < |w.accounts| && b < |w.accounts|
    requires c.source != c.target && a != c.source && a != c.target && b != c.source && b != c.target && a != b
    requires w.accounts[a].currency == c.money.currency == w.accounts[c.source].currency
    requires w.accounts[b].currency == target.currency == w.accounts[c.target].currency
    requires w.accounts[a].status == Active && w.accounts[b].status == Active && w.accounts[b].allowsNegative
    requires c.money.amount > 0 && target.amount > 0 && CustomersReady(w, c)
    requires Owner(w.txs, OutKey(c.key)).None? && Owner(w.txs, InKey(c.key)).None?
    ensures var out := Transfer(w, OutCall(c, a));
            var into := Transfer(out.wallet, InCall(c, b, target));
            && out.answer.Done? && into.answer.Done?
            && Balance(into.wallet.entries, c.source) == Balance(w.entries, c.source) - c.money.amount
            && Balance(into.wallet.entries, c.target) == Balance(w.entries, c.target) + target.amount
  {
    var out := Transfer(w, OutCall(c, a));
    KeysDiffer(c.key);
    TransferMoves(w, OutCall(c, a), c.source);
    TransferMoves(w, OutCall(c, a), c.target);
    OtherKeyStays(w, OutCall(c, a), InKey(c.key));
    assert out.wallet.accounts == w.accounts;
    TransferMoves(out.wallet, InCall(c, b, target), c.source);
    TransferMoves(out.wallet, InCall(c, b, target), c.target);
  }

  /** A conversion between ready customers, through ready positions and under new keys, is made whenever it can be
      quoted: the source gives its money and the target gets the converted amount. */
  lemma ConversionMoves(s: Fx, c: Conversion)
    requires FxInv(s) && Customers(s.wallet, c) && Quotable(s.wallet, c) && CustomersReady(s.wallet, c)
    requires PositionReady(s.wallet, s.wallet.accounts[c.source].currency)
    requires PositionReady(s.wallet, s.wallet.accounts[c.target].currency)
    requires Owner(s.wallet.txs, OutKey(c.key)).None? && Owner(s.wallet.txs, InKey(c.key)).None?
    ensures var (after, answer) := ConvertStep(s, c);
            var target := Quoted(s.wallet, c).1;
            && answer == Converted(c.money, target, c.rate.value)
            && target.currency == s.wallet.accounts[c.target].currency
            && Balance(after.wallet.entries, c.source) == Balance(s.wallet.entries, c.source) - c.money.amount
            && Balance(after.wallet.entries, c.target) == Balance(s.wallet.entries, c.target) + target.amount
            && |after.conversions| == |s.conversions| + 1
  {
    QuotedIff(s.wallet, c);
    var target := Quoted(s.wallet, c).1;
    ReadyPositions(s.wallet, c.money.currency, target.currency);
    WithPositionsKeep(s.wallet, c.money.currency, target.currency);
    var (w, a, b) := WithPositions(s.wallet, c.money.currency, target.currency);
    BothTransfersMove(w, c, a, b, target);
  }

  /** A conversion that cannot be quoted is rejected and changes nothing. */
  lemma UnquotableIsRejected(s: Fx, c: Conversion)
    requires !Quotable(s.wallet, c)
    ensures ConvertStep(s, c).0 == s && ConvertStep(s, c).1.Rejected?
  {
    QuotedIff(s.wallet, c);
  }

  /** One of the two transfers is refused when a customer is not ready. */
  lemma OneTransferIsRefused(w: Wallet, c: Conversion, a: nat, b: nat, target: Money)
    requires c.source < |w.accounts| && c.target < |w.accounts| && !CustomersReady(w, c)
    requires Owner(w.txs, OutKey(c.key)).None? && Owner(w.txs, InKey(c.key)).None?
    ensures var out := Transfer(w, OutCall(c, a));
            out.answer.Refused? || Transfer(out.wallet, InCall(c, b, target)).answer.Refused?
  {
    var out := Transfer(w, OutCall(c, a));
    RefusalIs(w, OutCall(c, a));
    if out.answer.Done? {
      KeysDiffer(c.key);
      OtherKeyStays(w, OutCall(c, a), InKey(c.key));
      assert out.wallet.accounts == w.accounts;
      RefusalIs(out.wallet, InCall(c, b, target));
    }
  }

  /** A conversion whose source cannot pay, or whose target is closed, is rejected and changes nothing, its positions
      included. */
  lemma UncoveredIsRejected(s: Fx, c: Conversion)
    requires FxInv(s) && Quotable(s.wallet, c) && !CustomersReady(s.wallet, c)
    requires Owner(s.wallet.txs, OutKey(c.key)).None? && Owner(s.wallet.txs, InKey(c.key)).None?
    ensures ConvertStep(s, c).0 == s && ConvertStep(s, c).1.Rejected?
  {
    QuotedIff(s.wallet, c);
    var target := Quoted(s.wallet, c).1;
    WithPositionsKeep(s.wallet, c.money.currency, target.currency);
    var (w, a, b) := WithPositions(s.wallet, c.money.currency, target.currency);
    OneTransferIsRefused(w, c, a, b, target);
  }
}
