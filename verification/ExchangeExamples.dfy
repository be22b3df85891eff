/** Repeating a conversion under its own key, which the ledger replays and the conversion table does not. */
module ExchangeExamples {
  import opened Options
  import opened Sums
  import opened WalletLedger
  import opened WalletUseCases
  import opened WalletSafety
  import opened Rounding
  import opened WalletMoney
  import opened CurrencyExchange
  import Runs

  /** The state a first conversion of customers leaves: positions open, both keys taken. */
  lemma ConvertedState(s: Fx, c: Conversion)
    requires FxInv(s) && Customers(s.wallet, c) && ConvertStep(s, c).1.Converted?
    ensures var v, target := ConvertStep(s, c).0.wallet, Quoted(s.wallet, c).1;
            && s.wallet.accounts <= v.accounts
            && PositionOf(v.accounts, c.money.currency).Some? && PositionOf(v.accounts, target.currency).Some?
            && Owner(v.txs, OutKey(c.key)).Some? && Owner(v.txs, InKey(c.key)).Some?
  {
    var target := Quoted(s.wallet, c).1;
    QuotedFits(s.wallet, c);
    var (w, source, other) := WithPositions(s.wallet, c.money.currency, target.currency);
    WithPositionsKeep(s.wallet, c.money.currency, target.currency);
    var out := Transfer(w, OutCall(c, source));
    KeysDiffer(c.key);
    TransferTakesKey(w, OutCall(c, source));
    TransferTakesKey(out.wallet, InCall(c, other, target));
    OtherKeyStays(out.wallet, InCall(c, other, target), OutKey(c.key));
  }

  lemma TransferTakesKey(w: Wallet, call: Call)
    requires Transfer(w, call).answer.Done?
    ensures Owner(Transfer(w, call).wallet.txs, call.key).Some? && Transfer(w, call).wallet.accounts == w.accounts
  {
  }

  /** A conversion that was accepted is accepted again under the same key, and the wallet stays as it is. */
  lemma RepeatIsAccepted(s: Fx, c: Conversion)
    requires FxInv(s) && Customers(s.wallet, c) && ConvertStep(s, c).1.Converted?
    ensures var first := ConvertStep(s, c);
            && ConvertStep(first.0, c).1 == first.1 && ConvertStep(first.0, c).0.wallet == first.0.wallet
            && |ConvertStep(first.0, c).0.conversions| == |s.conversions| + 2
  {
    ConvertedState(s, c);
    FirstRow(s, c);
    QuotedStays(s.wallet, ConvertStep(s, c).0.wallet, c);
    ReplayedStep(ConvertStep(s, c).0, c, Quoted(s.wallet, c).1);
  }

  /** What an accepted conversion answers, and its one row. */
  lemma FirstRow(s: Fx, c: Conversion)
    requires ConvertStep(s, c).1.Converted?
    ensures Quoted(s.wallet, c).0.None? && c.rate.Some?
    ensures ConvertStep(s, c).1 == Converted(c.money, Quoted(s.wallet, c).1, c.rate.value)
    ensures |ConvertStep(s, c).0.conversions| == |s.conversions| + 1
  {
    QuotedFits(s.wallet, c);
  }

  lemma QuotedStays(w: Wallet, v: Wallet, c: Conversion)
    requires w.accounts <= v.accounts && Quoted(w, c).0.None?
    ensures Quoted(v, c) == Quoted(w, c)
  {
    assert v.accounts[c.source] == w.accounts[c.source] && v.accounts[c.target] == w.accounts[c.target];
  }

  lemma ReplayedStep(s: Fx, c: Conversion, target: Money)
    requires PositionOf(s.wallet.accounts, c.money.currency).Some?
    requires PositionOf(s.wallet.accounts, target.currency).Some?
    requires Owner(s.wallet.txs, OutKey(c.key)).Some? && Owner(s.wallet.txs, InKey(c.key)).Some? && c.rate.Some?
    ensures var (after, answer) := Exchanged(s, c, target, c.rate.value);
            && after.wallet == s.wallet && |after.conversions| == |s.conversions| + 1
            && answer == Converted(c.money, target, c.rate.value)
  {
  }

  /** Repeating any accepted conversion of customers under its key leaves a position that no longer fits. */
  lemma RepeatBreaksPositions(s: Fx, c: Conversion)
    requires FxInv(s) && FxLegal(s, Exchange(c)) && ConvertStep(s, c).1.Converted?
    ensures FxInv(ConvertStep(s, c).0) && !FxInv(ConvertStep(ConvertStep(s, c).0, c).0)
  {
    var first := ConvertStep(s, c).0;
    PositionsHoldIffKeysNew(s, c);
    RepeatIsAccepted(s, c);
    ConvertedState(s, c);
    QuotedFits(s.wallet, c);
    assert c.source < |s.wallet.accounts| && c.target < |s.wallet.accounts|;
    PositionsHoldIffKeysNew(first, c);
  }

  // --- A run -------------------------------------------------------------------------------------------

  const EUROS := Account(Merchant, EUR, Active, false, None, Some(2))
  const DEPOSIT := StepDeposit(Order(2, "mtn", 1000, false, "d"), "mode", Replied("p", GatewayCompleted))
  const CONVERSION := ConversionCall(0, 2, Money(500, XOF), "k", Some(0.01))
  const STEPS := [Plain(DEPOSIT), Plain(StepOpen(EUROS))]

  function Ready(): Wallet {
    Wallet([NewUserAccount(2), NewSuspense("mode", XOF), EUROS],
           [Tx(Deposit, Completed, "d", Some(0), Some(Money(1000, XOF)), Some("mode"), Some("p"), None)],
           Under(0, PairOf(1, 0, Money(1000, XOF))), map["mode" := 1])
  }

  lemma FxRunSnoc(s: Fx, steps: seq<FxStep>, step: FxStep)
    ensures FxRun(s, steps + [step]) == FxNext(FxRun(s, steps), step)
  {
    Runs.Snoc(FxRun, FxNext, s, steps, step);
  }

  lemma DepositState()
    ensures Next(EMPTY, DEPOSIT) == Ready().(accounts := Ready().accounts[..2])
  {
    var row := PendingDeposit("d", 0, Money(1000, XOF), "mode");
    var lines := PairOf(1, 0, Money(1000, XOF));
    PairBalancedIff(lines);
    var ready := SuspenseFor(AccountFor(EMPTY, 2).0, "mode", XOF).0;
    assert ready.accounts == Ready().accounts[..2] && ready.gateways == Ready().gateways;
    var written := WithReference(ready.(txs := ready.txs + [row]), 0, "p");
    assert written.txs == [row.(providerReference := Some("p"))];
    var confirmed := Confirm(written, 0, "mode");
    assert confirmed.wallet.txs == Ready().txs;
    assert confirmed.wallet.entries == Under(0, lines);
  }

  lemma ReadyState()
    ensures FxLegalRun(FX_START, STEPS) && FxRun(FX_START, STEPS) == Fx(Ready(), [])
  {
    DepositState();
    FxRunSnoc(FX_START, [], STEPS[0]);
    FxRunSnoc(FX_START, [STEPS[0]], STEPS[1]);
    assert [] + [STEPS[0]] == [STEPS[0]] && [STEPS[0]] + [STEPS[1]] == STEPS;
    assert Ready().accounts[..2] + [EUROS] == Ready().accounts;
    assert FxRun(FX_START, [STEPS[0]]) == Fx(Next(EMPTY, DEPOSIT), []);
  }

  lemma NoPositionYet()
    ensures PositionOf(Ready().accounts, XOF) == None && PositionOf(Ready().accounts, EUR) == None
    ensures var (w, source, other) := WithPositions(Ready(), XOF, EUR);
            && source == 3 && other == 4
            && w == Ready().(accounts := Ready().accounts + [NewPosition(XOF)] + [NewPosition(EUR)])
  {
    assert PositionOf(Ready().accounts, XOF) == None && PositionOf(Ready().accounts, EUR) == None;
    var first := Ready().accounts + [NewPosition(XOF)];
    assert first[..3] == Ready().accounts;
    assert PositionOf(first, EUR) == None;
  }

  lemma FiveEuros()
    ensures Quoted(Ready(), CONVERSION) == (None, Money(500, EUR))
  {
    assert 500.0 / 1.0 * 0.01 * 100.0 == 500.0;
    assert Exact(Money(500, XOF), EUR, 0.01) == 500.0 && HalfUp(500.0) == 500;
  }

  lemma TransfersAccepted(w: Wallet)
    requires w == Ready().(accounts := Ready().accounts + [NewPosition(XOF)] + [NewPosition(EUR)])
    ensures Transfer(w, OutCall(CONVERSION, 3)).answer.Done?
    ensures Transfer(Transfer(w, OutCall(CONVERSION, 3)).wallet, InCall(CONVERSION, 4, Money(500, EUR))).answer.Done?
  {
    BalanceUnder([], 0, PairOf(1, 0, Money(1000, XOF)), 0);
    assert [] + w.entries == w.entries;
    PairBalancedIff(PairOf(0, 3, Money(500, XOF)));
    PairBalancedIff(PairOf(4, 2, Money(500, EUR)));
  }

  lemma KeysAreNew()
    ensures Owner(Ready().txs, OutKey("k")).None? && Owner(Ready().txs, InKey("k")).None?
  {
    assert |OutKey("k")| > 1 && |InKey("k")| > 1;
  }

  lemma ConversionIsAccepted()
    ensures FxLegal(Fx(Ready(), []), Exchange(CONVERSION)) && ConvertStep(Fx(Ready(), []), CONVERSION).1.Converted?
  {
    KeysAreNew();
    FiveEuros();
    NoPositionYet();
    TransfersAccepted(WithPositions(Ready(), XOF, EUR).0);
  }

  /** The books and the position after an accepted conversion under a new key, and after its repetition. */
  lemma TwiceOnTheBooks(s: Fx, c: Conversion)
    requires FxInv(s) && FxLegal(s, Exchange(c)) && ConvertStep(s, c).1.Converted?
    ensures var first := ConvertStep(s, c).0;
            var second := ConvertStep(first, c).0;
            var e := c.money.currency;
            && |second.conversions| == |s.conversions| + 2
            && PositionBalance(second.wallet, e) == PositionBalance(s.wallet, e) + c.money.amount
            && SumBy(second.conversions, TakenIn(e)) == SumBy(s.conversions, TakenIn(e)) + 2 * c.money.amount
  {
    var first := ConvertStep(s, c).0;
    RepeatIsAccepted(s, c);
    OnTheBooks(s, c);
    OnTheBooks(first, c);
    QuotedFits(s.wallet, c);
    ExchangeShifts(s, c, Quoted(s.wallet, c).1, c.rate.value, c.money.currency);
  }

  lemma OnTheBooks(s: Fx, c: Conversion)
    requires ConvertStep(s, c).1.Converted?
    ensures SumBy(ConvertStep(s, c).0.conversions, TakenIn(c.money.currency))
            == SumBy(s.conversions, TakenIn(c.money.currency)) + c.money.amount
  {
    SumAppend(s.conversions, ConvertStep(s, c).0.conversions[|s.conversions|], TakenIn(c.money.currency));
  }

  lemma TwoSteps()
    ensures FxRun(FX_START, STEPS + [Exchange(CONVERSION)] + [Exchange(CONVERSION)])
            == ConvertStep(ConvertStep(Fx(Ready(), []), CONVERSION).0, CONVERSION).0
  {
    ReadyState();
    FxRunSnoc(FX_START, STEPS, Exchange(CONVERSION));
    FxRunSnoc(FX_START, STEPS + [Exchange(CONVERSION)], Exchange(CONVERSION));
  }

  /** 500 francs converted twice under one key: 1000 are on the books, 500 in the position. */
  lemma RepeatedConversionExample()
    ensures var s := FxRun(FX_START, STEPS + [Exchange(CONVERSION)] + [Exchange(CONVERSION)]);
            && |s.conversions| == 2 && PositionBalance(s.wallet, XOF) == 500
            && SumBy(s.conversions, TakenIn(XOF)) == 1000
  {
    TwoSteps();
    ReadyBooks();
    ConversionIsAccepted();
    TwiceOnTheBooks(Fx(Ready(), []), CONVERSION);
  }

  lemma ReadyBooks()
    ensures FxInv(Fx(Ready(), [])) && PositionBalance(Ready(), XOF) == 0
  {
    ReadyState();
    StartIsOk();
    FxRunKeeps(FX_START, STEPS);
    NoPositionYet();
  }

  lemma StartIsOk()
    ensures FxInv(FX_START)
  {
  }
}
