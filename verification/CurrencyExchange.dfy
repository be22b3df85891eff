/** Currency conversion: two transfers, each balanced in its own currency, through one position account per
    currency, and a conversion row that links them. */
module CurrencyExchange {
  import opened Options
  import opened Sums
  import opened WalletLedger
  import opened WalletSafety
  import opened WalletMoney

  datatype ConversionRow = ConversionRow(sourceTx: nat, targetTx: nat, source: Money, target: Money, rate: real)

  datatype Fx = Fx(wallet: Wallet, conversions: seq<ConversionRow>)

  datatype FxError = Ledger(error: Error) | SameCurrency | RateUnavailable

  datatype FxAnswer = Converted(source: Money, target: Money, rate: real) | Rejected(error: FxError)

  /** The rate is what the rates port answers, if it knows one. */
  datatype Conversion = ConversionCall(source: nat, target: nat, money: Money, key: string, rate: Option<real>)

  // --- Position accounts ---------------------------------------------------------------------------------

  predicate PositionIn(a: Account, c: Currency) { a.reference == Some(FxPosition(c)) }

  function NewPosition(c: Currency): Account { Account(Technical, c, Active, true, Some(FxPosition(c)), None) }

  function PositionOf(accounts: seq<Account>, c: Currency): (r: Option<nat>)
    ensures r.Some? ==> r.value < |accounts| && PositionIn(accounts[r.value], c)
    ensures r.None? ==> forall i :: 0 <= i < |accounts| ==> !PositionIn(accounts[i], c)
  {
    Find(accounts, (r: Account) => PositionIn(r, c))
  }

  /** The position account of a currency, opened by its first conversion. */
  function PositionFor(w: Wallet, c: Currency): (Wallet, nat) {
    match PositionOf(w.accounts, c)
    case Some(a) => (w, a)
    case None => (w.(accounts := w.accounts + [NewPosition(c)]), |w.accounts|)
  }

  // --- Converting -------------------------------------------------------------------------------------------

  function OutKey(key: string): string { key + ":out" }

  function InKey(key: string): string { key + ":in" }

  function OutCall(c: Conversion, position: nat): Call {
    Call(c.source, position, c.money, Movement(Purpose.Conversion), Completed, OutKey(c.key))
  }

  function InCall(c: Conversion, position: nat, money: Money): Call {
    Call(position, c.target, money, Movement(Purpose.Conversion), Completed, InKey(c.key))
  }

  /** What a conversion would pay out, or why it is rejected before anything is written. */
  function Quoted(w: Wallet, c: Conversion): (Option<FxError>, Money) {
    if c.source >= |w.accounts| || c.target >= |w.accounts| then (Some(Ledger(AccountNotFound)), c.money)
    else if w.accounts[c.source].currency == w.accounts[c.target].currency then (Some(SameCurrency), c.money)
    else if c.money.currency != w.accounts[c.source].currency || c.money.amount == 0
      then (Some(Ledger(InvalidAmount)), c.money)
    else if c.rate.None? then (Some(RateUnavailable), c.money)
    else match Convert(c.money, w.accounts[c.target].currency, c.rate.value)
      case None => (Some(Ledger(InvalidAmount)), c.money)
      case Some(target) => if target.amount == 0 then (Some(Ledger(InvalidAmount)), c.money) else (None, target)
  }

  /** Both position accounts, opened when missing. */
  function WithPositions(w: Wallet, source: Currency, target: Currency): (Wallet, nat, nat) {
    var first := PositionFor(w, source);
    var second := PositionFor(first.0, target);
    (second.0, first.1, second.1)
  }

  /** The two transfers and the row, for a conversion that was quoted. */
  function Exchanged(s: Fx, c: Conversion, target: Money, rate: real): (Fx, FxAnswer) {
    var (w, source, other) := WithPositions(s.wallet, c.money.currency, target.currency);
    var out := Transfer(w, OutCall(c, source));
    if out.answer.Refused? then (s, Rejected(Ledger(out.answer.error))) else
      var into := Transfer(out.wallet, InCall(c, other, target));
      if into.answer.Refused? then (s, Rejected(Ledger(into.answer.error))) else
        var row := ConversionRow(out.answer.tx, into.answer.tx, c.money, target, rate);
        (Fx(into.wallet, s.conversions + [row]), Converted(c.money, target, rate))
  }

  function ConvertStep(s: Fx, c: Conversion): (Fx, FxAnswer) {
    var (error, target) := Quoted(s.wallet, c);
    if error.Some? then (s, Rejected(error.value)) else Exchanged(s, c, target, c.rate.value)
  }

  /** A conversion that is quoted goes between two currencies, at the converted amount. */
  predicate QuoteFits(w: Wallet, c: Conversion, target: Money) {
    && c.source < |w.accounts| && c.target < |w.accounts|
    && c.money.currency != target.currency && c.money.amount > 0 && target.amount > 0
    && c.rate.Some? && c.rate.value > 0.0 && Convert(c.money, target.currency, c.rate.value) == Some(target)
  }

  lemma QuotedFits(w: Wallet, c: Conversion)
    ensures Quoted(w, c).0.None? ==> QuoteFits(w, c, Quoted(w, c).1)
  {
  }

  // --- Positions ---------------------------------------------------------------------------------------------

  function TakenIn(c: Currency): ConversionRow -> int {
    (r: ConversionRow) => if r.source.currency == c then r.source.amount else 0
  }

  function PaidOut(c: Currency): ConversionRow -> int {
    (r: ConversionRow) => if r.target.currency == c then r.target.amount else 0
  }

  function PositionBalance(w: Wallet, c: Currency): int {
    match PositionOf(w.accounts, c)
    case Some(a) => Balance(w.entries, a)
    case None => 0
  }

  /** The position is what the conversions took in less what they paid out. */
  predicate PositionHolds(s: Fx, c: Currency) {
    PositionBalance(s.wallet, c) == SumBy(s.conversions, TakenIn(c)) - SumBy(s.conversions, PaidOut(c))
  }

  predicate OnePositionEach(w: Wallet) {
    && (forall a :: 0 <= a < |w.accounts| && IsPosition(w.accounts[a]) ==>
          && w.accounts[a].kind == Technical && w.accounts[a].allowsNegative
          && w.accounts[a].reference == Some(FxPosition(w.accounts[a].currency)))
    && (forall a, b :: 0 <= a < b < |w.accounts| && IsPosition(w.accounts[a]) ==>
          w.accounts[a].reference != w.accounts[b].reference)
  }

  predicate RowsConverted(rows: seq<ConversionRow>) {
    forall i :: 0 <= i < |rows| ==>
      rows[i].rate > 0.0 && Convert(rows[i].source, rows[i].target.currency, rows[i].rate) == Some(rows[i].target)
  }

  ghost predicate FxInv(s: Fx) {
    Inv(s.wallet) && OnePositionEach(s.wallet) && RowsConverted(s.conversions)
    && forall c: Currency :: PositionHolds(s, c)
  }

  predicate NoPosition(w: Wallet, a: nat) { a < |w.accounts| ==> !IsPosition(w.accounts[a]) }

  /** Position accounts are found again whatever accounts are added or frozen. */
  lemma PositionStays(w: Wallet, v: Wallet, c: Currency)
    requires OnePositionEach(w) && |w.accounts| <= |v.accounts|
    requires forall a :: 0 <= a < |w.accounts| ==> v.accounts[a].reference == w.accounts[a].reference
    requires forall a :: |w.accounts| <= a < |v.accounts| ==> !PositionIn(v.accounts[a], c)
    ensures PositionOf(v.accounts, c) == PositionOf(w.accounts, c)
  {
    var p := PositionOf(w.accounts, c);
    var q := PositionOf(v.accounts, c);
    assert q.Some? ==> q.value < |w.accounts| && PositionIn(w.accounts[q.value], c);
  }

  /** A step of the wallet that names no position account leaves every position alone. */
  lemma PlainStepKeeps(s: Fx, step: Step)
    requires FxInv(s) && Legal(step)
    requires forall a :: a in Named(step) ==> NoPosition(s.wallet, a)
    ensures FxInv(s.(wallet := Next(s.wallet, step)))
  {
    var w, v := s.wallet, Next(s.wallet, step);
    NextKeeps(w, step);
    if step.StepSetStatus? {
      assert OnePositionEach(v);
    } else {
      NoNewPositions(w, v, step);
    }
    forall c: Currency ensures PositionHolds(s.(wallet := v), c) {
      assert PositionHolds(s, c);
      PlainStepKeepsBalance(w, step, c);
    }
  }

  lemma PlainStepKeepsBalance(w: Wallet, step: Step, c: Currency)
    requires Inv(w) && OnePositionEach(w) && Legal(step)
    requires forall a :: a in Named(step) ==> NoPosition(w, a)
    ensures PositionBalance(Next(w, step), c) == PositionBalance(w, c)
  {
    NextKeeps(w, step);
    if step.StepSetStatus? {
      PositionStays(w, Next(w, step), c);
    } else {
      NoNewPositions(w, Next(w, step), step);
      UnnamedPositionKeeps(w, Next(w, step), Named(step), c);
    }
  }

  lemma UnnamedPositionKeeps(w: Wallet, v: Wallet, named: set<nat>, c: Currency)
    requires OnePositionEach(w) && Later(w, v, named) && forall a :: a in named ==> NoPosition(w, a)
    requires forall a :: |w.accounts| <= a < |v.accounts| ==> !IsPosition(v.accounts[a])
    ensures PositionBalance(v, c) == PositionBalance(w, c)
  {
    var p := PositionOf(w.accounts, c);
    PositionStays(w, v, c);
    if p.Some? { assert !Served(w, p.value) && p.value !in named; }
  }

  lemma NoNewPositions(w: Wallet, v: Wallet, step: Step)
    requires OnePositionEach(w) && Later(w, v, Named(step)) && v == Next(w, step)
    ensures OnePositionEach(v)
    ensures forall a :: |w.accounts| <= a < |v.accounts| ==> !IsPosition(v.accounts[a])
  {
    assert Named(step) != {} ==> v.accounts == w.accounts;
  }

  lemma PositionForKeeps(w: Wallet, c: Currency)
    requires Inv(w) && OnePositionEach(w)
    ensures var p := PositionFor(w, c);
            && Inv(p.0) && OnePositionEach(p.0) && p.0.txs == w.txs && p.0.entries == w.entries
            && w.accounts <= p.0.accounts && PositionOf(p.0.accounts, c) == Some(p.1)
            && (forall d: Currency :: PositionOf(w.accounts, d).Some? ==>
                  PositionOf(p.0.accounts, d) == PositionOf(w.accounts, d))
            && (forall d: Currency :: PositionBalance(p.0, d) == PositionBalance(w, d))
  {
    var p := PositionFor(w, c);
    OpenKeeps(w, NewPosition(c), {|w.accounts|});
    forall d: Currency
      ensures d != c || PositionOf(w.accounts, c).Some? ==> PositionOf(p.0.accounts, d) == PositionOf(w.accounts, d)
    {
      if d != c { PositionStays(w, p.0, d); }
    }
  }

  lemma WithPositionsKeep(w: Wallet, c: Currency, d: Currency)
    requires Inv(w) && OnePositionEach(w) && c != d
    ensures var p := WithPositions(w, c, d);
            && Inv(p.0) && OnePositionEach(p.0) && p.0.txs == w.txs && p.0.entries == w.entries
            && w.accounts <= p.0.accounts
            && PositionOf(p.0.accounts, c) == Some(p.1) && PositionOf(p.0.accounts, d) == Some(p.2)
            && (forall e: Currency :: PositionBalance(p.0, e) == PositionBalance(w, e))
  {
    PositionForKeeps(w, c);
    var first := PositionFor(w, c);
    PositionForKeeps(first.0, d);
  }

  lemma PositionsOpened(w: Wallet, c: Currency, d: Currency, e: Currency)
    requires Inv(w) && OnePositionEach(w) && c != d
    ensures var p := WithPositions(w, c, d);
            && OnePositionEach(p.0) && p.0.txs == w.txs && w.accounts <= p.0.accounts
            && (PositionOf(p.0.accounts, e) == Some(p.1) <==> e == c)
            && (PositionOf(p.0.accounts, e) == Some(p.2) <==> e == d)
            && PositionBalance(p.0, e) == PositionBalance(w, e)
  {
    WithPositionsKeep(w, c, d);
    var p := WithPositions(w, c, d);
    assert PositionIn(p.0.accounts[p.1], c) && PositionIn(p.0.accounts[p.2], d);
  }

  /** What a transfer does to the position of any currency: it moves its amount if its key is new. */
  lemma TransferShifts(w: Wallet, call: Call, e: Currency)
    requires OnePositionEach(w) && Transfer(w, call).answer.Done?
    ensures var p := PositionOf(w.accounts, e);
            var first := Owner(w.txs, call.key).None?;
            PositionBalance(Transfer(w, call).wallet, e) == PositionBalance(w, e)
              - (if first && p == Some(call.source) then call.money.amount else 0)
              + (if first && p == Some(call.destination) then call.money.amount else 0)
  {
    var p := PositionOf(w.accounts, e);
    if p.Some? { TransferMoves(w, call, p.value); }
    TransferMoves(w, call, 0);
  }

  lemma OtherKeyStays(w: Wallet, call: Call, key: string)
    requires key != call.key
    ensures Owner(Transfer(w, call).wallet.txs, key).None? <==> Owner(w.txs, key).None?
  {
    var v := Transfer(w, call).wallet;
    if v != w {
      assert v.txs == w.txs + [Header(call.kind, call.status, call.key)];
      assert v.txs[..|w.txs|] == w.txs;
    }
  }

  lemma KeysDiffer(key: string)
    ensures OutKey(key) != InKey(key)
  {
    assert OutKey(key)[|key| + 1] == 'o';
    assert InKey(key)[|key| + 1] == 'i';
  }

  /** What a call adds to a position if its key was new. */
  function Shift(txs: seq<Tx>, call: Call, position: Option<nat>): int {
    if Owner(txs, call.key).Some? then 0
    else (if position == Some(call.destination) then call.money.amount else 0)
         - (if position == Some(call.source) then call.money.amount else 0)
  }

  lemma TwoTransfersShift(w: Wallet, out: Call, into: Call, e: Currency)
    requires OnePositionEach(w) && out.key != into.key
    requires Transfer(w, out).answer.Done? && Transfer(Transfer(w, out).wallet, into).answer.Done?
    ensures var p := PositionOf(w.accounts, e);
            PositionBalance(Transfer(Transfer(w, out).wallet, into).wallet, e)
            == PositionBalance(w, e) + Shift(w.txs, out, p) + Shift(w.txs, into, p)
  {
    var v := Transfer(w, out).wallet;
    TransferShifts(w, out, e);
    assert v.accounts == w.accounts;
    TransferShifts(v, into, e);
    OtherKeyStays(w, out, into.key);
  }

  predicate Customers(w: Wallet, c: Conversion) { NoPosition(w, c.source) && NoPosition(w, c.target) }

  /** How the positions move when both transfers are accepted. */
  lemma ExchangeShifts(s: Fx, c: Conversion, target: Money, rate: real, e: Currency)
    requires Inv(s.wallet) && OnePositionEach(s.wallet) && Customers(s.wallet, c)
    requires c.source < |s.wallet.accounts| && c.target < |s.wallet.accounts|
    requires c.money.currency != target.currency && Exchanged(s, c, target, rate).1.Converted?
    ensures PositionBalance(Exchanged(s, c, target, rate).0.wallet, e)
            == PositionBalance(s.wallet, e)
               + (if e == c.money.currency && Owner(s.wallet.txs, OutKey(c.key)).None? then c.money.amount else 0)
               - (if e == target.currency && Owner(s.wallet.txs, InKey(c.key)).None? then target.amount else 0)
  {
    var (w, source, other) := WithPositions(s.wallet, c.money.currency, target.currency);
    PositionsOpened(s.wallet, c.money.currency, target.currency, e);
    assert PositionOf(w.accounts, e) != Some(c.source) && PositionOf(w.accounts, e) != Some(c.target);
    KeysDiffer(c.key);
    TwoTransfersShift(w, OutCall(c, source), InCall(c, other, target), e);
  }

  lemma ExchangeCounted(s: Fx, c: Conversion, target: Money, rate: real, e: Currency)
    requires Exchanged(s, c, target, rate).1.Converted?
    ensures var after := Exchanged(s, c, target, rate).0;
            SumBy(after.conversions, TakenIn(e)) - SumBy(after.conversions, PaidOut(e))
            == SumBy(s.conversions, TakenIn(e)) - SumBy(s.conversions, PaidOut(e))
               + (if e == c.money.currency then c.money.amount else 0)
               - (if e == target.currency then target.amount else 0)
  {
    var after := Exchanged(s, c, target, rate).0;
    var row := after.conversions[|s.conversions|];
    SumAppend(s.conversions, row, TakenIn(e));
    SumAppend(s.conversions, row, PaidOut(e));
  }

  lemma TransferKeepsPositions(w: Wallet, call: Call)
    requires Inv(w) && OnePositionEach(w) && call.kind.Movement? && call.status == Completed
    ensures Inv(Transfer(w, call).wallet) && OnePositionEach(Transfer(w, call).wallet)
  {
    TransferKeeps(w, call);
    assert Transfer(w, call).wallet.accounts == w.accounts;
  }

  lemma ExchangeKeepsWallet(s: Fx, c: Conversion, target: Money, rate: real)
    requires Inv(s.wallet) && OnePositionEach(s.wallet) && c.money.currency != target.currency
    ensures Inv(Exchanged(s, c, target, rate).0.wallet) && OnePositionEach(Exchanged(s, c, target, rate).0.wallet)
  {
    var (w, source, other) := WithPositions(s.wallet, c.money.currency, target.currency);
    WithPositionsKeep(s.wallet, c.money.currency, target.currency);
    TransferKeepsPositions(w, OutCall(c, source));
    TransferKeepsPositions(Transfer(w, OutCall(c, source)).wallet, InCall(c, other, target));
  }

  lemma PositionHoldsIffKeyNew(s: Fx, c: Conversion, target: Money, rate: real, e: Currency)
    requires FxInv(s) && Customers(s.wallet, c) && Exchanged(s, c, target, rate).1.Converted?
    requires c.source < |s.wallet.accounts| && c.target < |s.wallet.accounts|
    requires c.money.currency != target.currency && c.money.amount > 0 && target.amount > 0
    ensures PositionHolds(Exchanged(s, c, target, rate).0, e)
            <==> (e == c.money.currency ==> Owner(s.wallet.txs, OutKey(c.key)).None?)
                 && (e == target.currency ==> Owner(s.wallet.txs, InKey(c.key)).None?)
  {
    assert PositionHolds(s, e);
    ExchangeShifts(s, c, target, rate, e);
    ExchangeCounted(s, c, target, rate, e);
  }

  lemma AllPositionsHoldIffKeysNew(s: Fx, c: Conversion, target: Money, rate: real)
    requires FxInv(s) && Customers(s.wallet, c) && Exchanged(s, c, target, rate).1.Converted?
    requires c.source < |s.wallet.accounts| && c.target < |s.wallet.accounts|
    requires c.money.currency != target.currency && c.money.amount > 0 && target.amount > 0
    ensures (forall e: Currency :: PositionHolds(Exchanged(s, c, target, rate).0, e))
            <==> Owner(s.wallet.txs, OutKey(c.key)).None? && Owner(s.wallet.txs, InKey(c.key)).None?
  {
    PositionHoldsIffKeyNew(s, c, target, rate, c.money.currency);
    PositionHoldsIffKeyNew(s, c, target, rate, target.currency);
    forall e: Currency
      ensures PositionHolds(Exchanged(s, c, target, rate).0, e)
              <==> (e == c.money.currency ==> Owner(s.wallet.txs, OutKey(c.key)).None?)
                   && (e == target.currency ==> Owner(s.wallet.txs, InKey(c.key)).None?)
    {
      PositionHoldsIffKeyNew(s, c, target, rate, e);
    }
  }

  lemma ExchangeKeepsRows(s: Fx, c: Conversion, target: Money)
    requires RowsConverted(s.conversions) && QuoteFits(s.wallet, c, target)
    ensures RowsConverted(Exchanged(s, c, target, c.rate.value).0.conversions)
  {
  }

  lemma ExchangeHoldsIffKeysNew(s: Fx, c: Conversion, target: Money)
    requires FxInv(s) && Customers(s.wallet, c) && QuoteFits(s.wallet, c, target)
    requires Exchanged(s, c, target, c.rate.value).1.Converted?
    ensures FxInv(Exchanged(s, c, target, c.rate.value).0)
            <==> Owner(s.wallet.txs, OutKey(c.key)).None? && Owner(s.wallet.txs, InKey(c.key)).None?
  {
    ExchangeKeepsWallet(s, c, target, c.rate.value);
    ExchangeKeepsRows(s, c, target);
    AllPositionsHoldIffKeysNew(s, c, target, c.rate.value);
  }

  /** A conversion keeps every position exact if and only if both of its ledger keys are new. The conversion
      row is written even when the ledger replays a transfer, and then one position no longer fits. */
  lemma PositionsHoldIffKeysNew(s: Fx, c: Conversion)
    requires FxInv(s) && Customers(s.wallet, c) && ConvertStep(s, c).1.Converted?
    ensures FxInv(ConvertStep(s, c).0)
            <==> Owner(s.wallet.txs, OutKey(c.key)).None? && Owner(s.wallet.txs, InKey(c.key)).None?
  {
    QuotedFits(s.wallet, c);
    ExchangeHoldsIffKeysNew(s, c, Quoted(s.wallet, c).1);
  }

  // --- Runs -----------------------------------------------------------------------------------------------------

  datatype FxStep = Plain(step: Step) | Exchange(call: Conversion)

  function FxNext(s: Fx, step: FxStep): Fx {
    match step
    case Plain(p) => s.(wallet := Next(s.wallet, p))
    case Exchange(c) => ConvertStep(s, c).0
  }

  const FX_START := Fx(EMPTY, [])

  function FxRun(s: Fx, steps: seq<FxStep>): Fx
    decreases |steps|
  {
    if steps == [] then s else FxRun(FxNext(s, steps[0]), steps[1..])
  }

  /** Customers do not move position accounts, and every conversion brings a fresh key. */
  predicate FxLegal(s: Fx, step: FxStep) {
    match step
    case Plain(p) => Legal(p) && forall a :: a in Named(p) ==> NoPosition(s.wallet, a)
    case Exchange(c) =>
      && Customers(s.wallet, c)
      && Owner(s.wallet.txs, OutKey(c.key)).None? && Owner(s.wallet.txs, InKey(c.key)).None?
  }

  predicate FxLegalRun(s: Fx, steps: seq<FxStep>)
    decreases |steps|
  {
    steps == [] || (FxLegal(s, steps[0]) && FxLegalRun(FxNext(s, steps[0]), steps[1..]))
  }

  lemma FxNextKeeps(s: Fx, step: FxStep)
    requires FxInv(s) && FxLegal(s, step)
    ensures FxInv(FxNext(s, step))
  {
    match step
    case Plain(p) => PlainStepKeeps(s, p);
    case Exchange(c) => if ConvertStep(s, c).1.Converted? { PositionsHoldIffKeysNew(s, c); }
  }

  lemma {:induction false} FxRunKeeps(s: Fx, steps: seq<FxStep>)
    requires FxInv(s) && FxLegalRun(s, steps)
    ensures FxInv(FxRun(s, steps))
    decreases |steps|
  {
    if steps != [] {
      FxNextKeeps(s, steps[0]);
      FxRunKeeps(FxNext(s, steps[0]), steps[1..]);
    }
  }

  /** After every run, each currency's position is what was taken in less what was paid out in it. */
  lemma PositionsHoldOverRuns(steps: seq<FxStep>, c: Currency)
    requires FxLegalRun(FX_START, steps)
    ensures var s := FxRun(FX_START, steps);
            PositionBalance(s.wallet, c) == SumBy(s.conversions, TakenIn(c)) - SumBy(s.conversions, PaidOut(c))
  {
    FxRunKeeps(FX_START, steps);
    assert PositionHolds(FxRun(FX_START, steps), c);
  }

  function QuotesOf(rows: seq<ConversionRow>): seq<Quote> {
    seq(|rows|, i requires 0 <= i < |rows| => Quote(rows[i].source, rows[i].target.currency, rows[i].rate))
  }

  /** The rounding of all the conversions of a run comes to at most half a minor unit for each. */
  lemma RoundingOverRuns(steps: seq<FxStep>)
    requires FxLegalRun(FX_START, steps)
    ensures var rows := FxRun(FX_START, steps).conversions;
            && (forall i :: 0 <= i < |rows| ==> rows[i].rate > 0.0)
            && -(|rows| as real) / 2.0 <= TotalGain(QuotesOf(rows)) <= |rows| as real / 2.0
  {
    FxRunKeeps(FX_START, steps);
    ErrorAtMostHalfEach(QuotesOf(FxRun(FX_START, steps).conversions));
  }

  // --- The use case ------------------------------------------------------------------------------------------------

  class Exchanger {
    const ledger: LedgerService
    var conversions: seq<ConversionRow>

    constructor ()
      ensures State() == Fx(Wallet([], [], [], map[]), []) && fresh(ledger)
    {
      ledger := new LedgerService();
      conversions := [];
    }

    function State(): Fx
      reads this, ledger
    {
      Fx(ledger.State(), conversions)
    }

    method RollBack(before: Wallet)
      modifies ledger
      ensures ledger.State() == before
    {
      ledger.accounts, ledger.txs := before.accounts, before.txs;
      ledger.entries, ledger.gateways := before.entries, before.gateways;
    }

    method PositionAccount(c: Currency) returns (a: nat)
      modifies ledger
      ensures (ledger.State(), a) == PositionFor(old(ledger.State()), c)
    {
      var existing := PositionOf(ledger.accounts, c);
      if existing.Some? {
        return existing.value;
      }
      a := |ledger.accounts|;
      ledger.accounts := ledger.accounts + [NewPosition(c)];
    }

    method ConvertCurrency(c: Conversion) returns (answer: FxAnswer)
      modifies this, ledger
      ensures (State(), answer) == ConvertStep(old(State()), c)
    {
      if c.source >= |ledger.accounts| || c.target >= |ledger.accounts| {
        return Rejected(Ledger(AccountNotFound));
      }
      var source, target := ledger.accounts[c.source], ledger.accounts[c.target];
      if source.currency == target.currency {
        return Rejected(SameCurrency);
      }
      if c.money.currency != source.currency || c.money.amount == 0 {
        return Rejected(Ledger(InvalidAmount));
      }
      if c.rate.None? {
        return Rejected(RateUnavailable);
      }
      var converted := Convert(c.money, target.currency, c.rate.value);
      if converted.None? || converted.value.amount == 0 {
        return Rejected(Ledger(InvalidAmount));
      }
      var before := ledger.State();
      var sourcePosition := PositionAccount(source.currency);
      var targetPosition := PositionAccount(target.currency);
      var out := ledger.TransferMoney(OutCall(c, sourcePosition));
      if out.Refused? {
        RollBack(before);
        return Rejected(Ledger(out.error));
      }
      var into := ledger.TransferMoney(InCall(c, targetPosition, converted.value));
      if into.Refused? {
        RollBack(before);
        return Rejected(Ledger(into.error));
      }
      conversions := conversions + [ConversionRow(out.tx, into.tx, c.money, converted.value, c.rate.value)];
      return Converted(c.money, converted.value, c.rate.value);
    }
  }
}
