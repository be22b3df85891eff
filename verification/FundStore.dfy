/** The fund: campaigns, investments, payment orders, the inbox of payment callbacks and loans, over the wallet
    that holds every campaign's pool. */
module FundStore {
  import opened Options
  import opened Sums
  import W = WalletLedger
  import U = WalletUseCases
  import V = WalletSafety
  import S = LoanSchedule
  import L = FundLoans

  datatype CampaignStatus = Draft | Active | CampaignClosed | CampaignCancelled

  datatype Campaign = Campaign(
    owner: int, goal: int, raised: int, currency: string, status: CampaignStatus, pool: nat)

  /** Paid from a wallet (`tx`) or through a payment order (`intent`). */
  datatype Investment = Investment(campaign: nat, investor: int, amount: int, tx: Option<nat>, intent: Option<string>)

  datatype OrderStatus = RequiresAction | Processing | Succeeded | Failed | Cancelled | Unclear

  /** A status as another system names it: one the store accepts, or not. */
  datatype StatusName = Known(status: OrderStatus) | NotAStatus

  datatype PaymentOrder = PaymentOrder(
    campaign: nat, payer: int, intent: string, key: string, amount: int, currency: string, reference: string,
    status: OrderStatus)

  /** A payment callback; `succeeds` when its type is `payment.succeeded`. */
  datatype Event = Event(
    id: string, succeeds: bool, intent: string, reference: string, amount: int, currency: string,
    status: Option<StatusName>)

  datatype Fund = Fund(
    wallet: W.Wallet, campaigns: seq<Campaign>, investments: seq<Investment>, orders: seq<PaymentOrder>,
    inbox: set<string>, loans: seq<L.Loan>)

  datatype FundError =
    | InWallet(error: W.Error) | CampaignNotFound | CampaignNotActive | OwnCampaign | GoalReached | KeyConflict
    | OrderNotFound | ReferenceMismatch | AmountMismatch | StoreRefused | NotOwner | InvalidTerms | LoanNotFound
    | AlreadyDisbursed | NotDisbursed | AllPaid | ExceedsInstallment

  /** A refused call leaves everything as it was: the request's transaction is rolled back. */
  datatype Answer = Ok(row: nat) | Processed | Duplicate | No(error: FundError)

  // --- The wallet port -------------------------------------------------------------------------------

  function WithMoney(w: W.Wallet, t: nat, money: W.Money): W.Wallet
    requires t < |w.txs|
  {
    w.(txs := w.txs[t := w.txs[t].(money := Some(money))])
  }

  /** A movement between two accounts; its amount is also noted on the transaction, replayed or not. */
  function Move(w: W.Wallet, source: nat, destination: nat, amount: int, purpose: W.Purpose, key: string): W.Outcome {
    if amount < 0 then W.Outcome(w, W.Refused(W.InvalidAmount)) else
      var money := W.Money(amount, W.XOF);
      var o := W.Transfer(w, W.Call(source, destination, money, W.Movement(purpose), W.Completed, key));
      if o.answer.Refused? then o else W.Outcome(WithMoney(o.wallet, o.answer.tx, money), o.answer)
  }

  function PoolAccount(title: string): W.Account {
    W.Account(W.Technical, W.XOF, W.Active, false, Some(W.Other("fund:campaign:" + title)), None)
  }

  // --- Campaigns and wallet investments ---------------------------------------------------------------

  function CreateCampaign(f: Fund, owner: int, title: string, goal: int, currency: string): (Fund, Answer) {
    if goal <= 0 then (f, No(StoreRefused)) else
      var pool := |f.wallet.accounts|;
      (f.(wallet := f.wallet.(accounts := f.wallet.accounts + [PoolAccount(title)]),
          campaigns := f.campaigns + [Campaign(owner, goal, 0, currency, Draft, pool)]), Ok(|f.campaigns|))
  }

  function ByTx(investments: seq<Investment>, tx: nat): (r: Option<nat>)
    ensures r.Some? ==> r.value < |investments| && investments[r.value].tx == Some(tx)
    ensures r.None? ==> forall i :: 0 <= i < |investments| ==> investments[i].tx != Some(tx)
  {
    Find(investments, (r: Investment) => r.tx == Some(tx))
  }

  function Raise(campaigns: seq<Campaign>, c: nat, amount: int): seq<Campaign>
    requires c < |campaigns|
  {
    campaigns[c := campaigns[c].(raised := campaigns[c].raised + amount)]
  }

  function InvestRefusal(f: Fund, c: nat, user: int): Option<FundError> {
    if c >= |f.campaigns| then Some(CampaignNotFound)
    else if f.campaigns[c].status != Active then Some(CampaignNotActive)
    else if f.campaigns[c].owner == user then Some(OwnCampaign)
    else if f.campaigns[c].raised >= f.campaigns[c].goal then Some(GoalReached)
    else None
  }

  /** The wallet's part of an investment: the investor's account, opened if missing, pays into the pool. */
  function PayIn(f: Fund, c: nat, user: int, amount: int, key: string): W.Outcome
    requires c < |f.campaigns|
  {
    var own := U.AccountFor(f.wallet, user);
    Move(own.0, own.1, f.campaigns[c].pool, amount, W.Disbursement, key)
  }

  function Invest(f: Fund, c: nat, user: int, amount: int, key: string): (Fund, Answer) {
    var refusal := InvestRefusal(f, c, user);
    if refusal.Some? then (f, No(refusal.value)) else
      var paid := PayIn(f, c, user, amount, key);
      if paid.answer.Refused? then (f, No(InWallet(paid.answer.error))) else
        match ByTx(f.investments, paid.answer.tx)
        case Some(i) => (f.(wallet := paid.wallet), Ok(i))
        case None =>
          if amount <= 0 then (f, No(StoreRefused)) else
            (f.(wallet := paid.wallet,
                investments := f.investments + [Investment(c, user, amount, Some(paid.answer.tx), None)],
                campaigns := Raise(f.campaigns, c, amount)), Ok(|f.investments|))
  }

  // --- Payment orders and callbacks ---------------------------------------------------------------------

  function ByKey(orders: seq<PaymentOrder>, key: string): (r: Option<nat>)
    ensures r.Some? ==> r.value < |orders| && orders[r.value].key == key
    ensures r.None? ==> forall i :: 0 <= i < |orders| ==> orders[i].key != key
  {
    Find(orders, (r: PaymentOrder) => r.key == key)
  }

  function ByIntent(orders: seq<PaymentOrder>, intent: string): (r: Option<nat>)
    ensures r.Some? ==> r.value < |orders| && orders[r.value].intent == intent
    ensures r.None? ==> forall i :: 0 <= i < |orders| ==> orders[i].intent != intent
  {
    Find(orders, (r: PaymentOrder) => r.intent == intent)
  }

  function First24(key: string): string { if |key| <= 24 then key else key[..24] }

  function ReferenceOf(c: nat, key: string): string { "fund:investment:" + W.Digits(c) + ":" + First24(key) }

  /** `payment` is the collection the payment service opened: its intent and status. */
  function PlaceOrder(f: Fund, c: nat, user: int, amount: int, key: string, payment: (string, StatusName))
    : (Fund, Answer)
  {
    match ByKey(f.orders, key)
    case Some(i) =>
      var o := f.orders[i];
      if o.campaign != c || o.payer != user || o.amount != amount then (f, No(KeyConflict)) else (f, Ok(i))
    case None =>
      if c >= |f.campaigns| then (f, No(CampaignNotFound))
      else if f.campaigns[c].status != Active then (f, No(CampaignNotActive))
      else if f.campaigns[c].owner == user then (f, No(OwnCampaign))
      else
        var remaining := f.campaigns[c].goal - f.campaigns[c].raised;
        if remaining <= 0 || amount > remaining then (f, No(GoalReached))
        else if payment.1.NotAStatus? || amount <= 0 || ByIntent(f.orders, payment.0).Some? then (f, No(StoreRefused))
        else
          var o := PaymentOrder(c, user, payment.0, key, amount, f.campaigns[c].currency, ReferenceOf(c, key),
                                payment.1.status);
          (f.(orders := f.orders + [o]), Ok(|f.orders|))
  }

  predicate Invested(investments: seq<Investment>, intent: string) {
    exists i :: 0 <= i < |investments| && investments[i].intent == Some(intent)
  }

  /** What a callback has to match before it may change anything. */
  function EventRefusal(f: Fund, e: Event): Option<FundError> {
    match ByIntent(f.orders, e.intent)
    case None => Some(OrderNotFound)
    case Some(i) =>
      if e.reference != f.orders[i].reference then Some(ReferenceMismatch)
      else if e.amount != f.orders[i].amount || e.currency != f.orders[i].currency then Some(AmountMismatch)
      else None
  }

  function WithStatus(orders: seq<PaymentOrder>, i: nat, status: OrderStatus): seq<PaymentOrder>
    requires i < |orders|
  {
    orders[i := orders[i].(status := status)]
  }

  function ApplyEvent(f: Fund, e: Event): (Fund, Answer) {
    if e.id in f.inbox then (f, Duplicate) else
      var refusal := EventRefusal(f, e);
      if refusal.Some? then (f, No(refusal.value)) else
        var i := ByIntent(f.orders, e.intent).value;
        var order, noted := f.orders[i], f.(inbox := f.inbox + {e.id});
        if !e.succeeds then
          match e.status
          case None => (noted, Processed)
          case Some(NotAStatus) => (f, No(StoreRefused))
          case Some(Known(status)) => (noted.(orders := WithStatus(f.orders, i, status)), Processed)
        else if order.status == Succeeded then (noted, Processed)
        else if order.campaign >= |f.campaigns| then (f, No(CampaignNotFound))
        else if Invested(f.investments, order.intent) then (f, No(StoreRefused))
        else
          (noted.(investments := f.investments
                    + [Investment(order.campaign, order.payer, order.amount, None, Some(order.intent))],
                  campaigns := Raise(f.campaigns, order.campaign, order.amount),
                  orders := WithStatus(f.orders, i, Succeeded)), Processed)
  }

  // --- Loans ----------------------------------------------------------------------------------------------

  function RequestLoan(f: Fund, c: nat, borrower: int, amount: int, months: int, rate: real): (Fund, Answer) {
    if c >= |f.campaigns| then (f, No(CampaignNotFound))
    else if f.campaigns[c].owner != borrower then (f, No(NotOwner))
    else match S.CalculateTerms(amount, months, rate)
      case None => (f, No(InvalidTerms))
      case Some(terms) =>
        (f.(loans := f.loans + [L.Loan(c, borrower, terms.principal, terms.months, terms.total, L.LoanPending, [])]),
         Ok(|f.loans|))
  }

  function DisbursementKey(loan: nat): string { "fund:loan:disbursement:" + W.Digits(loan) }

  function PayOut(f: Fund, l: nat): W.Outcome
    requires l < |f.loans| && f.loans[l].campaign < |f.campaigns|
  {
    var own := U.AccountFor(f.wallet, f.loans[l].borrower);
    Move(own.0, f.campaigns[f.loans[l].campaign].pool, own.1, f.loans[l].principal, W.Disbursement, DisbursementKey(l))
  }

  function Disburse(f: Fund, l: nat, start: S.Date): (Fund, Answer) {
    if l >= |f.loans| then (f, No(LoanNotFound))
    else if f.loans[l].status != L.LoanPending then (f, No(AlreadyDisbursed))
    else if f.loans[l].campaign >= |f.campaigns| then (f, No(CampaignNotFound))
    else
      var paid := PayOut(f, l);
      if paid.answer.Refused? then (f, No(InWallet(paid.answer.error)))
      else if f.loans[l].months <= 0 then (f, No(StoreRefused))
      else
        var rows := L.RowsFor(f.loans[l], start);
        if !L.RowsAccepted(rows) then (f, No(StoreRefused)) else
          (f.(wallet := paid.wallet,
              loans := f.loans[l := f.loans[l].(rows := rows, status := L.LoanDisbursed)]), Ok(l))
  }

  function LoanRefusal(error: L.LoanError): FundError {
    match error
    case NotDisbursed => NotDisbursed
    case AllPaid => AllPaid
    case ExceedsInstallment => ExceedsInstallment
  }

  function PayBack(f: Fund, l: nat, amount: int, key: string): W.Outcome
    requires l < |f.loans| && f.loans[l].campaign < |f.campaigns|
  {
    var own := U.AccountFor(f.wallet, f.loans[l].borrower);
    Move(own.0, own.1, f.campaigns[f.loans[l].campaign].pool, amount, W.Repayment, key)
  }

  function Repay(f: Fund, l: nat, borrower: int, amount: int, key: string): (Fund, Answer) {
    if l >= |f.loans| || f.loans[l].borrower != borrower then (f, No(LoanNotFound)) else
      var refusal := L.RepayRefusal(f.loans[l], amount);
      if refusal.Some? then (f, No(LoanRefusal(refusal.value)))
      else if f.loans[l].campaign >= |f.campaigns| then (f, No(CampaignNotFound))
      else
        var paid := PayBack(f, l, amount, key);
        if paid.answer.Refused? then (f, No(InWallet(paid.answer.error)))
        else (f.(wallet := paid.wallet, loans := f.loans[l := L.Repaid(f.loans[l], amount)]), Ok(l))
  }

  // --- Runs -------------------------------------------------------------------------------------------------

  datatype Step =
    | StepCreate(owner: int, title: string, goal: int, currency: string)
    | StepSetCampaign(campaign: nat, to: CampaignStatus)
    | StepInvest(campaign: nat, user: int, amount: int, key: string)
    | StepOrder(campaign: nat, user: int, amount: int, key: string, payment: (string, StatusName))
    | StepEvent(event: Event)
    | StepRequest(campaign: nat, user: int, amount: int, months: int, rate: real)
    | StepDisburse(loan: nat, start: S.Date)
    | StepRepay(loan: nat, user: int, amount: int, key: string)
    | StepWallet(step: V.Step)

  const NOTHING := Fund(W.Wallet([], [], [], map[]), [], [], [], {}, [])

  function Next(f: Fund, step: Step): Fund {
    match step
    case StepCreate(owner, title, goal, currency) => CreateCampaign(f, owner, title, goal, currency).0
    case StepSetCampaign(c, to) =>
      if c < |f.campaigns| then f.(campaigns := f.campaigns[c := f.campaigns[c].(status := to)]) else f
    case StepInvest(c, user, amount, key) => Invest(f, c, user, amount, key).0
    case StepOrder(c, user, amount, key, payment) => PlaceOrder(f, c, user, amount, key, payment).0
    case StepEvent(e) => ApplyEvent(f, e).0
    case StepRequest(c, user, amount, months, rate) => RequestLoan(f, c, user, amount, months, rate).0
    case StepDisburse(l, start) => Disburse(f, l, start).0
    case StepRepay(l, user, amount, key) => Repay(f, l, user, amount, key).0
    case StepWallet(s) => f.(wallet := V.Next(f.wallet, s))
  }

  function Run(f: Fund, steps: seq<Step>): Fund
    decreases |steps|
  {
    if steps == [] then f else Run(Next(f, steps[0]), steps[1..])
  }
}
