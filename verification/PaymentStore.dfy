/** The payment tables and what each committed step of a use case does to them. Row identifiers are
    positions in the tables. */
module PaymentStore {
  import opened Options
  import opened Sums
  import opened PaymentEntities
  import L = FinancialLedger

  datatype EventId = EventId(processor: string, key: string)

  datatype EventStatus = Received | Processed | Ignored | Rejected

  /** A `payment.succeeded` row of the outbox. */
  datatype SuccessRow = SuccessRow(intent: nat, client: string, reference: L.Reference, amount: int, currency: string)

  datatype Store = Store(
    intents: seq<IntentRow>,
    attempts: seq<AttemptRow>,
    events: map<EventId, EventStatus>,
    refunds: seq<RefundRow>,
    outbox: seq<SuccessRow>,
    ledger: L.Ledger)

  const EMPTY_STORE := Store([], [], map[], [], [], L.EMPTY)

  /** What an adapter reports on a payment. Amounts and currencies may be absent. */
  datatype ProviderResult = ProviderResult(
    reference: Option<string>,
    status: Option<AttemptStatus>,
    amount: Option<int>,
    currency: Option<string>,
    fee: int)

  datatype CreateCommand = CreateCommand(
    client: string, key: string, fingerprint: string, amount: int, currency: string, processor: string)

  datatype RefundCommand = RefundCommand(client: string, key: string, fingerprint: string, intent: nat, amount: int)

  // --- Lookups -------------------------------------------------------------------------------------

  /** The oldest intent of a (client, idempotency key) pair. */
  function FindIntent(intents: seq<IntentRow>, client: string, key: string): (found: Option<nat>)
    ensures found.Some? ==> found.value < |intents|
                            && intents[found.value].client == client && intents[found.value].key == key
    ensures found.None? ==> forall k :: 0 <= k < |intents| ==> !(intents[k].client == client && intents[k].key == key)
  {
    Find(intents, (r: IntentRow) => r.client == client && r.key == key)
  }

  function FindRefund(refunds: seq<RefundRow>, client: string, key: string): (found: Option<nat>)
    ensures found.Some? ==> found.value < |refunds|
                            && refunds[found.value].client == client && refunds[found.value].key == key
    ensures found.None? ==> forall k :: 0 <= k < |refunds| ==> !(refunds[k].client == client && refunds[k].key == key)
  {
    Find(refunds, (r: RefundRow) => r.client == client && r.key == key)
  }

  predicate HasReference(row: AttemptRow, processor: string, reference: string) {
    row.processor == processor && row.reference == Some(reference)
  }

  function FindAttempt(attempts: seq<AttemptRow>, processor: string, reference: string): (found: Option<nat>)
    ensures found.Some? ==> found.value < |attempts| && HasReference(attempts[found.value], processor, reference)
    ensures found.None? ==> forall k :: 0 <= k < |attempts| ==> !HasReference(attempts[k], processor, reference)
  {
    Find(attempts, (r: AttemptRow) => HasReference(r, processor, reference))
  }

  /** The last attempt of an intent, or its last succeeded one. */
  function LatestAttempt(attempts: seq<AttemptRow>, intent: nat, succeeded: bool): (found: Option<nat>)
    ensures found.Some? ==> found.value < |attempts| && attempts[found.value].intent == intent
                            && (succeeded ==> attempts[found.value].status == AttemptStatus.Succeeded)
    ensures forall k :: 0 <= k < |attempts| && attempts[k].intent == intent
                        && (succeeded ==> attempts[k].status == AttemptStatus.Succeeded)
                        ==> found.Some? && k <= found.value
  {
    if attempts == [] then None else
      var n := |attempts| - 1;
      if attempts[n].intent == intent && (succeeded ==> attempts[n].status == AttemptStatus.Succeeded) then Some(n)
      else LatestAttempt(attempts[..n], intent, succeeded)
  }

  predicate Active(status: RefundStatus) { status != RefundStatus.Failed }

  function ActiveAmount(intent: nat): RefundRow -> int {
    (r: RefundRow) => if r.intent == intent && Active(r.status) then r.amount else 0
  }

  function SucceededAmount(intent: nat): RefundRow -> int {
    (r: RefundRow) => if r.intent == intent && r.status == RefundStatus.Succeeded then r.amount else 0
  }

  /** Pending, processing and succeeded refunds of an intent: what providers were or may be asked to return. */
  function TotalActive(refunds: seq<RefundRow>, intent: nat): int { SumBy(refunds, ActiveAmount(intent)) }

  function TotalSucceeded(refunds: seq<RefundRow>, intent: nat): int { SumBy(refunds, SucceededAmount(intent)) }

  // --- Creating and cancelling -----------------------------------------------------------------------

  datatype CreateOutcome = Existing(intent: nat) | Conflict | InvalidAmount | Started(intent: nat, attempt: nat)

  function CreateOutcomeOf(s: Store, c: CreateCommand): CreateOutcome {
    var existing := FindIntent(s.intents, c.client, c.key);
    if existing.Some? then
      if s.intents[existing.value].fingerprint != c.fingerprint then Conflict else Existing(existing.value)
    else if c.amount <= 0 then InvalidAmount
    else Started(|s.intents|, |s.attempts|)
  }

  function NewIntent(c: CreateCommand): IntentRow {
    IntentRow(c.client, c.key, c.fingerprint, c.amount, c.currency, IntentStatus.Processing, 0)
  }

  function NewAttempt(c: CreateCommand, intent: nat): AttemptRow {
    AttemptRow(intent, c.processor, c.amount, c.currency, AttemptStatus.Pending, None)
  }

  /** First commit of a creation: the intent and its pending attempt. */
  function StartCreate(s: Store, c: CreateCommand): Store {
    if CreateOutcomeOf(s, c).Started?
    then s.(intents := s.intents + [NewIntent(c)], attempts := s.attempts + [NewAttempt(c, |s.intents|)])
    else s
  }

  /** The intent status that the provider's first answer leads to. */
  function FirstIntentStatus(status: AttemptStatus): IntentStatus {
    match status
    case RequiresAction => IntentStatus.RequiresAction
    case Succeeded => IntentStatus.Succeeded
    case Failed => IntentStatus.Failed
    case Cancelled => IntentStatus.Cancelled
    case Pending => IntentStatus.Processing
    case Processing => IntentStatus.Processing
    case Unknown => IntentStatus.Processing
  }

  /** The store refuses a second attempt with the same processor and reference. */
  predicate ReferenceTaken(s: Store, attempt: nat, reference: Option<string>)
    requires attempt < |s.attempts|
  {
    && reference.Some?
    && (exists k :: 0 <= k < |s.attempts| && k != attempt
                    && HasReference(s.attempts[k], s.attempts[attempt].processor, reference.value))
  }

  /** Second commit of a creation. It saves the objects built before the first commit, whatever
      happened to their rows in between. */
  function FinishCreate(s: Store, intent: nat, attempt: nat, status: AttemptStatus, reference: Option<string>): Store
    requires intent < |s.intents| && attempt < |s.attempts|
  {
    if ReferenceTaken(s, attempt, reference) then s else
      s.(intents := s.intents[intent := s.intents[intent].(status := FirstIntentStatus(status), refunded := 0)],
         attempts := s.attempts[attempt := s.attempts[attempt].(status := status, reference := reference)])
  }

  predicate MayCancel(s: Store, client: string, intent: nat) {
    && intent < |s.intents| && s.intents[intent].client == client
    && var latest := LatestAttempt(s.attempts, intent, false);
    && latest.Some?
    && s.attempts[latest.value].status == AttemptStatus.Pending && s.attempts[latest.value].reference.None?
    && IntentMay(s.intents[intent].status, IntentStatus.Cancelled)
  }

  function Cancel(s: Store, client: string, intent: nat): Store {
    if MayCancel(s, client, intent) then
      var a := LatestAttempt(s.attempts, intent, false).value;
      s.(intents := s.intents[intent := s.intents[intent].(status := IntentStatus.Cancelled)],
         attempts := s.attempts[a := s.attempts[a].(status := AttemptStatus.Cancelled)])
    else s
  }

  // --- Provider results -------------------------------------------------------------------------------

  /** The statuses a reported status leads to, or None when a transition is refused. */
  function ApplyStatus(intent: IntentStatus, attempt: AttemptStatus, latest: bool, reported: Option<AttemptStatus>)
    : Option<(IntentStatus, AttemptStatus)>
  {
    if reported.None? || reported.value == attempt then Some((intent, attempt))
    else match reported.value
      case Succeeded =>
        var reopened := if intent == IntentStatus.Failed then IntentStatus.Processing else intent;
        if AttemptMay(attempt, AttemptStatus.Succeeded) && IntentMay(reopened, IntentStatus.Succeeded)
        then Some((IntentStatus.Succeeded, AttemptStatus.Succeeded)) else None
      case Failed =>
        if Decided(attempt) then Some((intent, attempt))
        else if latest && (intent == IntentStatus.Processing || intent == IntentStatus.RequiresAction)
        then Some((IntentStatus.Failed, AttemptStatus.Failed))
        else Some((intent, AttemptStatus.Failed))
      case Processing =>
        if attempt == AttemptStatus.Pending || attempt == AttemptStatus.RequiresAction
           || attempt == AttemptStatus.Unknown
        then Some((if intent == IntentStatus.RequiresAction then IntentStatus.Processing else intent,
                   AttemptStatus.Processing))
        else Some((intent, attempt))
      case Pending => Some((intent, attempt))
      case RequiresAction => Some((intent, attempt))
      case Cancelled => Some((intent, attempt))
      case Unknown => Some((intent, attempt))
  }

  function WithStatuses(s: Store, attempt: nat, statuses: (IntentStatus, AttemptStatus)): Store
    requires attempt < |s.attempts| && s.attempts[attempt].intent < |s.intents|
  {
    var intent := s.attempts[attempt].intent;
    s.(intents := s.intents[intent := s.intents[intent].(status := statuses.0)],
       attempts := s.attempts[attempt := s.attempts[attempt].(status := statuses.1)])
  }

  /** The one business effect of a confirmed payment: a `payment.succeeded` row and a capture. */
  function RecordSuccess(s: Store, attempt: nat, reference: L.Reference, fee: int): Store
    requires attempt < |s.attempts| && s.attempts[attempt].intent < |s.intents|
  {
    var a := s.attempts[attempt];
    var i := s.intents[a.intent];
    s.(outbox := s.outbox + [SuccessRow(a.intent, i.client, reference, i.amount, i.currency)],
       ledger := L.Captured(s.ledger, a.intent, i.client, a.processor, reference, i.amount, i.currency, fee))
  }

  /** The effect is recorded unless the intent read before the change was already succeeded. */
  predicate Effective(s: Store, attempt: nat, reported: Option<AttemptStatus>)
    requires attempt < |s.attempts| && s.attempts[attempt].intent < |s.intents|
  {
    reported == Some(AttemptStatus.Succeeded)
    && s.intents[s.attempts[attempt].intent].status != IntentStatus.Succeeded
  }

  function IsLatest(s: Store, attempt: nat): bool
    requires attempt < |s.attempts|
  {
    LatestAttempt(s.attempts, s.attempts[attempt].intent, false) == Some(attempt)
  }

  /** What an attempt makes of a reported status, or None when a transition is refused. */
  function StatusesAfter(s: Store, attempt: nat, reported: Option<AttemptStatus>): Option<(IntentStatus, AttemptStatus)>
    requires attempt < |s.attempts| && s.attempts[attempt].intent < |s.intents|
  {
    var a := s.attempts[attempt];
    ApplyStatus(s.intents[a.intent].status, a.status, IsLatest(s, attempt), reported)
  }

  function Accept(s: Store, attempt: nat, reported: Option<AttemptStatus>, reference: L.Reference, fee: int): Store
    requires attempt < |s.attempts| && s.attempts[attempt].intent < |s.intents|
    requires StatusesAfter(s, attempt, reported).Some?
  {
    var changed := WithStatuses(s, attempt, StatusesAfter(s, attempt, reported).value);
    if Effective(s, attempt, reported) then RecordSuccess(changed, attempt, reference, fee) else changed
  }

  function Marked(s: Store, id: EventId, status: EventStatus): Store { s.(events := s.events[id := status]) }

  predicate Closed(s: Store, id: EventId) { id in s.events && (s.events[id].Processed? || s.events[id].Ignored?) }

  /** First commit of a webhook: the inbox row. */
  function ReceiveEvent(s: Store, id: EventId): Store { if id in s.events then s else Marked(s, id, Received) }

  predicate AmountMismatch(a: AttemptRow, r: ProviderResult) {
    r.status == Some(AttemptStatus.Succeeded) && (r.amount != Some(a.amount) || r.currency != Some(a.currency))
  }

  /** How a webhook ends once its inbox row is there. */
  function EventVerdict(s: Store, id: EventId, r: ProviderResult): EventStatus {
    if !Given(r.reference) then Ignored else
      var found := FindAttempt(s.attempts, id.processor, r.reference.value);
      if found.None? then Ignored
      else if s.attempts[found.value].intent >= |s.intents| then Rejected
      else if AmountMismatch(s.attempts[found.value], r) then Rejected
      else if StatusesAfter(s, found.value, r.status).None? then Rejected
      else Processed
  }

  function ApplyEvent(s: Store, id: EventId, r: ProviderResult): Store {
    var verdict := EventVerdict(s, id, r);
    if verdict.Processed? then
      var attempt := FindAttempt(s.attempts, id.processor, r.reference.value).value;
      Marked(Accept(s, attempt, r.status, L.ProviderEvent(id.key), r.fee), id, Processed)
    else Marked(s, id, verdict)
  }

  /** A whole webhook without interruption: a closed event is a duplicate and changes nothing. */
  function ProcessEvent(s: Store, id: EventId, r: ProviderResult): Store {
    if Closed(s, id) then s else ApplyEvent(ReceiveEvent(s, id), id, r)
  }

  predicate Candidate(a: AttemptRow) {
    && (a.status == AttemptStatus.RequiresAction || a.status == AttemptStatus.Processing
        || a.status == AttemptStatus.Unknown)
    && a.reference.Some?
  }

  datatype SweepOutcome = SweptSucceeded | SweptFailed | SweptPending | SweptMismatched | Raised

  /** `answer` is None when the processor is unavailable or its answer uncertain. */
  function SweepOutcomeOf(s: Store, attempt: nat, answer: Option<ProviderResult>): SweepOutcome
    requires attempt < |s.attempts|
  {
    var a := s.attempts[attempt];
    if answer.None? then SweptPending
    else if a.intent >= |s.intents| then SweptFailed
    else if (answer.value.status == Some(AttemptStatus.Succeeded) && answer.value.reference != a.reference)
         || AmountMismatch(a, answer.value) then SweptMismatched
    else if StatusesAfter(s, attempt, answer.value.status).None? then Raised
    else if answer.value.status == Some(AttemptStatus.Succeeded) then SweptSucceeded
    else if answer.value.status == Some(AttemptStatus.Failed) then SweptFailed
    else SweptPending
  }

  function Sweep(s: Store, attempt: nat, answer: Option<ProviderResult>): Store
    requires attempt < |s.attempts|
  {
    var outcome := SweepOutcomeOf(s, attempt, answer);
    if answer.None? || s.attempts[attempt].intent >= |s.intents| || outcome.SweptMismatched? || outcome.Raised? then s
    else Accept(s, attempt, answer.value.status, L.ReconciledAttempt(attempt), answer.value.fee)
  }

  /** The same sweep over a candidate that was read before other steps: it saves the attempt as it was read. */
  function StaleSweep(s: Store, attempt: nat, read: AttemptRow, answer: Option<ProviderResult>): Store
    requires attempt < |s.attempts|
  {
    var seen := s.(attempts := s.attempts[attempt := read]);
    var outcome := SweepOutcomeOf(seen, attempt, answer);
    if answer.None? || read.intent >= |s.intents| || outcome.SweptMismatched? || outcome.Raised? then s
    else Accept(seen, attempt, answer.value.status, L.ReconciledAttempt(attempt), answer.value.fee)
  }

  // --- Refunds and settlements -------------------------------------------------------------------------

  datatype RefundOutcome =
    | RefundExists(refund: nat) | RefundConflict | PaymentNotFound | NotRefundable | AttemptMissing | ExceedsCaptured
    | Reserved(refund: nat)

  function RefundOutcomeOf(s: Store, c: RefundCommand): RefundOutcome {
    var existing := FindRefund(s.refunds, c.client, c.key);
    if existing.Some? then
      if s.refunds[existing.value].fingerprint != c.fingerprint then RefundConflict else RefundExists(existing.value)
    else if c.intent >= |s.intents| || s.intents[c.intent].client != c.client then PaymentNotFound
    else if !Refundable(s.intents[c.intent].status) then NotRefundable
    else
      var attempt := LatestAttempt(s.attempts, c.intent, true);
      if attempt.None? || !Given(s.attempts[attempt.value].reference) then AttemptMissing
      else if c.amount <= 0 || TotalActive(s.refunds, c.intent) + c.amount > s.intents[c.intent].amount
      then ExceedsCaptured
      else Reserved(|s.refunds|)
  }

  /** First commit of a refund, under the intent lock: the reservation. */
  function ReserveRefund(s: Store, c: RefundCommand): Store {
    if RefundOutcomeOf(s, c).Reserved? then
      var attempt := LatestAttempt(s.attempts, c.intent, true).value;
      s.(refunds := s.refunds
           + [RefundRow(c.intent, attempt, c.client, c.key, c.fingerprint, c.amount, RefundStatus.Pending)])
    else s
  }

  /** The status the provider's answer gives the refund; an uncertain answer leaves it processing. */
  function RefundStatusAfter(answer: Option<RefundStatus>): RefundStatus {
    match answer
    case None => RefundStatus.Processing
    case Some(status) => status
  }

  /** Second commit of a refund. `read` is the intent as it was read when the refund was reserved:
      the code changes and saves that copy. A refund that no longer fits that copy raises. */
  function FinishRefund(s: Store, refund: nat, read: IntentRow, answer: Option<RefundStatus>): Store
    requires refund < |s.refunds| && s.refunds[refund].intent < |s.intents|
    requires s.refunds[refund].attempt < |s.attempts|
  {
    var row := s.refunds[refund];
    var status := RefundStatusAfter(answer);
    var kept := s.(refunds := s.refunds[refund := row.(status := status)]);
    if status != RefundStatus.Succeeded then kept
    else if !RefundFits(read, row.amount) then s
    else
      var after := WithRefund(read, row.amount);
      kept.(
        intents := s.intents[row.intent := s.intents[row.intent].(status := after.status, refunded := after.refunded)],
        ledger := L.Book(s.ledger, L.PostRefund(row.intent, read.client, s.attempts[row.attempt].processor,
                                                L.RefundOf(refund), row.amount, read.currency)))
  }

  function Settle(s: Store, intent: nat, name: string, amount: int): Store {
    var attempt := LatestAttempt(s.attempts, intent, false);
    if intent < |s.intents| && attempt.Some? && L.SettlementFits(s.ledger, intent, amount)
    then s.(ledger := L.Book(s.ledger, L.PostSettlement(intent, s.attempts[attempt.value].processor,
                                                        L.SettlementOf(name), amount, s.intents[intent].currency)))
    else s
  }

  // --- Interleavings ---------------------------------------------------------------------------------

  /** The tables together with the use cases that are between two commits: creations waiting for the
      provider, and refunds waiting for it with the intent as they read it. */
  datatype World = World(db: Store, creating: set<nat>, refunding: map<nat, IntentRow>)

  const START := World(EMPTY_STORE, {}, map[])

  datatype Step =
    | StepStartCreate(create: CreateCommand)
    | StepFinishCreate(intent: nat, status: AttemptStatus, reference: Option<string>)
    | StepAbandonCreate(intent: nat)
    | StepCancel(client: string, intent: nat)
    | StepReceive(event: EventId)
    | StepApply(event: EventId, result: ProviderResult)
    | StepProcess(event: EventId, result: ProviderResult)
    | StepSweep(attempt: nat, answer: Option<ProviderResult>)
    | StepReserve(refund: RefundCommand)
    | StepFinishRefund(id: nat, outcome: Option<RefundStatus>)
    | StepAbandonRefund(id: nat)
    | StepSettle(intent: nat, name: string, amount: int)

  /** A step that is not enabled leaves the world as it is. */
  function Next(w: World, step: Step): World {
    var s := w.db;
    match step
    case StepStartCreate(c) =>
      var outcome := CreateOutcomeOf(s, c);
      World(StartCreate(s, c), if outcome.Started? then w.creating + {outcome.intent} else w.creating, w.refunding)
    case StepFinishCreate(i, status, reference) =>
      // The attempt made with an intent has the intent's own position.
      if i in w.creating && i < |s.intents| && i < |s.attempts|
      then World(FinishCreate(s, i, i, status, reference), w.creating - {i}, w.refunding) else w
    case StepAbandonCreate(i) => w.(creating := w.creating - {i})
    case StepCancel(client, i) => w.(db := Cancel(s, client, i))
    case StepReceive(id) => w.(db := ReceiveEvent(s, id))
    case StepApply(id, r) => w.(db := ApplyEvent(s, id, r))
    case StepProcess(id, r) => w.(db := ProcessEvent(s, id, r))
    case StepSweep(a, answer) =>
      if a < |s.attempts| && Candidate(s.attempts[a]) then w.(db := Sweep(s, a, answer)) else w
    case StepReserve(c) =>
      var outcome := RefundOutcomeOf(s, c);
      World(ReserveRefund(s, c), w.creating,
            if outcome.Reserved? && c.intent < |s.intents|
            then w.refunding[outcome.refund := s.intents[c.intent]] else w.refunding)
    case StepFinishRefund(r, answer) =>
      if r in w.refunding && r < |s.refunds| && s.refunds[r].intent < |s.intents| && s.refunds[r].attempt < |s.attempts|
      then World(FinishRefund(s, r, w.refunding[r], answer), w.creating, w.refunding - {r}) else w
    case StepAbandonRefund(r) => w.(refunding := w.refunding - {r})
    case StepSettle(i, name, amount) => w.(db := Settle(s, i, name, amount))
  }

  function Run(w: World, steps: seq<Step>): World
    decreases |steps|
  {
    if steps == [] then w else Run(Next(w, steps[0]), steps[1..])
  }
}
