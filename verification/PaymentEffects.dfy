/** The one business effect of a confirmed payment: a capture in the journal and a `payment.succeeded` row.
    How often it is recorded depends on what adapters answer and on how event keys are used, so these are
    the facts that need a well-behaved environment. */
module PaymentEffects {
  import opened Options
  import opened Sums
  import opened PaymentEntities
  import opened PaymentStore
  import opened PaymentSafety
  import L = FinancialLedger

  /** Names the attempt that each provider event key is about, by processor and reference. */
  type Directory = map<string, (string, string)>

  /** What is asked of the environment: an adapter's first answer is never a success, and an event
      key is always used for the same processor and reference. */
  predicate Legal(dir: Directory, step: Step) {
    match step
    case StepFinishCreate(_, status, _) => status != AttemptStatus.Succeeded
    case StepApply(id, r) => NamesAttempt(dir, id, r)
    case StepProcess(id, r) => NamesAttempt(dir, id, r)
    case _ => true
  }

  predicate NamesAttempt(dir: Directory, id: EventId, r: ProviderResult) {
    Given(r.reference) ==> id.key in dir && dir[id.key] == (id.processor, r.reference.value)
  }

  predicate AllLegal(dir: Directory, steps: seq<Step>) {
    forall k :: 0 <= k < |steps| ==> Legal(dir, steps[k])
  }

  // --- Counting effects ------------------------------------------------------------------------------

  function CaptureOne(intent: nat): L.Journal -> int {
    (j: L.Journal) => if j.owner == L.OfIntent(intent) && j.kind == L.Capture then 1 else 0
  }

  function SuccessOne(intent: nat): SuccessRow -> int {
    (r: SuccessRow) => if r.intent == intent then 1 else 0
  }

  function Captures(s: Store, intent: nat): int { SumBy(s.ledger.journals, CaptureOne(intent)) }

  function Successes(s: Store, intent: nat): int { SumBy(s.outbox, SuccessOne(intent)) }

  /** No effect before success, exactly one until a refund is applied, and at least one afterwards. */
  ghost predicate EffectsOk(s: Store, k: nat)
    requires k < |s.attempts| && k < |s.intents|
  {
    if !IsCaptured(s, k) then Captures(s, k) == 0 && Successes(s, k) == 0
    else if s.intents[k].status == IntentStatus.Succeeded then Captures(s, k) == 1 && Successes(s, k) == 1
    else Captures(s, k) >= 1 && Successes(s, k) >= 1
  }

  /** Every capture belongs to a succeeded attempt that its reference names. */
  ghost predicate CaptureNamed(s: Store, dir: Directory, j: L.Journal) {
    j.kind == L.Capture ==>
      && j.owner.OfIntent? && j.owner.intent < |s.attempts| && IsCaptured(s, j.owner.intent)
      && j.owner.intent < |s.intents| && j.amount == s.intents[j.owner.intent].amount
      && match j.reference
         case ProviderEvent(key) =>
           key in dir && HasReference(s.attempts[j.owner.intent], dir[key].0, dir[key].1)
         case ReconciledAttempt(a) => a == j.owner.intent
         case _ => false
  }

  ghost predicate SuccessRowsNamed(s: Store) {
    forall r :: 0 <= r < |s.outbox| ==> s.outbox[r].intent < |s.attempts|
  }

  ghost predicate Effects(s: Store, dir: Directory) {
    && |s.attempts| == |s.intents| && SuccessRowsNamed(s)
    && (forall k :: 0 <= k < |s.intents| ==> EffectsOk(s, k))
    && (forall j :: 0 <= j < |s.ledger.journals| ==> CaptureNamed(s, dir, s.ledger.journals[j]))
  }

  // --- Steps that record nothing -----------------------------------------------------------------------

  /** Refunds, events and refunded amounts play no part, and neither does the status of an intent once it
      is no longer the plain success. */
  lemma SameEffects(s: Store, dir: Directory, after: Store)
    requires Effects(s, dir) && after.attempts == s.attempts && after.outbox == s.outbox && after.ledger == s.ledger
    requires |after.intents| == |s.intents|
    requires forall k :: 0 <= k < |s.intents| ==>
               && after.intents[k].amount == s.intents[k].amount
               && (after.intents[k].status == IntentStatus.Succeeded ==> s.intents[k].status == IntentStatus.Succeeded)
    ensures Effects(after, dir)
  {
    forall k | 0 <= k < |s.intents| ensures EffectsOk(after, k) { assert EffectsOk(s, k); }
    forall j | 0 <= j < |s.ledger.journals| ensures CaptureNamed(after, dir, s.ledger.journals[j]) {
      assert CaptureNamed(s, dir, s.ledger.journals[j]);
    }
  }

  lemma OtherPostingKeeps(s: Store, dir: Directory, posting: L.Posting)
    requires Effects(s, dir) && !posting.PostCapture?
    ensures Effects(s.(ledger := L.Book(s.ledger, posting)), dir)
  {
    var after := s.(ledger := L.Book(s.ledger, posting));
    forall k | 0 <= k < |s.intents| ensures EffectsOk(after, k) {
      assert EffectsOk(s, k);
      OtherCountsNothing(s.ledger, posting, k);
    }
    forall j | 0 <= j < |after.ledger.journals| ensures CaptureNamed(after, dir, after.ledger.journals[j]) {
      if j < |s.ledger.journals| { assert CaptureNamed(s, dir, s.ledger.journals[j]); }
    }
  }

  lemma StartCreateKeeps(s: Store, dir: Directory, c: CreateCommand)
    requires DbOk(s) && Effects(s, dir)
    ensures Effects(StartCreate(s, c), dir)
  {
    var after, n := StartCreate(s, c), |s.intents|;
    forall j | 0 <= j < |s.ledger.journals|
      ensures CaptureNamed(after, dir, s.ledger.journals[j]) && CaptureOne(n)(s.ledger.journals[j]) == 0
    {
      assert CaptureNamed(s, dir, s.ledger.journals[j]);
    }
    SumZero(s.ledger.journals, CaptureOne(n));
    SumZero(s.outbox, SuccessOne(n));
    forall k | 0 <= k < |after.intents| ensures EffectsOk(after, k) {
      if k < n { assert EffectsOk(s, k); }
    }
  }

  /** Moving a payment without an effect to statuses that are no success. */
  lemma RestateKeeps(s: Store, dir: Directory, k: nat, after: Store)
    requires Effects(s, dir) && k < |s.intents| && !IsCaptured(s, k)
    requires |after.intents| == |after.attempts| == |s.intents|
    requires after.outbox == s.outbox && after.ledger == s.ledger && !IsCaptured(after, k)
    requires forall i :: 0 <= i < |s.intents| && i != k ==>
               after.intents[i] == s.intents[i] && after.attempts[i] == s.attempts[i]
    ensures Effects(after, dir)
  {
    forall i | 0 <= i < |s.intents| ensures EffectsOk(after, i) { assert EffectsOk(s, i); }
    forall j | 0 <= j < |s.ledger.journals| ensures CaptureNamed(after, dir, s.ledger.journals[j]) {
      assert CaptureNamed(s, dir, s.ledger.journals[j]);
    }
  }

  // --- Recording the effect -------------------------------------------------------------------------------

  /** The reference that a success of attempt k is recorded under names that attempt. */
  ghost predicate ReferenceNames(s: Store, dir: Directory, k: nat, reference: L.Reference)
    requires k < |s.attempts|
  {
    match reference
    case ProviderEvent(key) => key in dir && HasReference(s.attempts[k], dir[key].0, dir[key].1)
    case ReconciledAttempt(a) => a == k
    case _ => false
  }

  /** Before an attempt succeeds, no capture was posted under a reference that names it. */
  lemma ReferenceIsFresh(s: Store, dir: Directory, k: nat, reference: L.Reference)
    requires DbOk(s) && Effects(s, dir) && k < |s.attempts| && !IsCaptured(s, k) && ReferenceNames(s, dir, k, reference)
    ensures !L.Posted(s.ledger, L.Capture, reference)
  {
    forall j | 0 <= j < |s.ledger.journals|
      ensures !(s.ledger.journals[j].kind == L.Capture && s.ledger.journals[j].reference == reference)
    {
      assert CaptureNamed(s, dir, s.ledger.journals[j]);
    }
  }

  function CapturePosting(s: Store, k: nat, reference: L.Reference): L.Posting
    requires k < |s.attempts| && s.attempts[k].intent < |s.intents|
  {
    var a := s.attempts[k];
    var i := s.intents[a.intent];
    L.PostCapture(a.intent, i.client, a.processor, reference, i.amount, i.currency)
  }

  function FeePosting(s: Store, k: nat, reference: L.Reference, fee: int): L.Posting
    requires k < |s.attempts| && s.attempts[k].intent < |s.intents|
  {
    L.PostFee(s.attempts[k].intent, s.attempts[k].processor, reference, fee, s.intents[s.attempts[k].intent].currency)
  }

  /** RecordSuccess without the processor fee. */
  function WithoutFee(s: Store, k: nat, reference: L.Reference): Store
    requires k < |s.attempts| && s.attempts[k].intent < |s.intents|
  {
    RecordSuccess(s, k, reference, 0)
  }

  lemma FeeKeeps(s: Store, dir: Directory, k: nat, reference: L.Reference, fee: int)
    requires k < |s.attempts| && s.attempts[k].intent < |s.intents|
    requires Effects(WithoutFee(s, k, reference), dir)
    ensures Effects(RecordSuccess(s, k, reference, fee), dir)
  {
    if fee > 0 { OtherPostingKeeps(WithoutFee(s, k, reference), dir, FeePosting(s, k, reference, fee)); }
  }

  lemma CaptureCounts(ledger: L.Ledger, capture: L.Posting, i: nat)
    requires capture.PostCapture?
    ensures SumBy(L.Book(ledger, capture).journals, CaptureOne(i))
            == SumBy(ledger.journals, CaptureOne(i))
               + (if capture.intent == i && !L.Posted(ledger, L.Capture, capture.reference) then 1 else 0)
  {
    L.BookSums(ledger, capture, CaptureOne(i));
  }

  lemma OtherCountsNothing(ledger: L.Ledger, other: L.Posting, i: nat)
    requires !other.PostCapture?
    ensures SumBy(L.Book(ledger, other).journals, CaptureOne(i)) == SumBy(ledger.journals, CaptureOne(i))
  {
    L.BookSums(ledger, other, CaptureOne(i));
  }

  lemma RecordCountsRow(s: Store, k: nat, reference: L.Reference, fee: int, i: nat)
    requires k < |s.attempts| && s.attempts[k].intent == k && k < |s.intents|
    ensures Successes(RecordSuccess(s, k, reference, fee), i) == Successes(s, i) + (if i == k then 1 else 0)
  {
    var row := SuccessRow(k, s.intents[k].client, reference, s.intents[k].amount, s.intents[k].currency);
    SumAppend(s.outbox, row, SuccessOne(i));
  }

  /** Recording adds one success row, and one capture unless its reference was posted before. */
  lemma RecordCounts(s: Store, k: nat, reference: L.Reference, fee: int, i: nat)
    requires k < |s.attempts| && s.attempts[k].intent == k && k < |s.intents|
    ensures var after, one := RecordSuccess(s, k, reference, fee), if i == k then 1 else 0;
            && Successes(after, i) == Successes(s, i) + one
            && Captures(after, i)
               == Captures(s, i) + (if L.Posted(s.ledger, L.Capture, reference) then 0 else one)
  {
    RecordCountsRow(s, k, reference, fee, i);
    var once := L.Book(s.ledger, CapturePosting(s, k, reference));
    CaptureCounts(s.ledger, CapturePosting(s, k, reference), i);
    OtherCountsNothing(once, FeePosting(s, k, reference, fee), i);
  }

  /** What recording under a naming reference leaves, for a first success or a repeated one. */
  lemma RecordKeeps(s: Store, dir: Directory, k: nat, reference: L.Reference, fee: int)
    requires |s.attempts| == |s.intents| && SuccessRowsNamed(s) && k < |s.attempts| && s.attempts[k].intent == k
    requires IsCaptured(s, k) && ReferenceNames(s, dir, k, reference)
    requires forall i :: 0 <= i < |s.intents| && i != k ==> EffectsOk(s, i)
    requires forall j :: 0 <= j < |s.ledger.journals| ==> CaptureNamed(s, dir, s.ledger.journals[j])
    requires if s.intents[k].status == IntentStatus.Succeeded
             then Captures(s, k) == 0 && Successes(s, k) == 0 && !L.Posted(s.ledger, L.Capture, reference)
             else Captures(s, k) >= 1 && Successes(s, k) >= 1
    ensures Effects(RecordSuccess(s, k, reference, fee), dir)
  {
    var after := WithoutFee(s, k, reference);
    forall i | 0 <= i < |s.intents| ensures EffectsOk(after, i) {
      assert i != k ==> EffectsOk(s, i);
      RecordCounts(s, k, reference, 0, i);
    }
    forall j | 0 <= j < |after.ledger.journals| ensures CaptureNamed(after, dir, after.ledger.journals[j]) {
      if j < |s.ledger.journals| { assert CaptureNamed(s, dir, s.ledger.journals[j]); }
    }
    FeeKeeps(s, dir, k, reference, fee);
  }

  /** The first success of an attempt. */
  lemma ConfirmKeeps(s: Store, dir: Directory, k: nat, reference: L.Reference, fee: int)
    requires DbOk(s) && Effects(s, dir) && k < |s.attempts| && !IsCaptured(s, k) && ReferenceNames(s, dir, k, reference)
    ensures s.attempts[k].intent == k
    ensures var changed := WithStatuses(s, k, (IntentStatus.Succeeded, AttemptStatus.Succeeded));
            Effects(RecordSuccess(changed, k, reference, fee), dir)
  {
    assert s.attempts[k].intent == k;
    var changed := WithStatuses(s, k, (IntentStatus.Succeeded, AttemptStatus.Succeeded));
    ReferenceIsFresh(s, dir, k, reference);
    assert EffectsOk(s, k);
    forall i | 0 <= i < |s.intents| && i != k ensures EffectsOk(changed, i) { assert EffectsOk(s, i); }
    forall j | 0 <= j < |s.ledger.journals| ensures CaptureNamed(changed, dir, s.ledger.journals[j]) {
      assert CaptureNamed(s, dir, s.ledger.journals[j]);
    }
    RecordKeeps(changed, dir, k, reference, fee);
  }

  /** A result for an attempt that has succeeded changes no status; it may record the effect once more. */
  lemma RepeatKeeps(s: Store, dir: Directory, k: nat, reported: Option<AttemptStatus>, reference: L.Reference, fee: int)
    requires DbOk(s) && Effects(s, dir) && k < |s.attempts| && IsCaptured(s, k) && ReferenceNames(s, dir, k, reference)
    requires s.attempts[k].intent == k && StatusesAfter(s, k, reported).Some?
    requires StatusesAfter(s, k, reported).value == (s.intents[k].status, s.attempts[k].status)
    ensures Effects(Accept(s, k, reported, reference, fee), dir)
  {
    assert StatusOk(s, k) && EffectsOk(s, k);
    var changed := WithStatuses(s, k, StatusesAfter(s, k, reported).value);
    assert changed == s by { assert changed.intents == s.intents && changed.attempts == s.attempts; }
    if Effective(s, k, reported) { RecordKeeps(s, dir, k, reference, fee); }
  }

  lemma AcceptKeeps(s: Store, dir: Directory, k: nat, reported: Option<AttemptStatus>, reference: L.Reference, fee: int)
    requires DbOk(s) && Effects(s, dir) && k < |s.attempts| && ReferenceNames(s, dir, k, reference)
    requires s.attempts[k].intent < |s.intents| && StatusesAfter(s, k, reported).Some?
    ensures Effects(Accept(s, k, reported, reference, fee), dir)
  {
    OnlyAttemptIsLatest(s, k);
    assert s.attempts[k].intent == k && StatusOk(s, k) && EffectsOk(s, k);
    var to := StatusesAfter(s, k, reported).value;
    ApplyStatusKeepsCoupled(s.intents[k].status, s.attempts[k].status, reported);
    var changed := WithStatuses(s, k, to);
    if IsCaptured(s, k) {
      RepeatKeeps(s, dir, k, reported, reference, fee);
    } else if to.1 == AttemptStatus.Succeeded {
      ConfirmKeeps(s, dir, k, reference, fee);
    } else {
      RestateKeeps(s, dir, k, changed);
    }
  }

  // --- Every run ---------------------------------------------------------------------------------------------

  lemma ApplyEventKeeps(s: Store, dir: Directory, id: EventId, r: ProviderResult)
    requires DbOk(s) && Effects(s, dir) && NamesAttempt(dir, id, r)
    ensures Effects(ApplyEvent(s, id, r), dir)
  {
    if EventVerdict(s, id, r).Processed? {
      var k := FindAttempt(s.attempts, id.processor, r.reference.value).value;
      AcceptKeeps(s, dir, k, r.status, L.ProviderEvent(id.key), r.fee);
      SameEffects(Accept(s, k, r.status, L.ProviderEvent(id.key), r.fee), dir, ApplyEvent(s, id, r));
    } else {
      SameEffects(s, dir, ApplyEvent(s, id, r));
    }
  }

  lemma FinishCreateKeeps(w: World, dir: Directory, k: nat, status: AttemptStatus, reference: Option<string>)
    requires Inv(w) && Effects(w.db, dir) && status != AttemptStatus.Succeeded
    ensures Effects(Next(w, StepFinishCreate(k, status, reference)).db, dir)
  {
    if k in w.creating && !ReferenceTaken(w.db, k, reference) {
      RestateKeeps(w.db, dir, k, FinishCreate(w.db, k, k, status, reference));
    }
  }

  lemma CancelKeeps(s: Store, dir: Directory, client: string, k: nat)
    requires DbOk(s) && Effects(s, dir)
    ensures Effects(Cancel(s, client, k), dir)
  {
    if MayCancel(s, client, k) {
      OnlyAttemptIsLatest(s, k);
      RestateKeeps(s, dir, k, Cancel(s, client, k));
    }
  }

  lemma SweepKeeps(s: Store, dir: Directory, k: nat, answer: Option<ProviderResult>)
    requires DbOk(s) && Effects(s, dir) && k < |s.attempts| && Candidate(s.attempts[k])
    ensures Effects(Sweep(s, k, answer), dir)
  {
    if Sweep(s, k, answer) != s {
      AcceptKeeps(s, dir, k, answer.value.status, L.ReconciledAttempt(k), answer.value.fee);
    }
  }

  lemma FinishRefundKeeps(w: World, dir: Directory, r: nat, answer: Option<RefundStatus>)
    requires Inv(w) && Effects(w.db, dir) && r in w.refunding
    ensures Effects(Next(w, StepFinishRefund(r, answer)).db, dir)
  {
    var s, read, status := w.db, w.refunding[r], RefundStatusAfter(answer);
    FinishedIsCompleted(w, r, answer);
    var after := Completed(s, r, read, status);
    SameEffects(s, dir, after);
    OtherPostingKeeps(after, dir, RefundPosting(s, r, read));
  }

  lemma NextKeeps(w: World, dir: Directory, step: Step)
    requires Inv(w) && Effects(w.db, dir) && Legal(dir, step)
    ensures Effects(Next(w, step).db, dir)
  {
    var s, after := w.db, Next(w, step).db;
    match step
    case StepStartCreate(c) => StartCreateKeeps(s, dir, c);
    case StepFinishCreate(k, status, reference) => FinishCreateKeeps(w, dir, k, status, reference);
    case StepAbandonCreate(k) =>
    case StepCancel(client, k) => CancelKeeps(s, dir, client, k);
    case StepReceive(id) => SameEffects(s, dir, after);
    case StepApply(id, r) => ApplyEventKeeps(s, dir, id, r);
    case StepProcess(id, r) =>
      if !Closed(s, id) {
        ReceiveKeeps(s, id);
        SameEffects(s, dir, ReceiveEvent(s, id));
        ApplyEventKeeps(ReceiveEvent(s, id), dir, id, r);
      }
    case StepSweep(k, answer) => if k < |s.attempts| && Candidate(s.attempts[k]) { SweepKeeps(s, dir, k, answer); }
    case StepReserve(c) => SameEffects(s, dir, after);
    case StepFinishRefund(r, answer) => if r in w.refunding { FinishRefundKeeps(w, dir, r, answer); }
    case StepAbandonRefund(r) =>
    case StepSettle(k, name, amount) => SettleKeeps(s, dir, k, name, amount);
  }

  lemma SettleKeeps(s: Store, dir: Directory, k: nat, name: string, amount: int)
    requires Effects(s, dir)
    ensures Effects(Settle(s, k, name, amount), dir)
  {
    var attempt := LatestAttempt(s.attempts, k, false);
    if k < |s.intents| && attempt.Some? && L.SettlementFits(s.ledger, k, amount) {
      OtherPostingKeeps(s, dir, L.PostSettlement(k, s.attempts[attempt.value].processor, L.SettlementOf(name), amount,
                                                 s.intents[k].currency));
    }
  }

  lemma {:induction false} RunKeeps(w: World, dir: Directory, steps: seq<Step>)
    requires Inv(w) && Effects(w.db, dir) && AllLegal(dir, steps)
    ensures Effects(Run(w, steps).db, dir)
    decreases |steps|
  {
    if steps != [] {
      NextKeeps(w, dir, steps[0]);
      PaymentSafety.NextKeeps(w, steps[0]);
      RunKeeps(Next(w, steps[0]), dir, steps[1..]);
    }
  }

  lemma LegalReachable(dir: Directory, steps: seq<Step>)
    requires AllLegal(dir, steps)
    ensures Inv(Run(START, steps)) && Effects(Run(START, steps).db, dir)
  {
    StartIsOk();
    PaymentSafety.RunKeeps(START, steps);
    RunKeeps(START, dir, steps);
  }
}
