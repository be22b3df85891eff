/** What provider results must carry before a payment succeeds, told in the fields of the rows: a success for
    another amount or currency changes nothing, and over whole runs only a payment in full makes a success. */
module PaymentGuards {
  import opened Options
  import opened PaymentEntities
  import opened PaymentStore
  import opened PaymentSafety
  import opened PaymentTheorems
  import L = FinancialLedger

  /** The event tells of attempt k: its processor and its reference. */
  predicate TellsOf(s: Store, id: EventId, r: ProviderResult, k: nat)
    requires k < |s.attempts|
  {
    s.attempts[k].processor == id.processor && s.attempts[k].reference == r.reference
  }

  predicate InFull(s: Store, r: ProviderResult, k: nat)
    requires k < |s.intents|
  {
    r.amount == Some(s.intents[k].amount) && r.currency == Some(s.intents[k].currency)
  }

  /** Nothing about payments, refunds, announcements or the journal changes. */
  predicate SameMoney(s: Store, after: Store) {
    && after.intents == s.intents && after.attempts == s.attempts && after.refunds == s.refunds
    && after.outbox == s.outbox && after.ledger == s.ledger
  }

  // --- One result ------------------------------------------------------------------------------------------

  /** A success event that tells of no payment, or not of its amount and currency, changes nothing but its own inbox
      row, which ends ignored or rejected. */
  lemma UnpaidEventChangesNothing(s: Store, id: EventId, r: ProviderResult)
    requires DbOk(s) && r.status == Some(AttemptStatus.Succeeded)
    requires forall k :: 0 <= k < |s.attempts| && TellsOf(s, id, r, k) ==> !InFull(s, r, k)
    ensures var after := ApplyEvent(s, id, r);
            && SameMoney(s, after) && id in after.events
            && (after.events[id] == EventStatus.Rejected <==>
                  Given(r.reference) && exists k :: 0 <= k < |s.attempts| && TellsOf(s, id, r, k))
            && after.events[id] != EventStatus.Processed
  {
    if Given(r.reference) {
      var found := FindAttempt(s.attempts, id.processor, r.reference.value);
      if found.Some? { assert TellsOf(s, id, r, found.value) && s.attempts[found.value].intent == found.value; }
    }
  }

  lemma UnpaidProcessChangesNothing(s: Store, id: EventId, r: ProviderResult)
    requires DbOk(s) && r.status == Some(AttemptStatus.Succeeded)
    requires forall k :: 0 <= k < |s.attempts| && TellsOf(s, id, r, k) ==> !InFull(s, r, k)
    ensures SameMoney(s, ProcessEvent(s, id, r))
  {
    if !Closed(s, id) {
      ReceiveKeeps(s, id);
      assert forall k :: 0 <= k < |s.attempts| && TellsOf(ReceiveEvent(s, id), id, r, k) ==> TellsOf(s, id, r, k);
      UnpaidEventChangesNothing(ReceiveEvent(s, id), id, r);
    }
  }

  /** A sweep that is told of a success for another reference, amount or currency changes nothing. */
  lemma UnpaidSweepChangesNothing(s: Store, k: nat, r: ProviderResult)
    requires DbOk(s) && k < |s.attempts| && r.status == Some(AttemptStatus.Succeeded)
    ensures k < |s.intents|
    ensures r.reference != s.attempts[k].reference || !InFull(s, r, k) ==> Sweep(s, k, Some(r)) == s
  {
    assert s.attempts[k].intent == k;
  }

  /** How a sweep counts a candidate: a success in full, a success that is not, a failure, or anything else. */
  lemma SweepIsCounted(s: Store, k: nat, answer: Option<ProviderResult>)
    requires DbOk(s) && k < |s.attempts| && Sweepable(s.attempts[k])
    ensures k < |s.intents|
    ensures var succeeded := answer.Some? && answer.value.status == Some(AttemptStatus.Succeeded);
            var paid := succeeded && answer.value.reference == s.attempts[k].reference && InFull(s, answer.value, k);
            SweepOutcomeOf(s, k, answer)
            == if paid then SweptSucceeded
               else if succeeded then SweptMismatched
               else if answer.Some? && answer.value.status == Some(AttemptStatus.Failed) then SweptFailed
               else SweptPending
  {
    assert s.attempts[k].intent == k && StatusOk(s, k);
    SweepNeverRaises(s, k, answer);
  }

  // --- Every run -----------------------------------------------------------------------------------------------

  /** A step that makes attempt k a success: an event or a sweep in full for an attempt that did not fail and was
      not cancelled, or the adapter's first answer. */
  predicate Pays(w: World, step: Step, k: nat) {
    && k < |w.db.attempts| && k < |w.db.intents|
    && var a := w.db.attempts[k];
    match step
    case StepApply(id, r) => Payable(a) && EventPays(w.db, id, r, k)
    case StepProcess(id, r) => Payable(a) && !Done(w.db, id) && EventPays(w.db, id, r, k)
    case StepSweep(i, answer) =>
      && i == k && Sweepable(a) && answer.Some? && answer.value.status == Some(AttemptStatus.Succeeded)
      && answer.value.reference == a.reference && InFull(w.db, answer.value, k)
    case StepFinishCreate(i, status, reference) =>
      && i == k && k in w.creating && status == AttemptStatus.Succeeded
      && !(reference.Some? && exists j :: 0 <= j < |w.db.attempts| && j != k
                                          && w.db.attempts[j].processor == a.processor
                                          && w.db.attempts[j].reference == reference)
    case _ => false
  }

  predicate Payable(a: AttemptRow) { a.status != AttemptStatus.Failed && a.status != AttemptStatus.Cancelled }

  predicate EventPays(s: Store, id: EventId, r: ProviderResult, k: nat)
    requires k < |s.attempts| && k < |s.intents|
  {
    Given(r.reference) && TellsOf(s, id, r, k) && r.status == Some(AttemptStatus.Succeeded) && InFull(s, r, k)
  }

  predicate Paid(s: Store, k: nat) { k < |s.attempts| && s.attempts[k].status == AttemptStatus.Succeeded }

  lemma StartCreatePaysNothing(w: World, c: CreateCommand, k: nat)
    requires Inv(w)
    ensures Paid(Next(w, StepStartCreate(c)).db, k) <==> Paid(w.db, k)
  {
  }

  /** While a creation is in progress only its own end can make the attempt a success. */
  lemma CreatingIsUnpaid(w: World, step: Step, k: nat)
    requires Inv(w) && k in w.creating
    ensures Paid(Next(w, step).db, k) <==> Pays(w, step, k)
  {
    var s := w.db;
    assert StatusOk(s, k);
    match step
    case StepApply(id, r) => ApplyEventDecides(s, id, r, k);
    case StepProcess(id, r) =>
      if !Closed(s, id) {
        ReceiveKeeps(s, id);
        ApplyEventDecides(ReceiveEvent(s, id), id, r, k);
      }
    case StepSweep(i, answer) => if i < |s.attempts| && Candidate(s.attempts[i]) { SweepDecides(s, i, answer, k); }
    case StepCancel(client, i) => CancelledIff(s, client, i);
    case StepFinishCreate(i, status, reference) => FinishCreatePays(w, i, status, reference, k);
    case StepFinishRefund(r, answer) => if r in w.refunding { FinishedIsCompleted(w, r, answer); }
    case _ =>
  }

  lemma FinishCreatePays(w: World, i: nat, status: AttemptStatus, reference: Option<string>, k: nat)
    requires Inv(w) && k in w.creating
    ensures var step := StepFinishCreate(i, status, reference); Paid(Next(w, step).db, k) <==> Pays(w, step, k)
  {
    var s := w.db;
    if i == k && reference.Some? && ReferenceTaken(s, k, reference) {
      var j :| 0 <= j < |s.attempts| && j != k && HasReference(s.attempts[j], s.attempts[k].processor, reference.value);
      assert s.attempts[j].processor == s.attempts[k].processor && s.attempts[j].reference == reference;
    }
  }

  lemma StepPays(w: World, step: Step, k: nat)
    requires Inv(w)
    ensures Paid(Next(w, step).db, k) <==> Paid(w.db, k) || Pays(w, step, k)
  {
    if k in w.creating {
      CreatingIsUnpaid(w, step, k);
    } else if k < |w.db.attempts| {
      NextDecides(w, step, k);
    } else {
      AttemptsGrow(w, step, k);
    }
  }

  lemma AttemptsGrow(w: World, step: Step, k: nat)
    requires Inv(w) && k >= |w.db.attempts|
    ensures !Paid(Next(w, step).db, k)
  {
    match step
    case StepStartCreate(c) => StartCreatePaysNothing(w, c, k);
    case StepApply(id, r) => ApplyEventKeeps(w.db, id, r);
    case StepProcess(id, r) =>
      if !Closed(w.db, id) {
        ReceiveKeeps(w.db, id);
        ApplyEventKeeps(ReceiveEvent(w.db, id), id, r);
      }
    case StepSweep(i, answer) => if i < |w.db.attempts| && Candidate(w.db.attempts[i]) { SweepKeeps(w.db, i, answer); }
    case StepFinishRefund(r, answer) => if r in w.refunding { FinishedIsCompleted(w, r, answer); }
    case StepCancel(client, i) => CancelledIff(w.db, client, i);
    case _ =>
  }

  predicate SomePays(w: World, steps: seq<Step>, k: nat)
    decreases |steps|
  {
    steps != [] && (Pays(w, steps[0], k) || SomePays(Next(w, steps[0]), steps[1..], k))
  }

  lemma {:induction false} RunPays(w: World, steps: seq<Step>, k: nat)
    requires Inv(w)
    ensures Paid(Run(w, steps).db, k) <==> Paid(w.db, k) || SomePays(w, steps, k)
    decreases |steps|
  {
    if steps != [] {
      StepPays(w, steps[0], k);
      NextKeeps(w, steps[0]);
      RunPays(Next(w, steps[0]), steps[1..], k);
    }
  }

  /** Over every run, a payment succeeded if and only if some event or sweep told of its success in its own amount
      and currency while it had not failed or been cancelled, or the adapter's first answer did. */
  lemma SucceededIffPaid(steps: seq<Step>, k: nat)
    requires k < |Run(START, steps).db.attempts|
    ensures Run(START, steps).db.attempts[k].status == AttemptStatus.Succeeded <==> SomePays(START, steps, k)
  {
    StartIsOk();
    RunPays(START, steps, k);
  }

  // --- Creation, the effect and settlements ------------------------------------------------------------------

  /** A payment that is started carries the request: its client, key, fingerprint, amount, currency and processor. */
  lemma StartedCarriesRequest(s: Store, c: CreateCommand)
    ensures if CreateOutcomeOf(s, c).Started?
            then StartCreate(s, c) == s.(
                   intents := s.intents + [IntentRow(c.client, c.key, c.fingerprint, c.amount, c.currency,
                                                     IntentStatus.Processing, 0)],
                   attempts := s.attempts + [AttemptRow(|s.intents|, c.processor, c.amount, c.currency,
                                                        AttemptStatus.Pending, None)])
            else StartCreate(s, c) == s
  {
  }

  /** The end of a creation gives the attempt the adapter's status and reference, unless another attempt of the
      processor has that reference. */
  lemma CreationTakesAnswer(w: World, k: nat, status: AttemptStatus, reference: Option<string>)
    requires Inv(w) && k in w.creating
    ensures k < |w.db.attempts| && k < |w.db.intents|
    ensures var s, after := w.db, Next(w, StepFinishCreate(k, status, reference)).db;
            if reference.Some? && exists j :: 0 <= j < |s.attempts| && j != k
                                              && s.attempts[j].processor == s.attempts[k].processor
                                              && s.attempts[j].reference == reference
            then after == s
            else && after.attempts == s.attempts[k := s.attempts[k].(status := status, reference := reference)]
                 && Coupled(status, after.intents[k].status) && after.intents[k].refunded == 0
                 && SameMoney(s, after.(intents := s.intents, attempts := s.attempts))
  {
    var s := w.db;
    assert StatusOk(s, k);
    if reference.Some? && ReferenceTaken(s, k, reference) {
      var j :| 0 <= j < |s.attempts| && j != k && HasReference(s.attempts[j], s.attempts[k].processor, reference.value);
      assert s.attempts[j].processor == s.attempts[k].processor && s.attempts[j].reference == reference;
    }
  }

  /** A first success in full: payment and attempt succeed together, one announcement carries the payment's client,
      amount and currency, and the journal takes the amount and, when there is one, the fee. */
  lemma SuccessIsRecorded(s: Store, k: nat, id: EventId, r: ProviderResult)
    requires DbOk(s) && k < |s.attempts| && k < |s.intents| && EventPays(s, id, r, k)
    requires !Decided(s.attempts[k].status)
    ensures var after, i, reference := ApplyEvent(s, id, r), s.intents[k], L.ProviderEvent(id.key);
            && after.intents == s.intents[k := i.(status := IntentStatus.Succeeded)]
            && after.attempts == s.attempts[k := s.attempts[k].(status := AttemptStatus.Succeeded)]
            && after.outbox == s.outbox + [SuccessRow(k, i.client, reference, i.amount, i.currency)]
            && L.Total(after.ledger, L.OfIntent(k), L.Capture)
               == L.Total(s.ledger, L.OfIntent(k), L.Capture)
                  + (if L.Posted(s.ledger, L.Capture, reference) then 0 else i.amount)
            && L.Total(after.ledger, L.OfIntent(k), L.ProcessorFee)
               == L.Total(s.ledger, L.OfIntent(k), L.ProcessorFee)
                  + (if r.fee <= 0 || L.Posted(s.ledger, L.ProcessorFee, reference) then 0 else r.fee)
  {
    FindsOnlyAttempt(s, k, id.processor, r.reference.value);
    OnlyAttemptIsLatest(s, k);
    assert s.attempts[k].intent == k && StatusOk(s, k);
    ApplyStatusKeepsCoupled(s.intents[k].status, s.attempts[k].status, r.status);
    var i, processor, reference := s.intents[k], s.attempts[k].processor, L.ProviderEvent(id.key);
    CaptureTotals(s.ledger, k, i, processor, reference, r.fee);
  }

  lemma CaptureTotals(ledger: L.Ledger, k: nat, i: IntentRow, processor: string, reference: L.Reference, fee: int)
    ensures var after := L.Captured(ledger, k, i.client, processor, reference, i.amount, i.currency, fee);
            && L.Total(after, L.OfIntent(k), L.Capture)
               == L.Total(ledger, L.OfIntent(k), L.Capture)
                  + (if L.Posted(ledger, L.Capture, reference) then 0 else i.amount)
            && L.Total(after, L.OfIntent(k), L.ProcessorFee)
               == L.Total(ledger, L.OfIntent(k), L.ProcessorFee)
                  + (if fee <= 0 || L.Posted(ledger, L.ProcessorFee, reference) then 0 else fee)
  {
    var capture := L.PostCapture(k, i.client, processor, reference, i.amount, i.currency);
    var charge := L.PostFee(k, processor, reference, fee, i.currency);
    var once := L.Book(ledger, capture);
    L.BookSums(ledger, capture, L.KindAmount(L.OfIntent(k), L.Capture));
    L.BookSums(ledger, capture, L.KindAmount(L.OfIntent(k), L.ProcessorFee));
    L.BookSums(once, charge, L.KindAmount(L.OfIntent(k), L.Capture));
    L.BookSums(once, charge, L.KindAmount(L.OfIntent(k), L.ProcessorFee));
    FeeStillNew(ledger, capture, reference);
  }

  lemma FeeStillNew(ledger: L.Ledger, capture: L.Posting, reference: L.Reference)
    requires capture.PostCapture?
    ensures L.Posted(L.Book(ledger, capture), L.ProcessorFee, reference)
            <==> L.Posted(ledger, L.ProcessorFee, reference)
  {
    if L.Posted(ledger, L.ProcessorFee, reference) { L.BookKeepsPosted(ledger, capture, L.ProcessorFee, reference); }
  }

  /** A settlement takes its amount off what is outstanding exactly when it is positive and no more than that, and its
      name is new; otherwise the journal stays as it was. */
  lemma SettledIff(s: Store, k: nat, name: string, amount: int)
    requires DbOk(s)
    ensures var after := Settle(s, k, name, amount);
            var settled := k < |s.intents| && 0 < amount <= L.Outstanding(s.ledger, k)
                           && !L.Posted(s.ledger, L.Settlement, L.SettlementOf(name));
            && SameMoney(s, after.(ledger := s.ledger))
            && (if settled then L.Outstanding(after.ledger, k) == L.Outstanding(s.ledger, k) - amount
                else after.ledger == s.ledger)
  {
    if k < |s.intents| {
      OnlyAttemptIsLatest(s, k);
      if 0 < amount <= L.Outstanding(s.ledger, k) {
        L.SettlementNeverOverdraws(s.ledger, k, s.attempts[k].processor, name, amount, s.intents[k].currency);
      }
    }
  }

  // --- The inbox -----------------------------------------------------------------------------------------------

  /** How an event ends: ignored when it tells of no attempt, rejected when it is a success that is not in full or for
      an attempt that failed or was cancelled, and processed otherwise. */
  lemma EventEnds(s: Store, id: EventId, r: ProviderResult)
    requires DbOk(s)
    ensures var after := ApplyEvent(s, id, r);
            var told := Given(r.reference) && exists k :: 0 <= k < |s.attempts| && TellsOf(s, id, r, k);
            && id in after.events
            && (after.events[id] == EventStatus.Ignored <==> !told)
            && (forall k :: 0 <= k < |s.attempts| && k < |s.intents| && Given(r.reference) && TellsOf(s, id, r, k) ==>
                  after.events[id]
                  == if r.status == Some(AttemptStatus.Succeeded) && !(InFull(s, r, k) && Payable(s.attempts[k]))
                     then EventStatus.Rejected else EventStatus.Processed)
            && (forall other :: other in s.events && other != id ==>
                  other in after.events && after.events[other] == s.events[other])
  {
    if Given(r.reference) {
      var found := FindAttempt(s.attempts, id.processor, r.reference.value);
      if found.Some? {
        assert TellsOf(s, id, r, found.value) && s.attempts[found.value].intent == found.value;
        FoundEnds(s, id, r, found.value);
      }
      forall k | 0 <= k < |s.attempts| && TellsOf(s, id, r, k) ensures found == Some(k) {
        FindsOnlyAttempt(s, k, id.processor, r.reference.value);
      }
    }
  }

  lemma FoundEnds(s: Store, id: EventId, r: ProviderResult, k: nat)
    requires DbOk(s) && Given(r.reference) && FindAttempt(s.attempts, id.processor, r.reference.value) == Some(k)
    ensures k < |s.attempts| && k < |s.intents|
    ensures EventVerdict(s, id, r)
            == if r.status == Some(AttemptStatus.Succeeded) && !(InFull(s, r, k) && Payable(s.attempts[k]))
               then EventStatus.Rejected else EventStatus.Processed
  {
    assert s.attempts[k].intent == k && StatusOk(s, k);
    OnlyAttemptIsLatest(s, k);
    ApplyStatusKeepsCoupled(s.intents[k].status, s.attempts[k].status, r.status);
  }

  /** An event that was processed or ignored changes nothing when it comes again, whatever it carries then. */
  lemma SameEventAgainChangesNothing(s: Store, id: EventId, r: ProviderResult, again: ProviderResult)
    requires DbOk(s)
    ensures var once := ProcessEvent(s, id, r);
            id in once.events
            && (once.events[id] == EventStatus.Processed || once.events[id] == EventStatus.Ignored ==>
                  ProcessEvent(once, id, again) == once)
  {
    if !Closed(s, id) {
      ReceiveKeeps(s, id);
      EventEnds(ReceiveEvent(s, id), id, r);
    }
  }
}
