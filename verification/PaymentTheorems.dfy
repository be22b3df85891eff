/** The promises of the payment orchestration, for every run from empty tables. */
module PaymentTheorems {
  import opened Options
  import opened Sums
  import opened PaymentEntities
  import opened PaymentStore
  import opened PaymentSafety
  import opened PaymentEffects
  import L = FinancialLedger

  /** Attempt and intent statuses stay coupled, so a reconciliation sweep never raises, whatever the
      provider answers. */
  lemma CoupledAndSweepNeverRaises(steps: seq<Step>, k: nat, answer: Option<ProviderResult>)
    requires k < |Run(START, steps).db.attempts|
    ensures var s := Run(START, steps).db;
            && k < |s.intents| && Coupled(s.attempts[k].status, s.intents[k].status)
            && (Candidate(s.attempts[k]) ==> !SweepOutcomeOf(s, k, answer).Raised?)
  {
    Reachable(steps);
    var s := Run(START, steps).db;
    assert StatusOk(s, k);
    if Candidate(s.attempts[k]) { SweepNeverRaises(s, k, answer); }
  }

  // --- The effect of a payment ------------------------------------------------------------------------

  lemma {:induction false} GrossIsAmountPerCapture(journals: seq<L.Journal>, k: nat, amount: int)
    requires forall j :: 0 <= j < |journals| && journals[j].kind == L.Capture && journals[j].owner == L.OfIntent(k)
                         ==> journals[j].amount == amount
    ensures SumBy(journals, L.KindAmount(L.OfIntent(k), L.Capture)) == amount * SumBy(journals, CaptureOne(k))
  {
    if journals != [] {
      var n := |journals| - 1;
      GrossIsAmountPerCapture(journals[..n], k, amount);
      assert journals[..n] + [journals[n]] == journals;
    }
  }

  lemma GrossOfState(s: Store, dir: Directory, k: nat)
    requires Effects(s, dir) && k < |s.intents|
    ensures L.Total(s.ledger, L.OfIntent(k), L.Capture) == s.intents[k].amount * Captures(s, k)
  {
    forall j | 0 <= j < |s.ledger.journals| && s.ledger.journals[j].kind == L.Capture
               && s.ledger.journals[j].owner == L.OfIntent(k)
      ensures s.ledger.journals[j].amount == s.intents[k].amount
    {
      assert CaptureNamed(s, dir, s.ledger.journals[j]);
    }
    GrossIsAmountPerCapture(s.ledger.journals, k, s.intents[k].amount);
  }

  /** One capture and one `payment.succeeded` row, and a captured total of the intent's amount, if the
      attempt succeeded; none of them otherwise. */
  ghost predicate OneEffectIfSucceeded(s: Store, k: nat)
    requires k < |s.intents| && k < |s.attempts|
  {
    var gross := L.Total(s.ledger, L.OfIntent(k), L.Capture);
    if s.attempts[k].status == AttemptStatus.Succeeded
    then Captures(s, k) == 1 && Successes(s, k) == 1 && gross == s.intents[k].amount
    else Captures(s, k) == 0 && Successes(s, k) == 0 && gross == 0
  }

  lemma OneEffectOfState(s: Store, dir: Directory, k: nat)
    requires DbOk(s) && Effects(s, dir) && k < |s.intents| && s.intents[k].refunded == 0
    ensures OneEffectIfSucceeded(s, k)
  {
    GrossOfState(s, dir, k);
    assert StatusOk(s, k) && EffectsOk(s, k);
    var amount, times := s.intents[k].amount, Captures(s, k);
    assert times == 0 || times == 1;
  }

  /** Until a refund is applied, every intent has its one effect if and only if its attempt succeeded. */
  lemma ExactlyOneEffect(dir: Directory, steps: seq<Step>, k: nat)
    requires AllLegal(dir, steps)
    requires k < |Run(START, steps).db.intents| && Run(START, steps).db.intents[k].refunded == 0
    ensures k < |Run(START, steps).db.attempts| && OneEffectIfSucceeded(Run(START, steps).db, k)
  {
    LegalReachable(dir, steps);
    OneEffectOfState(Run(START, steps).db, dir, k);
  }

  /** A processed success records the effect exactly when the attempt had not succeeded yet or a refund
      was already applied: the guard looks at the intent status only. The journal then takes the capture
      unless it has one for the same event key. */
  lemma EffectRecordedIff(w: World, id: EventId, r: ProviderResult, k: nat)
    requires Inv(w) && !Closed(w.db, id)
    requires EventVerdict(w.db, id, r).Processed? && r.status == Some(AttemptStatus.Succeeded)
    requires FindAttempt(w.db.attempts, id.processor, r.reference.value) == Some(k)
    ensures k < |w.db.attempts| && k < |w.db.intents|
    ensures var s, after := w.db, Next(w, StepProcess(id, r)).db;
            var recorded := s.attempts[k].status != AttemptStatus.Succeeded || s.intents[k].refunded > 0;
            && Successes(after, k) == Successes(s, k) + (if recorded then 1 else 0)
            && Captures(after, k)
               == Captures(s, k)
                  + (if recorded && !L.Posted(s.ledger, L.Capture, L.ProviderEvent(id.key)) then 1 else 0)
  {
    var s := w.db;
    assert s.attempts[k].intent == k && StatusOk(s, k);
    ReceivedVerdict(s, id, r);
    var received := ReceiveEvent(s, id);
    var changed := WithStatuses(received, k, StatusesAfter(received, k, r.status).value);
    RecordCounts(changed, k, L.ProviderEvent(id.key), r.fee, k);
  }

  lemma ReceivedVerdict(s: Store, id: EventId, r: ProviderResult)
    ensures var received := ReceiveEvent(s, id);
            && EventVerdict(received, id, r) == EventVerdict(s, id, r)
            && received.intents == s.intents && received.attempts == s.attempts && received.outbox == s.outbox
  {
    var received := ReceiveEvent(s, id);
    if Given(r.reference) {
      var found := FindAttempt(s.attempts, id.processor, r.reference.value);
      if found.Some? && s.attempts[found.value].intent < |s.intents| {
        assert StatusesAfter(received, found.value, r.status) == StatusesAfter(s, found.value, r.status);
      }
    }
  }

  /** However many refund requests of an intent are in progress, what was asked of providers and not
      refused never exceeds the captured amount, and completing a reserved refund never raises. */
  lemma RefundsNeverExceedCapture(steps: seq<Step>, k: nat)
    requires k < |Run(START, steps).db.intents|
    ensures var w := Run(START, steps);
            && TotalSucceeded(w.db.refunds, k) <= TotalActive(w.db.refunds, k) <= w.db.intents[k].amount
            && (forall r :: r in w.refunding ==>
                  r < |w.db.refunds| && RefundFits(w.refunding[r], w.db.refunds[r].amount))
  {
    Reachable(steps);
    var w := Run(START, steps);
    assert RefundsFit(w.db, k);
    SucceededNotNegative(w.db, k);
    forall r | r in w.refunding
      ensures r < |w.db.refunds| && RefundFits(w.refunding[r], w.db.refunds[r].amount)
    {
      assert ReadOk(w.db, r, w.refunding[r]);
      ReservationMakesRefundFit(w, r);
    }
  }

  /** The journal of every run is sound: balanced, no reference posted twice, and the outstanding total
      and module payable of every intent are the balances of its entries. */
  lemma JournalOfEveryRunIsSound(steps: seq<Step>, k: nat)
    ensures var l := Run(START, steps).db.ledger;
            && L.Balanced(l) && L.UniqueReferences(l)
            && L.ReceivableBalance(l, L.OfIntent(k)) == L.Outstanding(l, k)
            && L.PayableBalance(l, L.OfIntent(k))
               == L.Total(l, L.OfIntent(k), L.Capture) - L.Total(l, L.OfIntent(k), L.RefundPaid)
  {
    Reachable(steps);
    assert L.Reconciles(Run(START, steps).db.ledger, k);
  }

  // --- Every succeeded refund is journalled once, with its own amount ------------------------------------

  ghost predicate RefundJournalOk(s: Store, j: L.Journal) {
    j.kind == L.RefundPaid ==>
      j.reference.RefundOf? && j.reference.refund < |s.refunds|
      && s.refunds[j.reference.refund].status == RefundStatus.Succeeded
  }

  ghost predicate JournalledFor(s: Store, k: nat) {
    L.Total(s.ledger, L.OfIntent(k), L.RefundPaid) == TotalSucceeded(s.refunds, k)
  }

  ghost predicate RefundsJournalled(s: Store) {
    && (forall j :: 0 <= j < |s.ledger.journals| ==> RefundJournalOk(s, s.ledger.journals[j]))
    && (forall k: nat :: JournalledFor(s, k))
  }

  /** The ledger after a step that pays no refund. */
  lemma CapturedKeepsJournalled(s: Store, after: Store, k: nat, reference: L.Reference, fee: int)
    requires RefundsJournalled(s) && after.refunds == s.refunds
    requires k < |s.attempts| && s.attempts[k].intent < |s.intents|
    requires after.ledger == RecordSuccess(s, k, reference, fee).ledger
    ensures RefundsJournalled(after)
  {
    var a := s.attempts[k];
    var i := s.intents[a.intent];
    var first := L.PostCapture(a.intent, i.client, a.processor, reference, i.amount, i.currency);
    var mid := s.(ledger := L.Book(s.ledger, first));
    PostingKeepsJournalled(s, mid, first);
    if fee > 0 {
      PostingKeepsJournalled(mid, after, L.PostFee(a.intent, a.processor, reference, fee, i.currency));
    } else {
      SameKeepsJournalled(mid, after);
    }
  }

  lemma SameKeepsJournalled(s: Store, after: Store)
    requires RefundsJournalled(s) && after.ledger == s.ledger && after.refunds == s.refunds
    ensures RefundsJournalled(after)
  {
    forall j | 0 <= j < |after.ledger.journals| ensures RefundJournalOk(after, after.ledger.journals[j]) {
      assert RefundJournalOk(s, s.ledger.journals[j]);
    }
    forall k: nat ensures JournalledFor(after, k) { assert JournalledFor(s, k); }
  }

  lemma PostingKeepsJournalled(s: Store, after: Store, posting: L.Posting)
    requires RefundsJournalled(s) && !posting.PostRefund?
    requires after.ledger == L.Book(s.ledger, posting) && after.refunds == s.refunds
    ensures RefundsJournalled(after)
  {
    forall j | 0 <= j < |after.ledger.journals| ensures RefundJournalOk(after, after.ledger.journals[j]) {
      if j < |s.ledger.journals| { assert RefundJournalOk(s, s.ledger.journals[j]); }
    }
    forall k: nat ensures JournalledFor(after, k) {
      assert JournalledFor(s, k);
      L.AppendTotal(s.ledger, L.JournalOf(posting), L.DebitOf(posting), L.CreditOf(posting), L.OfIntent(k),
                    L.RefundPaid);
    }
  }

  lemma AcceptKeepsJournalled(s: Store, k: nat, reported: Option<AttemptStatus>,
                              reference: L.Reference, fee: int)
    requires RefundsJournalled(s) && k < |s.attempts| && s.attempts[k].intent < |s.intents|
    requires StatusesAfter(s, k, reported).Some?
    ensures RefundsJournalled(Accept(s, k, reported, reference, fee))
  {
    var changed := WithStatuses(s, k, StatusesAfter(s, k, reported).value);
    SameKeepsJournalled(s, changed);
    if Effective(s, k, reported) {
      CapturedKeepsJournalled(changed, Accept(s, k, reported, reference, fee), k, reference, fee);
    }
  }

  lemma FinishRefundKeepsJournalled(w: World, r: nat, answer: Option<RefundStatus>)
    requires Inv(w) && RefundsJournalled(w.db) && r in w.refunding
    ensures RefundsJournalled(Next(w, StepFinishRefund(r, answer)).db)
  {
    var s, read, status := w.db, w.refunding[r], RefundStatusAfter(answer);
    FinishedIsCompleted(w, r, answer);
    var after, posting := Next(w, StepFinishRefund(r, answer)).db, RefundPosting(s, r, read);
    RefundNotJournalledYet(s, r);
    forall j | 0 <= j < |after.ledger.journals| ensures RefundJournalOk(after, after.ledger.journals[j]) {
      if j < |s.ledger.journals| { assert RefundJournalOk(s, s.ledger.journals[j]); }
    }
    forall k: nat ensures JournalledFor(after, k) {
      assert JournalledFor(s, k);
      FinishRefundTotals(s, r, status, k);
      L.AppendTotal(s.ledger, L.JournalOf(posting), L.DebitOf(posting), L.CreditOf(posting), L.OfIntent(k),
                    L.RefundPaid);
    }
  }

  lemma RefundNotJournalledYet(s: Store, r: nat)
    requires RefundsJournalled(s) && r < |s.refunds| && s.refunds[r].status != RefundStatus.Succeeded
    ensures !L.Posted(s.ledger, L.RefundPaid, L.RefundOf(r))
  {
    forall j | 0 <= j < |s.ledger.journals|
      ensures !(s.ledger.journals[j].kind == L.RefundPaid && s.ledger.journals[j].reference == L.RefundOf(r))
    {
      assert RefundJournalOk(s, s.ledger.journals[j]);
    }
  }

  lemma ReserveKeepsJournalled(s: Store, c: RefundCommand)
    requires RefundsJournalled(s)
    ensures RefundsJournalled(ReserveRefund(s, c))
  {
    var after := ReserveRefund(s, c);
    forall j | 0 <= j < |after.ledger.journals| ensures RefundJournalOk(after, after.ledger.journals[j]) {
      assert RefundJournalOk(s, s.ledger.journals[j]);
    }
    forall k: nat ensures JournalledFor(after, k) {
      assert JournalledFor(s, k);
      if after != s {
        SumAppend(s.refunds, after.refunds[|s.refunds|], SucceededAmount(k));
      }
    }
  }

  lemma NextKeepsJournalled(w: World, step: Step)
    requires Inv(w) && RefundsJournalled(w.db)
    ensures RefundsJournalled(Next(w, step).db)
  {
    var s, after := w.db, Next(w, step).db;
    match step
    case StepApply(id, r) => ApplyKeepsJournalled(s, id, r);
    case StepProcess(id, r) =>
      if !Closed(s, id) {
        SameKeepsJournalled(s, ReceiveEvent(s, id));
        ApplyKeepsJournalled(ReceiveEvent(s, id), id, r);
      }
    case StepSweep(k, answer) =>
      if k < |s.attempts| && Candidate(s.attempts[k]) { SweepKeepsJournalled(s, k, answer); }
    case StepReserve(c) => ReserveKeepsJournalled(s, c);
    case StepFinishRefund(r, answer) => if r in w.refunding { FinishRefundKeepsJournalled(w, r, answer); }
    case StepSettle(k, name, amount) => SettleKeepsJournalled(s, k, name, amount);
    case _ => SameKeepsJournalled(s, after);
  }

  lemma SweepKeepsJournalled(s: Store, k: nat, answer: Option<ProviderResult>)
    requires DbOk(s) && RefundsJournalled(s) && k < |s.attempts| && Candidate(s.attempts[k])
    ensures RefundsJournalled(Sweep(s, k, answer))
  {
    if Sweep(s, k, answer) != s {
      AcceptKeepsJournalled(s, k, answer.value.status, L.ReconciledAttempt(k), answer.value.fee);
    }
  }

  lemma SettleKeepsJournalled(s: Store, k: nat, name: string, amount: int)
    requires RefundsJournalled(s)
    ensures RefundsJournalled(Settle(s, k, name, amount))
  {
    var attempt := LatestAttempt(s.attempts, k, false);
    if k < |s.intents| && attempt.Some? && L.SettlementFits(s.ledger, k, amount) {
      PostingKeepsJournalled(s, Settle(s, k, name, amount),
                             L.PostSettlement(k, s.attempts[attempt.value].processor, L.SettlementOf(name),
                                              amount, s.intents[k].currency));
    }
  }

  lemma ApplyKeepsJournalled(s: Store, id: EventId, r: ProviderResult)
    requires RefundsJournalled(s)
    ensures RefundsJournalled(ApplyEvent(s, id, r))
  {
    if EventVerdict(s, id, r).Processed? {
      var k := FindAttempt(s.attempts, id.processor, r.reference.value).value;
      AcceptKeepsJournalled(s, k, r.status, L.ProviderEvent(id.key), r.fee);
      SameKeepsJournalled(Accept(s, k, r.status, L.ProviderEvent(id.key), r.fee), ApplyEvent(s, id, r));
    } else {
      SameKeepsJournalled(s, ApplyEvent(s, id, r));
    }
  }

  lemma {:induction false} RunKeepsJournalled(w: World, steps: seq<Step>)
    requires Inv(w) && RefundsJournalled(w.db)
    ensures RefundsJournalled(Run(w, steps).db)
    decreases |steps|
  {
    if steps != [] {
      NextKeepsJournalled(w, steps[0]);
      PaymentSafety.NextKeeps(w, steps[0]);
      RunKeepsJournalled(Next(w, steps[0]), steps[1..]);
    }
  }

  /** In every run the refunds journalled for an intent add up to its succeeded refunds, so its module
      payable is what was captured minus what was really given back. */
  lemma SucceededRefundsAreJournalled(steps: seq<Step>, k: nat)
    ensures var s := Run(START, steps).db;
            && L.Total(s.ledger, L.OfIntent(k), L.RefundPaid) == TotalSucceeded(s.refunds, k)
            && L.PayableBalance(s.ledger, L.OfIntent(k))
               == L.Total(s.ledger, L.OfIntent(k), L.Capture) - TotalSucceeded(s.refunds, k)
  {
    StartIsOk();
    RunKeepsJournalled(START, steps);
    JournalOfEveryRunIsSound(steps, k);
    assert JournalledFor(Run(START, steps).db, k);
  }

  // --- The first terminal result decides -------------------------------------------------------------------

  predicate Terminal(status: Option<AttemptStatus>) {
    status == Some(AttemptStatus.Succeeded) || status == Some(AttemptStatus.Failed)
  }

  /** The event was processed or ignored before. */
  predicate Done(s: Store, id: EventId) {
    id in s.events && (s.events[id] == EventStatus.Processed || s.events[id] == EventStatus.Ignored)
  }

  /** An attempt that a reconciliation asks the provider about. */
  predicate Sweepable(a: AttemptRow) {
    a.reference.Some? && a.status in {AttemptStatus.RequiresAction, AttemptStatus.Processing, AttemptStatus.Unknown}
  }

  /** The client's own payment, which no provider has heard of yet. */
  predicate Cancellable(s: Store, client: string, k: nat) {
    && k < |s.intents| && k < |s.attempts| && s.intents[k].client == client
    && s.attempts[k].status == AttemptStatus.Pending && s.attempts[k].reference == None
  }

  /** The terminal status that a step brings to attempt k, when it is a valid result for it. */
  function Decision(w: World, step: Step, k: nat): Option<AttemptStatus>
    requires k < |w.db.attempts|
  {
    var a := w.db.attempts[k];
    match step
    case StepApply(id, r) => EventDecision(a, id, r)
    case StepProcess(id, r) => if Done(w.db, id) then None else EventDecision(a, id, r)
    case StepSweep(i, answer) => if i == k && Sweepable(a) then SweepDecision(a, answer) else None
    case StepCancel(client, i) => if i == k && Cancellable(w.db, client, k) then Some(AttemptStatus.Cancelled) else None
    case _ => None
  }

  /** A success counts only in the attempt's own amount and currency. */
  function EventDecision(a: AttemptRow, id: EventId, r: ProviderResult): Option<AttemptStatus> {
    if Given(r.reference) && a.processor == id.processor && a.reference == r.reference && Terminal(r.status)
       && (r.status.value == AttemptStatus.Succeeded ==> r.amount == Some(a.amount) && r.currency == Some(a.currency))
    then r.status else None
  }

  function SweepDecision(a: AttemptRow, answer: Option<ProviderResult>): Option<AttemptStatus> {
    if answer.Some? && Terminal(answer.value.status)
       && (answer.value.status.value == AttemptStatus.Succeeded ==>
             && answer.value.reference == a.reference
             && answer.value.amount == Some(a.amount) && answer.value.currency == Some(a.currency))
    then answer.value.status else None
  }

  /** The decision of the first deciding step of a run. */
  function FirstDecision(w: World, steps: seq<Step>, k: nat): Option<AttemptStatus>
    requires k < |w.db.attempts|
    decreases |steps|
  {
    if steps == [] then None else
      var first, after := Decision(w, steps[0], k), Next(w, steps[0]);
      if first.Some? || k >= |after.db.attempts| then first else FirstDecision(after, steps[1..], k)
  }

  /** How a step treats an attempt: a decided attempt keeps its status, an undecided one gets the
      decision if there is one and stays undecided otherwise. */
  predicate Follows(was: AttemptStatus, decision: Option<AttemptStatus>, becomes: AttemptStatus) {
    if Decided(was) then becomes == was
    else if decision.Some? then becomes == decision.value && Decided(becomes)
    else !Decided(becomes)
  }

  lemma FindsOnlyAttempt(s: Store, k: nat, processor: string, reference: string)
    requires DbOk(s) && k < |s.attempts|
    ensures HasReference(s.attempts[k], processor, reference)
            <==> FindAttempt(s.attempts, processor, reference) == Some(k)
  {
    var found := FindAttempt(s.attempts, processor, reference);
    if HasReference(s.attempts[k], processor, reference) {
      assert HasReference(s.attempts[found.value], processor, reference);
    }
  }

  lemma AcceptDecides(s: Store, i: nat, reported: Option<AttemptStatus>, reference: L.Reference, fee: int, k: nat)
    requires DbOk(s) && i < |s.attempts| && k < |s.attempts| && s.attempts[i].intent < |s.intents|
    requires StatusesAfter(s, i, reported).Some?
    ensures var after := Accept(s, i, reported, reference, fee);
            && |after.attempts| == |s.attempts|
            && (i != k ==> after.attempts[k] == s.attempts[k])
            && (i == k ==> Follows(s.attempts[k].status, if Terminal(reported) then reported else None,
                                   after.attempts[k].status))
  {
    OnlyAttemptIsLatest(s, i);
    assert s.attempts[i].intent == i && StatusOk(s, i);
    ApplyStatusKeepsCoupled(s.intents[i].status, s.attempts[i].status, reported);
  }

  lemma ApplyEventDecides(s: Store, id: EventId, r: ProviderResult, k: nat)
    requires DbOk(s) && k < |s.attempts|
    ensures var after := ApplyEvent(s, id, r);
            && |after.attempts| == |s.attempts|
            && Follows(s.attempts[k].status, EventDecision(s.attempts[k], id, r), after.attempts[k].status)
  {
    if Given(r.reference) {
      FindsOnlyAttempt(s, k, id.processor, r.reference.value);
      var found := FindAttempt(s.attempts, id.processor, r.reference.value);
      if found.Some? {
        var i := found.value;
        assert s.attempts[i].intent == i && StatusOk(s, i);
        OnlyAttemptIsLatest(s, i);
        ApplyStatusKeepsCoupled(s.intents[i].status, s.attempts[i].status, r.status);
        if StatusesAfter(s, i, r.status).Some? {
          AcceptDecides(s, i, r.status, L.ProviderEvent(id.key), r.fee, k);
        }
      }
    }
  }

  lemma SweepDecides(s: Store, i: nat, answer: Option<ProviderResult>, k: nat)
    requires DbOk(s) && i < |s.attempts| && k < |s.attempts| && Candidate(s.attempts[i])
    ensures var after, a := Sweep(s, i, answer), s.attempts[k];
            && |after.attempts| == |s.attempts|
            && (i != k ==> after.attempts[k] == a)
            && (i == k ==> Follows(a.status, SweepDecision(a, answer), after.attempts[k].status))
  {
    SweepNeverRaises(s, i, answer);
    assert s.attempts[i].intent == i;
    if answer.Some? && !SweepOutcomeOf(s, i, answer).SweptMismatched? {
      AcceptDecides(s, i, answer.value.status, L.ReconciledAttempt(i), answer.value.fee, k);
    }
  }

  /** A payment is cancelled exactly when it is the client's own and no provider has heard of it yet; intent and
      attempt are then cancelled together and nothing else changes. */
  lemma CancelledIff(s: Store, client: string, k: nat)
    requires DbOk(s)
    ensures if Cancellable(s, client, k)
            then Cancel(s, client, k) == s.(
                   intents := s.intents[k := s.intents[k].(status := IntentStatus.Cancelled)],
                   attempts := s.attempts[k := s.attempts[k].(status := AttemptStatus.Cancelled)])
            else Cancel(s, client, k) == s
  {
    if k < |s.attempts| {
      OnlyAttemptIsLatest(s, k);
      assert StatusOk(s, k);
    }
  }

  lemma CancelDecides(s: Store, client: string, i: nat, k: nat)
    requires DbOk(s) && k < |s.attempts|
    ensures var after := Cancel(s, client, i);
            && |after.attempts| == |s.attempts|
            && (i != k ==> after.attempts[k] == s.attempts[k])
            && (i == k ==> Follows(s.attempts[k].status,
                                   if Cancellable(s, client, k) then Some(AttemptStatus.Cancelled) else None,
                                   after.attempts[k].status))
  {
    CancelledIff(s, client, i);
  }

  /** Steps that bring no provider result leave an attempt whose creation is over as it is. */
  lemma OtherStepsLeaveAttempt(w: World, step: Step, k: nat)
    requires Inv(w) && k < |w.db.attempts| && k !in w.creating
    requires !step.StepApply? && !step.StepProcess? && !step.StepSweep? && !step.StepCancel?
    ensures var after := Next(w, step);
            k < |after.db.attempts| && k !in after.creating && after.db.attempts[k] == w.db.attempts[k]
  {
  }

  lemma NextDecides(w: World, step: Step, k: nat)
    requires Inv(w) && k < |w.db.attempts| && k !in w.creating
    ensures var after := Next(w, step);
            && k < |after.db.attempts| && k !in after.creating
            && Follows(w.db.attempts[k].status, Decision(w, step, k), after.db.attempts[k].status)
  {
    var s := w.db;
    match step
    case StepApply(id, r) => ApplyEventDecides(s, id, r, k);
    case StepProcess(id, r) =>
      if !Closed(s, id) {
        ReceiveKeeps(s, id);
        ApplyEventDecides(ReceiveEvent(s, id), id, r, k);
      }
    case StepSweep(i, answer) => if i < |s.attempts| && Candidate(s.attempts[i]) { SweepDecides(s, i, answer, k); }
    case StepCancel(client, i) => CancelDecides(s, client, i, k);
    case _ => OtherStepsLeaveAttempt(w, step, k);
  }

  lemma {:induction false} DecidedStays(w: World, steps: seq<Step>, k: nat)
    requires Inv(w) && k < |w.db.attempts| && k !in w.creating && Decided(w.db.attempts[k].status)
    ensures var after := Run(w, steps);
            && k < |after.db.attempts| && k !in after.creating
            && after.db.attempts[k].status == w.db.attempts[k].status
    decreases |steps|
  {
    if steps != [] {
      NextDecides(w, steps[0], k);
      PaymentSafety.NextKeeps(w, steps[0]);
      DecidedStays(Next(w, steps[0]), steps[1..], k);
    }
  }

  /** For any list of events, duplicated and reordered and mixed with sweeps and every other step, the
      first valid terminal result decides an attempt whose creation is over, and nothing changes it after. */
  lemma {:induction false} FirstTerminalResultDecides(w: World, steps: seq<Step>, k: nat)
    requires Inv(w) && k < |w.db.attempts| && k !in w.creating && !Decided(w.db.attempts[k].status)
    ensures var after, decision := Run(w, steps), FirstDecision(w, steps, k);
            && k < |after.db.attempts| && k !in after.creating
            && (decision.Some? ==> after.db.attempts[k].status == decision.value && Decided(decision.value))
            && (decision.None? ==> !Decided(after.db.attempts[k].status))
    decreases |steps|
  {
    if steps != [] {
      NextDecides(w, steps[0], k);
      PaymentSafety.NextKeeps(w, steps[0]);
      if Decision(w, steps[0], k).Some? {
        DecidedStays(Next(w, steps[0]), steps[1..], k);
      } else {
        FirstTerminalResultDecides(Next(w, steps[0]), steps[1..], k);
      }
    }
  }

  lemma CancelledState(w: World, client: string, k: nat, reference: Option<string>)
    requires Inv(w) && k in w.creating && MayCancel(w.db, client, k) && !ReferenceTaken(w.db, k, reference)
    ensures k < |w.db.attempts| && k < |w.db.intents|
    ensures var after := Next(w, StepCancel(client, k));
            var attempts := w.db.attempts[k := w.db.attempts[k].(status := AttemptStatus.Cancelled)];
            && after == w.(db := after.db) && !ReferenceTaken(after.db, k, reference)
            && after.db == w.db.(
                 intents := w.db.intents[k := w.db.intents[k].(status := IntentStatus.Cancelled)], attempts := attempts)
  {
    OnlyAttemptIsLatest(w.db, k);
    assert StatusOk(w.db, k);
    var cancelled := Next(w, StepCancel(client, k));
    if reference.Some? {
      forall i | 0 <= i < |cancelled.db.attempts| && i != k
        ensures !HasReference(cancelled.db.attempts[i], cancelled.db.attempts[k].processor, reference.value)
      {
        assert cancelled.db.attempts[i] == w.db.attempts[i];
      }
    }
  }

  /** A cancellation accepted between the two commits of a creation is lost: the creation ends as if it
      had never happened. */
  lemma CancelDuringCreationIsLost(w: World, client: string, k: nat, status: AttemptStatus,
                                   reference: Option<string>)
    requires Inv(w) && k in w.creating && MayCancel(w.db, client, k)
    requires !ReferenceTaken(w.db, k, reference)
    ensures var cancelled, finish := Next(w, StepCancel(client, k)), StepFinishCreate(k, status, reference);
            && cancelled.db.attempts[k].status == AttemptStatus.Cancelled
            && Next(cancelled, finish) == Next(w, finish)
  {
    CancelledState(w, client, k, reference);
    var cancelled := Next(w, StepCancel(client, k));
    var finish := StepFinishCreate(k, status, reference);
    var a, b := Next(cancelled, finish).db, Next(w, finish).db;
    assert a.intents == b.intents && a.attempts == b.attempts;
  }
}
