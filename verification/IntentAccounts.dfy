/** Whose accounts a payment's postings are on: whatever runs, they are in its currency, and they debit and credit its
    own processor and its own client, so the two balances of a payment are each on one account. */
module IntentAccounts {
  import opened Options
  import opened Sums
  import opened PaymentEntities
  import opened PaymentStore
  import opened PaymentSafety
  import L = FinancialLedger

  /** The entry is in the currency of its payment and on an account of its processor or its client. */
  predicate EntryFits(s: Store, e: L.Entry, k: nat) {
    && k < |s.intents| && k < |s.attempts| && e.currency == s.intents[k].currency
    && (e.account.ProcessorReceivable? ==> e.account.processor == s.attempts[k].processor)
    && (e.account.ModulePayable? ==> e.account.client == s.intents[k].client)
    && !e.account.ProcessorBalance?
  }

  predicate EntryNamed(s: Store, e: L.Entry) {
    && e.journal < |s.ledger.journals|
    && var owner := s.ledger.journals[e.journal].owner;
    owner.OfIntent? ==> EntryFits(s, e, owner.intent)
  }

  predicate Named(s: Store) { forall i :: 0 <= i < |s.ledger.entries| ==> EntryNamed(s, s.ledger.entries[i]) }

  /** Clients, currencies and processors stay; rows may be added. */
  predicate SameNames(s: Store, after: Store) {
    && |s.intents| <= |after.intents| && |s.attempts| <= |after.attempts|
    && (forall k :: 0 <= k < |s.intents| ==>
          after.intents[k].client == s.intents[k].client && after.intents[k].currency == s.intents[k].currency)
    && (forall k :: 0 <= k < |s.attempts| ==> after.attempts[k].processor == s.attempts[k].processor)
  }

  lemma SameLedgerStaysNamed(s: Store, after: Store)
    requires Named(s) && SameNames(s, after) && after.ledger == s.ledger
    ensures Named(after)
  {
    forall i | 0 <= i < |after.ledger.entries| ensures EntryNamed(after, after.ledger.entries[i]) {
      assert EntryNamed(s, s.ledger.entries[i]);
    }
  }

  /** The posting names payment k's own client and processor, in its currency. */
  predicate PostingFits(s: Store, p: L.Posting, k: nat) {
    && k < |s.intents| && k < |s.attempts| && !p.PostPayout? && p.intent == k && p.currency == s.intents[k].currency
    && p.processor == s.attempts[k].processor
    && (p.PostCapture? || p.PostRefund? ==> p.client == s.intents[k].client)
  }

  lemma BookStaysNamed(s: Store, p: L.Posting, k: nat)
    requires Named(s) && PostingFits(s, p, k)
    ensures Named(s.(ledger := L.Book(s.ledger, p)))
  {
    var after := s.(ledger := L.Book(s.ledger, p));
    forall i | 0 <= i < |after.ledger.entries| ensures EntryNamed(after, after.ledger.entries[i]) {
      if i < |s.ledger.entries| { assert EntryNamed(s, s.ledger.entries[i]); }
    }
  }

  lemma RecordStaysNamed(s: Store, k: nat, reference: L.Reference, fee: int)
    requires DbOk(s) && Named(s) && k < |s.attempts|
    ensures s.attempts[k].intent < |s.intents| && Named(RecordSuccess(s, k, reference, fee))
  {
    assert s.attempts[k].intent == k;
    var i := s.intents[k];
    var capture := L.PostCapture(k, i.client, s.attempts[k].processor, reference, i.amount, i.currency);
    BookStaysNamed(s, capture, k);
    var once := s.(ledger := L.Book(s.ledger, capture));
    BookStaysNamed(once, L.PostFee(k, s.attempts[k].processor, reference, fee, i.currency), k);
    var charged := if fee > 0 then
                     once.(ledger := L.Book(once.ledger, L.PostFee(k, s.attempts[k].processor, reference, fee,
                                                                   i.currency)))
                   else once;
    SameLedgerStaysNamed(charged, RecordSuccess(s, k, reference, fee));
  }

  lemma AcceptStaysNamed(s: Store, k: nat, reported: Option<AttemptStatus>, reference: L.Reference, fee: int)
    requires DbOk(s) && Named(s) && k < |s.attempts|
    requires s.attempts[k].intent < |s.intents| && StatusesAfter(s, k, reported).Some?
    ensures Named(Accept(s, k, reported, reference, fee))
  {
    var changed := WithStatuses(s, k, StatusesAfter(s, k, reported).value);
    StatusesKeep(s, k, reported);
    SameLedgerStaysNamed(s, changed);
    if Effective(s, k, reported) { RecordStaysNamed(changed, k, reference, fee); }
  }

  lemma EventStaysNamed(s: Store, id: EventId, r: ProviderResult)
    requires DbOk(s) && Named(s)
    ensures Named(ApplyEvent(s, id, r))
  {
    if EventVerdict(s, id, r).Processed? {
      var k := FindAttempt(s.attempts, id.processor, r.reference.value).value;
      AcceptStaysNamed(s, k, r.status, L.ProviderEvent(id.key), r.fee);
      SameLedgerStaysNamed(Accept(s, k, r.status, L.ProviderEvent(id.key), r.fee), ApplyEvent(s, id, r));
    } else {
      SameLedgerStaysNamed(s, ApplyEvent(s, id, r));
    }
  }

  lemma SweepStaysNamed(s: Store, k: nat, answer: Option<ProviderResult>)
    requires DbOk(s) && Named(s) && k < |s.attempts| && Candidate(s.attempts[k])
    ensures Named(Sweep(s, k, answer))
  {
    SweepNeverRaises(s, k, answer);
    if Sweep(s, k, answer) != s {
      AcceptStaysNamed(s, k, answer.value.status, L.ReconciledAttempt(k), answer.value.fee);
    }
  }

  lemma FinishRefundStaysNamed(w: World, r: nat, answer: Option<RefundStatus>)
    requires Inv(w) && Named(w.db) && r in w.refunding
    ensures Named(Next(w, StepFinishRefund(r, answer)).db)
  {
    FinishedIsCompleted(w, r, answer);
    var s, read, status := w.db, w.refunding[r], RefundStatusAfter(answer);
    var after := Completed(s, r, read, status);
    SameLedgerStaysNamed(s, after);
    if status == RefundStatus.Succeeded { BookStaysNamed(after, RefundPosting(s, r, read), s.refunds[r].intent); }
  }

  lemma SettleStaysNamed(s: Store, k: nat, name: string, amount: int)
    requires DbOk(s) && Named(s)
    ensures Named(Settle(s, k, name, amount))
  {
    if k < |s.intents| {
      OnlyAttemptIsLatest(s, k);
      BookStaysNamed(s, L.PostSettlement(k, s.attempts[k].processor, L.SettlementOf(name), amount,
                                         s.intents[k].currency), k);
    }
  }

  lemma ProcessStaysNamed(s: Store, id: EventId, r: ProviderResult)
    requires DbOk(s) && Named(s)
    ensures Named(ProcessEvent(s, id, r))
  {
    if !Closed(s, id) {
      ReceiveKeeps(s, id);
      SameLedgerStaysNamed(s, ReceiveEvent(s, id));
      EventStaysNamed(ReceiveEvent(s, id), id, r);
    }
  }

  /** Steps that post nothing. */
  lemma QuietStepStaysNamed(w: World, step: Step)
    requires Named(w.db) && !step.StepApply? && !step.StepProcess? && !step.StepSweep?
    requires !step.StepFinishRefund? && !step.StepSettle?
    ensures Named(Next(w, step).db)
  {
    SameLedgerStaysNamed(w.db, Next(w, step).db);
  }

  lemma NextStaysNamed(w: World, step: Step)
    requires Inv(w) && Named(w.db)
    ensures Named(Next(w, step).db)
  {
    match step
    case StepApply(id, r) => EventStaysNamed(w.db, id, r);
    case StepProcess(id, r) => ProcessStaysNamed(w.db, id, r);
    case StepSweep(k, answer) =>
      if k < |w.db.attempts| && Candidate(w.db.attempts[k]) { SweepStaysNamed(w.db, k, answer); }
    case StepFinishRefund(r, answer) => if r in w.refunding { FinishRefundStaysNamed(w, r, answer); }
    case StepSettle(k, name, amount) => SettleStaysNamed(w.db, k, name, amount);
    case _ => QuietStepStaysNamed(w, step);
  }

  lemma {:induction false} RunStaysNamed(w: World, steps: seq<Step>)
    requires Inv(w) && Named(w.db)
    ensures Named(Run(w, steps).db)
    decreases |steps|
  {
    if steps != [] {
      NextStaysNamed(w, steps[0]);
      NextKeeps(w, steps[0]);
      RunStaysNamed(Next(w, steps[0]), steps[1..]);
    }
  }

  // --- The two balances of a payment -------------------------------------------------------------------------

  /** Debit minus credit of a payment's entries on one account. */
  function OwnOn(ledger: L.Ledger, k: nat, account: L.Account): L.Entry -> int {
    (e: L.Entry) =>
      if e.journal < |ledger.journals| && ledger.journals[e.journal].owner == L.OfIntent(k) && e.account == account
      then (if e.debit then e.amount else -e.amount) else 0
  }

  /** In every run, what is outstanding of a payment is owed by its own processor, and what is payable for it is owed
      to its own client; its postings are in its own currency. */
  lemma BalancesAreItsOwn(steps: seq<Step>, k: nat)
    requires k < |Run(START, steps).db.intents| && k < |Run(START, steps).db.attempts|
    ensures var s := Run(START, steps).db;
            && SumBy(s.ledger.entries, OwnOn(s.ledger, k, L.ProcessorReceivable(s.attempts[k].processor)))
               == L.Outstanding(s.ledger, k)
            && SumBy(s.ledger.entries, OwnOn(s.ledger, k, L.ModulePayable(s.intents[k].client)))
               == L.Total(s.ledger, L.OfIntent(k), L.RefundPaid) - L.Total(s.ledger, L.OfIntent(k), L.Capture)
            && forall i :: 0 <= i < |s.ledger.entries| && s.ledger.entries[i].journal < |s.ledger.journals|
                           && s.ledger.journals[s.ledger.entries[i].journal].owner == L.OfIntent(k) ==>
                 s.ledger.entries[i].currency == s.intents[k].currency
  {
    StartIsOk();
    Reachable(steps);
    RunStaysNamed(START, steps);
    var s := Run(START, steps).db;
    assert L.Reconciles(s.ledger, k);
    ReceivableIsOwn(s, k);
    PayableIsOwn(s, k);
    forall i | 0 <= i < |s.ledger.entries| ensures EntryNamed(s, s.ledger.entries[i]) {}
  }

  lemma ReceivableIsOwn(s: Store, k: nat)
    requires Named(s) && k < |s.attempts|
    ensures SumBy(s.ledger.entries, OwnOn(s.ledger, k, L.ProcessorReceivable(s.attempts[k].processor)))
            == L.ReceivableBalance(s.ledger, L.OfIntent(k))
  {
    var f := OwnOn(s.ledger, k, L.ProcessorReceivable(s.attempts[k].processor));
    forall i | 0 <= i < |s.ledger.entries|
      ensures f(s.ledger.entries[i]) == L.ReceivableAmount(s.ledger, L.OfIntent(k))(s.ledger.entries[i])
    {
      assert EntryNamed(s, s.ledger.entries[i]);
    }
    SumSame(s.ledger.entries, f, L.ReceivableAmount(s.ledger, L.OfIntent(k)));
  }

  lemma PayableIsOwn(s: Store, k: nat)
    requires Named(s) && k < |s.intents|
    ensures SumBy(s.ledger.entries, OwnOn(s.ledger, k, L.ModulePayable(s.intents[k].client)))
            == -L.PayableBalance(s.ledger, L.OfIntent(k))
  {
    var f, g := OwnOn(s.ledger, k, L.ModulePayable(s.intents[k].client)), L.PayableAmount(s.ledger, L.OfIntent(k));
    forall i | 0 <= i < |s.ledger.entries| ensures f(s.ledger.entries[i]) + g(s.ledger.entries[i]) == 0 {
      assert EntryNamed(s, s.ledger.entries[i]);
    }
    SumSplit(s.ledger.entries, (_: L.Entry) => 0, f, g);
    SumZero(s.ledger.entries, (_: L.Entry) => 0);
  }
}
