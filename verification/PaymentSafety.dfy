/** What every interleaving of creations, cancellations, webhooks, reconciliation sweeps, refunds and
    settlements keeps, whatever the adapters answer and however event keys are used. */
module PaymentSafety {
  import opened Options
  import opened Sums
  import opened PaymentEntities
  import opened PaymentStore
  import L = FinancialLedger

  // --- The invariant -----------------------------------------------------------------------------

  /** Every intent has one attempt, at its own position and of its own amount and currency. */
  ghost predicate Paired(s: Store) {
    && |s.attempts| == |s.intents|
    && forall k :: 0 <= k < |s.attempts| ==>
         && s.attempts[k].intent == k && 0 < s.intents[k].amount
         && s.attempts[k].amount == s.intents[k].amount && s.attempts[k].currency == s.intents[k].currency
  }

  ghost predicate DistinctReferences(attempts: seq<AttemptRow>) {
    forall a, b :: 0 <= a < b < |attempts| && attempts[a].reference.Some? ==>
      !(attempts[a].processor == attempts[b].processor && attempts[a].reference == attempts[b].reference)
  }

  /** A creation in progress has no provider reference yet, so only a cancellation can have met it. */
  ghost predicate CreatingUntouched(w: World) {
    forall k :: k in w.creating ==>
      && k < |w.db.attempts| && w.db.attempts[k].reference.None?
      && (w.db.attempts[k].status == AttemptStatus.Pending || w.db.attempts[k].status == AttemptStatus.Cancelled)
  }

  predicate IsCaptured(s: Store, k: nat)
    requires k < |s.attempts|
  {
    s.attempts[k].status == AttemptStatus.Succeeded
  }

  ghost predicate StatusOk(s: Store, k: nat)
    requires k < |s.attempts| && k < |s.intents|
  {
    && Coupled(s.attempts[k].status, s.intents[k].status)
    && (if IsCaptured(s, k)
        then StatusShowsRefunded(s.intents[k].status, s.intents[k].refunded, s.intents[k].amount)
        else s.intents[k].refunded == 0)
  }

  ghost predicate RefundRowOk(s: Store, r: RefundRow) {
    r.intent < |s.attempts| && r.attempt == r.intent && 0 < r.amount && IsCaptured(s, r.intent)
  }

  /** Providers are never asked to return more than was captured. */
  ghost predicate RefundsFit(s: Store, k: nat)
    requires k < |s.intents|
  {
    TotalActive(s.refunds, k) <= s.intents[k].amount && s.intents[k].refunded <= TotalSucceeded(s.refunds, k)
  }

  /** What a refund in progress read of its intent was true then and is not ahead of the table. */
  ghost predicate ReadOk(s: Store, refund: nat, read: IntentRow) {
    && refund < |s.refunds| && s.refunds[refund].status == RefundStatus.Pending
    && s.refunds[refund].intent < |s.intents|
    && var i := s.refunds[refund].intent;
    && read.amount == s.intents[i].amount && read.client == s.intents[i].client
    && read.currency == s.intents[i].currency && Refundable(read.status)
    && StatusShowsRefunded(read.status, read.refunded, read.amount)
    && read.refunded <= TotalSucceeded(s.refunds, i)
  }

  ghost predicate DbOk(s: Store) {
    && Paired(s) && DistinctReferences(s.attempts)
    && (forall k :: 0 <= k < |s.intents| ==> StatusOk(s, k) && RefundsFit(s, k))
    && (forall r :: 0 <= r < |s.refunds| ==> RefundRowOk(s, s.refunds[r]))
    && L.Sound(s.ledger)
  }

  ghost predicate ReadsOk(w: World) { forall r :: r in w.refunding ==> ReadOk(w.db, r, w.refunding[r]) }

  ghost predicate Inv(w: World) { DbOk(w.db) && CreatingUntouched(w) && ReadsOk(w) }

  // --- Status machine facts ------------------------------------------------------------------------

  /** Applying a reported status keeps attempt and intent coupled; it is refused exactly when a
      success is reported for an attempt that failed or was cancelled. An undecided attempt takes a success, a failure
      or a processing as it is reported and ignores the rest; a decided one takes nothing. */
  lemma ApplyStatusKeepsCoupled(intent: IntentStatus, attempt: AttemptStatus, reported: Option<AttemptStatus>)
    requires Coupled(attempt, intent)
    ensures var after := ApplyStatus(intent, attempt, true, reported);
            && (after.None? <==> reported == Some(AttemptStatus.Succeeded)
                                 && (attempt == AttemptStatus.Failed || attempt == AttemptStatus.Cancelled))
            && (after.Some? ==> Coupled(after.value.1, after.value.0) && AttemptMay(attempt, after.value.1))
            && (after.Some? && Decided(attempt) ==> after.value == (intent, attempt))
            && (after.Some? && !Decided(attempt) ==>
                  after.value.1
                  == if reported == Some(AttemptStatus.Succeeded) || reported == Some(AttemptStatus.Failed)
                        || reported == Some(AttemptStatus.Processing)
                     then reported.value else attempt)
  {
  }

  /** A sweep over a candidate read before other steps changed the intent raises exactly when success
      is reported for an intent that was refunded or cancelled meanwhile. */
  lemma StaleSweepRaises(intent: IntentStatus, attempt: AttemptStatus, latest: bool, reported: AttemptStatus)
    requires attempt == AttemptStatus.RequiresAction || attempt == AttemptStatus.Processing
             || attempt == AttemptStatus.Unknown
    ensures ApplyStatus(intent, attempt, latest, Some(reported)).None?
            <==> reported == AttemptStatus.Succeeded
                 && (intent == IntentStatus.PartiallyRefunded || intent == IntentStatus.Refunded
                     || intent == IntentStatus.Cancelled)
  {
  }

  /** When saving a candidate that was read before other steps leaves a payment coupled, by the status that is
      reported and the intent as it is now. */
  predicate StaleSweepFits(intent: IntentStatus, read: AttemptStatus, reported: Option<AttemptStatus>) {
    if reported == Some(AttemptStatus.Succeeded) then true
    else if reported == Some(AttemptStatus.Failed) then
      intent == IntentStatus.Processing || intent == IntentStatus.RequiresAction || intent == IntentStatus.Failed
    else if reported == Some(AttemptStatus.Processing) && read != AttemptStatus.Processing then
      intent == IntentStatus.Processing || intent == IntentStatus.RequiresAction
    else if read == AttemptStatus.RequiresAction then intent == IntentStatus.RequiresAction
    else intent == IntentStatus.Processing
  }

  lemma StaleStatusesStayCoupledIff(intent: IntentStatus, read: AttemptStatus, reported: Option<AttemptStatus>)
    requires read == AttemptStatus.RequiresAction || read == AttemptStatus.Processing || read == AttemptStatus.Unknown
    requires ApplyStatus(intent, read, true, reported).Some?
    ensures var after := ApplyStatus(intent, read, true, reported).value;
            Coupled(after.1, after.0) <==> StaleSweepFits(intent, read, reported)
  {
  }

  lemma OnlyAttemptIsLatest(s: Store, k: nat)
    requires Paired(s) && k < |s.attempts|
    ensures LatestAttempt(s.attempts, k, false) == Some(k) && IsLatest(s, k)
    ensures LatestAttempt(s.attempts, k, true) == if IsCaptured(s, k) then Some(k) else None
  {
    var any, won := LatestAttempt(s.attempts, k, false), LatestAttempt(s.attempts, k, true);
    assert s.attempts[k].intent == k;
    assert any.Some?;
    assert s.attempts[any.value].intent == any.value;
    if won.Some? {
      assert s.attempts[won.value].intent == won.value;
    }
  }

  /** A sweep that saves an attempt as it was read before other steps leaves the payment coupled exactly when what
      was read and reported fits the intent as it is now. */
  lemma StaleSweepStaysCoupledIff(s: Store, k: nat, read: AttemptRow, answer: ProviderResult)
    requires DbOk(s) && k < |s.attempts| && read == s.attempts[k].(status := read.status) && Candidate(read)
    ensures k < |s.intents|
    ensures var after := StaleSweep(s, k, read, Some(answer));
            var outcome := SweepOutcomeOf(s.(attempts := s.attempts[k := read]), k, Some(answer));
            && k < |after.attempts| && k < |after.intents|
            && if outcome.Raised? || outcome.SweptMismatched? then after == s
               else Coupled(after.attempts[k].status, after.intents[k].status)
                    <==> StaleSweepFits(s.intents[k].status, read.status, answer.status)
  {
    var seen := s.(attempts := s.attempts[k := read]);
    assert s.attempts[k].intent == k && Paired(seen);
    OnlyAttemptIsLatest(seen, k);
    if StatusesAfter(seen, k, answer.status).Some? {
      StaleStatusesStayCoupledIff(s.intents[k].status, read.status, answer.status);
    }
  }

  // --- Steps -------------------------------------------------------------------------------------------

  /** Outbox, events and a sound journal play no part in the invariant. */
  lemma SameTables(s: Store, after: Store)
    requires DbOk(s) && after.intents == s.intents && after.attempts == s.attempts && after.refunds == s.refunds
    requires L.Sound(after.ledger)
    ensures DbOk(after)
  {
    forall k | 0 <= k < |s.intents| ensures StatusOk(after, k) && RefundsFit(after, k) {
      assert StatusOk(s, k) && RefundsFit(s, k);
    }
    forall r | 0 <= r < |s.refunds| ensures RefundRowOk(after, s.refunds[r]) { assert RefundRowOk(s, s.refunds[r]); }
  }

  lemma NothingRefundedYet(s: Store, n: nat)
    requires DbOk(s) && n >= |s.intents|
    ensures TotalActive(s.refunds, n) == 0 && TotalSucceeded(s.refunds, n) == 0
  {
    forall r | 0 <= r < |s.refunds|
      ensures ActiveAmount(n)(s.refunds[r]) == 0 && SucceededAmount(n)(s.refunds[r]) == 0
    {
      assert RefundRowOk(s, s.refunds[r]);
    }
    SumZero(s.refunds, ActiveAmount(n));
    SumZero(s.refunds, SucceededAmount(n));
  }

  lemma StartCreateKeeps(w: World, c: CreateCommand)
    requires Inv(w)
    ensures Inv(Next(w, StepStartCreate(c)))
  {
    var s, after := w.db, StartCreate(w.db, c);
    if CreateOutcomeOf(s, c).Started? {
      NothingRefundedYet(s, |s.intents|);
      forall k | 0 <= k < |after.intents| ensures StatusOk(after, k) && RefundsFit(after, k) {
        if k < |s.intents| { assert StatusOk(s, k) && RefundsFit(s, k); }
      }
      forall r | 0 <= r < |s.refunds| ensures RefundRowOk(after, s.refunds[r]) {
        assert RefundRowOk(s, s.refunds[r]);
      }
      forall r | r in w.refunding ensures ReadOk(after, r, w.refunding[r]) { assert ReadOk(s, r, w.refunding[r]); }
    }
  }

  /** Moving a payment that is not captured to coupled statuses, a first success among them. */
  lemma RestateKeeps(s: Store, k: nat, intent: IntentStatus, attempt: AttemptStatus, reference: Option<string>,
                     after: Store)
    requires DbOk(s) && k < |s.intents| && !IsCaptured(s, k)
    requires Coupled(attempt, intent) && (attempt == AttemptStatus.Succeeded ==> intent == IntentStatus.Succeeded)
    requires reference == s.attempts[k].reference || !ReferenceTaken(s, k, reference)
    requires after == s.(
      intents := s.intents[k := s.intents[k].(status := intent, refunded := 0)],
      attempts := s.attempts[k := s.attempts[k].(status := attempt, reference := reference)])
    ensures DbOk(after)
  {
    forall i | 0 <= i < |s.intents| ensures StatusOk(after, i) && RefundsFit(after, i) {
      assert StatusOk(s, i) && RefundsFit(s, i);
    }
    forall r | 0 <= r < |s.refunds| ensures RefundRowOk(after, s.refunds[r]) { assert RefundRowOk(s, s.refunds[r]); }
    RestateKeepsReferences(s, k, attempt, reference);
  }

  lemma RestateKeepsReferences(s: Store, k: nat, status: AttemptStatus, reference: Option<string>)
    requires DistinctReferences(s.attempts) && k < |s.attempts|
    requires reference == s.attempts[k].reference || !ReferenceTaken(s, k, reference)
    ensures DistinctReferences(s.attempts[k := s.attempts[k].(status := status, reference := reference)])
  {
    if reference != s.attempts[k].reference && reference.Some? {
      assert forall i :: 0 <= i < |s.attempts| && i != k ==>
        !HasReference(s.attempts[i], s.attempts[k].processor, reference.value);
    }
  }

  lemma PostingKeeps(s: Store, posting: L.Posting)
    requires DbOk(s)
    ensures DbOk(s.(ledger := L.Book(s.ledger, posting)))
  {
    L.BookSound(s.ledger, posting);
    SameTables(s, s.(ledger := L.Book(s.ledger, posting)));
  }

  lemma RecordKeeps(s: Store, k: nat, reference: L.Reference, fee: int)
    requires DbOk(s) && k < |s.attempts|
    ensures s.attempts[k].intent < |s.intents| && DbOk(RecordSuccess(s, k, reference, fee))
  {
    assert s.attempts[k].intent == k;
    var a, i := s.attempts[k], s.intents[k];
    L.BookSound(s.ledger, L.PostCapture(k, i.client, a.processor, reference, i.amount, i.currency));
    var captured := L.Book(s.ledger, L.PostCapture(k, i.client, a.processor, reference, i.amount, i.currency));
    L.BookSound(captured, L.PostFee(k, a.processor, reference, fee, i.currency));
    SameTables(s, RecordSuccess(s, k, reference, fee));
  }

  lemma AcceptKeeps(s: Store, k: nat, reported: Option<AttemptStatus>, reference: L.Reference, fee: int)
    requires DbOk(s) && k < |s.attempts|
    requires s.attempts[k].intent < |s.intents| && StatusesAfter(s, k, reported).Some?
    ensures DbOk(Accept(s, k, reported, reference, fee))
  {
    var to := StatusesAfter(s, k, reported).value;
    var changed := WithStatuses(s, k, to);
    StatusesKeep(s, k, reported);
    if Effective(s, k, reported) { RecordKeeps(changed, k, reference, fee); }
  }

  lemma StatusesKeep(s: Store, k: nat, reported: Option<AttemptStatus>)
    requires DbOk(s) && k < |s.attempts|
    requires s.attempts[k].intent < |s.intents| && StatusesAfter(s, k, reported).Some?
    ensures DbOk(WithStatuses(s, k, StatusesAfter(s, k, reported).value))
  {
    OnlyAttemptIsLatest(s, k);
    assert s.attempts[k].intent == k && StatusOk(s, k);
    var to := StatusesAfter(s, k, reported).value;
    ApplyStatusKeepsCoupled(s.intents[k].status, s.attempts[k].status, reported);
    if IsCaptured(s, k) {
      assert WithStatuses(s, k, to) == s by {
        assert WithStatuses(s, k, to).intents == s.intents && WithStatuses(s, k, to).attempts == s.attempts;
      }
    } else {
      assert s.intents[k].(status := to.0, refunded := 0) == s.intents[k].(status := to.0);
      RestateKeeps(s, k, to.0, to.1, s.attempts[k].reference, WithStatuses(s, k, to));
    }
  }

  /** The refunds, the amounts and everything about attempts without a reference stay. */
  ghost predicate LeavesOthers(s: Store, after: Store) {
    && after.refunds == s.refunds && |after.intents| == |s.intents| && |after.attempts| == |s.attempts|
    && (forall k :: 0 <= k < |s.intents| ==>
          after.intents[k] == s.intents[k].(status := after.intents[k].status, refunded := after.intents[k].refunded))
    && (forall k :: 0 <= k < |s.attempts| && s.attempts[k].reference.None? ==> after.attempts[k] == s.attempts[k])
  }

  lemma InvFromDb(w: World, after: Store)
    requires Inv(w) && DbOk(after) && LeavesOthers(w.db, after)
    ensures Inv(w.(db := after))
  {
    forall r | r in w.refunding ensures ReadOk(after, r, w.refunding[r]) { assert ReadOk(w.db, r, w.refunding[r]); }
  }

  lemma ReceiveKeeps(s: Store, id: EventId)
    requires DbOk(s)
    ensures DbOk(ReceiveEvent(s, id)) && LeavesOthers(s, ReceiveEvent(s, id))
  {
    SameTables(s, ReceiveEvent(s, id));
  }

  lemma ApplyEventKeeps(s: Store, id: EventId, r: ProviderResult)
    requires DbOk(s)
    ensures DbOk(ApplyEvent(s, id, r)) && LeavesOthers(s, ApplyEvent(s, id, r))
  {
    var verdict := EventVerdict(s, id, r);
    if verdict.Processed? {
      var k := FindAttempt(s.attempts, id.processor, r.reference.value).value;
      AcceptKeeps(s, k, r.status, L.ProviderEvent(id.key), r.fee);
      SameTables(Accept(s, k, r.status, L.ProviderEvent(id.key), r.fee), ApplyEvent(s, id, r));
    } else {
      SameTables(s, ApplyEvent(s, id, r));
    }
  }

  /** A sweep of a candidate that was just read never raises. */
  lemma SweepNeverRaises(s: Store, k: nat, answer: Option<ProviderResult>)
    requires DbOk(s) && k < |s.attempts| && Candidate(s.attempts[k])
    ensures !SweepOutcomeOf(s, k, answer).Raised?
  {
    assert s.attempts[k].intent == k && StatusOk(s, k);
    OnlyAttemptIsLatest(s, k);
    if answer.Some? {
      ApplyStatusKeepsCoupled(s.intents[k].status, s.attempts[k].status, answer.value.status);
    }
  }

  lemma SweepKeeps(s: Store, k: nat, answer: Option<ProviderResult>)
    requires DbOk(s) && k < |s.attempts| && Candidate(s.attempts[k])
    ensures DbOk(Sweep(s, k, answer)) && LeavesOthers(s, Sweep(s, k, answer))
  {
    SweepNeverRaises(s, k, answer);
    if Sweep(s, k, answer) != s {
      AcceptKeeps(s, k, answer.value.status, L.ReconciledAttempt(k), answer.value.fee);
    }
  }

  lemma FinishCreateKeeps(w: World, k: nat, status: AttemptStatus, reference: Option<string>)
    requires Inv(w)
    ensures Inv(Next(w, StepFinishCreate(k, status, reference)))
  {
    var s := w.db;
    if k in w.creating && !ReferenceTaken(s, k, reference) {
      var after := FinishCreate(s, k, k, status, reference);
      RestateKeeps(s, k, FirstIntentStatus(status), status, reference, after);
      forall r | r in w.refunding ensures ReadOk(after, r, w.refunding[r]) { assert ReadOk(s, r, w.refunding[r]); }
    }
  }

  lemma CancelKeeps(w: World, client: string, k: nat)
    requires Inv(w)
    ensures Inv(Next(w, StepCancel(client, k)))
  {
    var s := w.db;
    if MayCancel(s, client, k) {
      OnlyAttemptIsLatest(s, k);
      assert StatusOk(s, k);
      var after := Cancel(s, client, k);
      assert s.intents[k].(status := IntentStatus.Cancelled, refunded := 0)
             == s.intents[k].(status := IntentStatus.Cancelled);
      RestateKeeps(s, k, IntentStatus.Cancelled, AttemptStatus.Cancelled, s.attempts[k].reference, after);
      forall r | r in w.refunding ensures ReadOk(after, r, w.refunding[r]) { assert ReadOk(s, r, w.refunding[r]); }
    }
  }

  // --- Refunds -------------------------------------------------------------------------------------------

  /** A pending refund is active but not succeeded, so it has room under the active total. */
  lemma PendingHasRoom(refunds: seq<RefundRow>, r: nat)
    requires r < |refunds| && refunds[r].status == RefundStatus.Pending
    requires forall k :: 0 <= k < |refunds| ==> 0 < refunds[k].amount
    ensures TotalSucceeded(refunds, refunds[r].intent) + refunds[r].amount <= TotalActive(refunds, refunds[r].intent)
  {
    var i, done := refunds[r].intent, refunds[r].(status := RefundStatus.Succeeded);
    SumUpdate(refunds, r, done, SucceededAmount(i));
    SumUpdate(refunds, r, done, ActiveAmount(i));
    SumBelow(refunds[r := done], SucceededAmount(i), ActiveAmount(i));
  }

  lemma SucceededNotNegative(s: Store, i: nat)
    requires DbOk(s)
    ensures 0 <= TotalSucceeded(s.refunds, i) <= TotalActive(s.refunds, i)
  {
    forall r | 0 <= r < |s.refunds|
      ensures 0 <= SucceededAmount(i)(s.refunds[r]) <= ActiveAmount(i)(s.refunds[r])
    {
      assert RefundRowOk(s, s.refunds[r]);
    }
    SumBelow(s.refunds, SucceededAmount(i), ActiveAmount(i));
    SumBelow(s.refunds, (_: RefundRow) => 0, SucceededAmount(i));
    SumZero(s.refunds, (_: RefundRow) => 0);
  }

  /** A reservation adds a pending row, which has not succeeded. */
  lemma ReservedRow(s: Store, c: RefundCommand)
    requires DbOk(s) && RefundOutcomeOf(s, c).Reserved?
    ensures c.intent < |s.intents| && IsCaptured(s, c.intent)
    ensures var row := RefundRow(c.intent, c.intent, c.client, c.key, c.fingerprint, c.amount, RefundStatus.Pending);
            ReserveRefund(s, c) == s.(refunds := s.refunds + [row])
    ensures forall k: nat :: TotalSucceeded(ReserveRefund(s, c).refunds, k) == TotalSucceeded(s.refunds, k)
    ensures forall k: nat :: TotalActive(ReserveRefund(s, c).refunds, k)
                             == TotalActive(s.refunds, k) + (if k == c.intent then c.amount else 0)
  {
    OnlyAttemptIsLatest(s, c.intent);
    var row := RefundRow(c.intent, c.intent, c.client, c.key, c.fingerprint, c.amount, RefundStatus.Pending);
    forall k: nat
      ensures TotalSucceeded(s.refunds + [row], k) == TotalSucceeded(s.refunds, k)
      ensures TotalActive(s.refunds + [row], k) == TotalActive(s.refunds, k) + (if k == c.intent then c.amount else 0)
    {
      SumAppend(s.refunds, row, ActiveAmount(k));
      SumAppend(s.refunds, row, SucceededAmount(k));
    }
  }

  lemma ReserveKeeps(w: World, c: RefundCommand)
    requires Inv(w)
    ensures Inv(Next(w, StepReserve(c)))
  {
    var s, after := w.db, ReserveRefund(w.db, c);
    if RefundOutcomeOf(s, c).Reserved? {
      ReservedRow(s, c);
      forall k | 0 <= k < |s.intents| ensures StatusOk(after, k) && RefundsFit(after, k) {
        assert StatusOk(s, k) && RefundsFit(s, k);
      }
      forall r | 0 <= r < |after.refunds| ensures RefundRowOk(after, after.refunds[r]) {
        if r < |s.refunds| { assert RefundRowOk(s, s.refunds[r]); }
      }
      ReserveKeepsReads(w, c);
    }
  }

  lemma ReserveKeepsReads(w: World, c: RefundCommand)
    requires Inv(w) && RefundOutcomeOf(w.db, c).Reserved?
    ensures ReadsOk(Next(w, StepReserve(c)))
  {
    var s, after := w.db, Next(w, StepReserve(c));
    ReservedRow(s, c);
    forall r | r in after.refunding ensures ReadOk(after.db, r, after.refunding[r]) {
      if r == |s.refunds| {
        assert StatusOk(s, c.intent) && RefundsFit(s, c.intent);
      } else {
        assert ReadOk(s, r, w.refunding[r]);
      }
    }
  }

  /** The reservation makes the completing refund fit: applying it to the intent as it was read never
      raises, however many other refunds of the same intent are in progress. */
  lemma ReservationMakesRefundFit(w: World, r: nat)
    requires Inv(w) && r in w.refunding
    ensures RefundFits(w.refunding[r], w.db.refunds[r].amount)
  {
    var s := w.db;
    var i := s.refunds[r].intent;
    assert ReadOk(s, r, w.refunding[r]) && RefundsFit(s, i);
    forall k | 0 <= k < |s.refunds| ensures 0 < s.refunds[k].amount { assert RefundRowOk(s, s.refunds[k]); }
    PendingHasRoom(s.refunds, r);
  }

  lemma FinishRefundTotals(s: Store, r: nat, status: RefundStatus, k: nat)
    requires r < |s.refunds| && s.refunds[r].status == RefundStatus.Pending && 0 < s.refunds[r].amount
    ensures var after := s.refunds[r := s.refunds[r].(status := status)];
            && TotalActive(after, k) <= TotalActive(s.refunds, k)
            && TotalSucceeded(after, k) == TotalSucceeded(s.refunds, k)
               + (if s.refunds[r].intent == k && status == RefundStatus.Succeeded then s.refunds[r].amount else 0)
  {
    SumUpdate(s.refunds, r, s.refunds[r].(status := status), ActiveAmount(k));
    SumUpdate(s.refunds, r, s.refunds[r].(status := status), SucceededAmount(k));
  }

  /** The tables after a refund's second commit, before the refund is journalled. */
  function Completed(s: Store, r: nat, read: IntentRow, status: RefundStatus): Store
    requires r < |s.refunds| && s.refunds[r].intent < |s.intents|
  {
    var row := s.refunds[r];
    var to := if status == RefundStatus.Succeeded then WithRefund(read, row.amount) else s.intents[row.intent];
    s.(refunds := s.refunds[r := row.(status := status)],
       intents := s.intents[row.intent := s.intents[row.intent].(status := to.status, refunded := to.refunded)])
  }

  lemma CompletedKeeps(w: World, r: nat, status: RefundStatus)
    requires Inv(w) && r in w.refunding
    ensures DbOk(Completed(w.db, r, w.refunding[r], status))
  {
    var s, read := w.db, w.refunding[r];
    assert ReadOk(s, r, read) && RefundRowOk(s, s.refunds[r]);
    var after, i := Completed(s, r, read, status), s.refunds[r].intent;
    if status == RefundStatus.Succeeded {
      ReservationMakesRefundFit(w, r);
      WithRefundShowsRefunded(read, s.refunds[r].amount);
    }
    forall k | 0 <= k < |s.intents| ensures StatusOk(after, k) && RefundsFit(after, k) {
      assert StatusOk(s, k) && RefundsFit(s, k);
      FinishRefundTotals(s, r, status, k);
    }
    forall k | 0 <= k < |s.refunds| ensures RefundRowOk(after, after.refunds[k]) {
      assert RefundRowOk(s, s.refunds[k]);
    }
  }

  function RefundPosting(s: Store, r: nat, read: IntentRow): L.Posting
    requires r < |s.refunds| && s.refunds[r].attempt < |s.attempts|
  {
    var row := s.refunds[r];
    L.PostRefund(row.intent, read.client, s.attempts[row.attempt].processor, L.RefundOf(r), row.amount, read.currency)
  }

  /** A completion is the changed tables, with the journal of the refund if it succeeded. */
  lemma FinishedIsCompleted(w: World, r: nat, answer: Option<RefundStatus>)
    requires Inv(w) && r in w.refunding
    ensures ReadOk(w.db, r, w.refunding[r]) && RefundRowOk(w.db, w.db.refunds[r])
    ensures var s, read, status := w.db, w.refunding[r], RefundStatusAfter(answer);
            var after := Completed(s, r, read, status);
            && Next(w, StepFinishRefund(r, answer)).refunding == w.refunding - {r}
            && Next(w, StepFinishRefund(r, answer)).creating == w.creating
            && Next(w, StepFinishRefund(r, answer)).db
               == if status == RefundStatus.Succeeded
                  then after.(ledger := L.Book(s.ledger, RefundPosting(s, r, read))) else after
  {
    var s, read, status := w.db, w.refunding[r], RefundStatusAfter(answer);
    assert ReadOk(s, r, read) && RefundRowOk(s, s.refunds[r]);
    if status == RefundStatus.Succeeded {
      ReservationMakesRefundFit(w, r);
    } else {
      assert Completed(s, r, read, status).intents == s.intents;
    }
  }

  lemma FinishRefundKeeps(w: World, r: nat, answer: Option<RefundStatus>)
    requires Inv(w) && r in w.refunding
    ensures Inv(Next(w, StepFinishRefund(r, answer)))
  {
    var s, read, status := w.db, w.refunding[r], RefundStatusAfter(answer);
    var final := Next(w, StepFinishRefund(r, answer)).db;
    FinishedIsCompleted(w, r, answer);
    CompletedKeeps(w, r, status);
    PostingKeeps(Completed(s, r, read, status), RefundPosting(s, r, read));
    forall k | k in w.refunding && k != r ensures ReadOk(final, k, w.refunding[k]) {
      assert ReadOk(s, k, w.refunding[k]);
      FinishRefundTotals(s, r, status, s.refunds[k].intent);
    }
  }

  lemma SettleKeeps(w: World, k: nat, name: string, amount: int)
    requires Inv(w)
    ensures Inv(Next(w, StepSettle(k, name, amount)))
  {
    var s := w.db;
    var attempt := LatestAttempt(s.attempts, k, false);
    if k < |s.intents| && attempt.Some? && L.SettlementFits(s.ledger, k, amount) {
      PostingKeeps(s, L.PostSettlement(k, s.attempts[attempt.value].processor, L.SettlementOf(name), amount,
                                       s.intents[k].currency));
      InvFromDb(w, Settle(s, k, name, amount));
    }
  }

  // --- Every run ---------------------------------------------------------------------------------------------

  lemma NextKeeps(w: World, step: Step)
    requires Inv(w)
    ensures Inv(Next(w, step))
  {
    match step
    case StepStartCreate(c) => StartCreateKeeps(w, c);
    case StepFinishCreate(k, status, reference) => FinishCreateKeeps(w, k, status, reference);
    case StepAbandonCreate(k) =>
    case StepCancel(client, k) => CancelKeeps(w, client, k);
    case StepReceive(id) =>
      ReceiveKeeps(w.db, id);
      InvFromDb(w, ReceiveEvent(w.db, id));
    case StepApply(id, r) =>
      ApplyEventKeeps(w.db, id, r);
      InvFromDb(w, ApplyEvent(w.db, id, r));
    case StepProcess(id, r) => ProcessKeeps(w, id, r);
    case StepSweep(k, answer) =>
      if k < |w.db.attempts| && Candidate(w.db.attempts[k]) {
        SweepKeeps(w.db, k, answer);
        InvFromDb(w, Sweep(w.db, k, answer));
      }
    case StepReserve(c) => ReserveKeeps(w, c);
    case StepFinishRefund(r, answer) => if r in w.refunding { FinishRefundKeeps(w, r, answer); }
    case StepAbandonRefund(r) =>
    case StepSettle(k, name, amount) => SettleKeeps(w, k, name, amount);
  }

  lemma ProcessKeeps(w: World, id: EventId, r: ProviderResult)
    requires Inv(w)
    ensures Inv(Next(w, StepProcess(id, r)))
  {
    if !Closed(w.db, id) {
      var received := ReceiveEvent(w.db, id);
      ReceiveKeeps(w.db, id);
      InvFromDb(w, received);
      ApplyEventKeeps(received, id, r);
      InvFromDb(w.(db := received), ApplyEvent(received, id, r));
    }
  }

  lemma {:induction false} RunKeeps(w: World, steps: seq<Step>)
    requires Inv(w)
    ensures Inv(Run(w, steps))
    decreases |steps|
  {
    if steps != [] {
      NextKeeps(w, steps[0]);
      RunKeeps(Next(w, steps[0]), steps[1..]);
    }
  }

  lemma StartIsOk()
    ensures Inv(START)
  {
    L.EveryRunIsSound([]);
  }

  lemma Reachable(steps: seq<Step>)
    ensures Inv(Run(START, steps))
  {
    StartIsOk();
    RunKeeps(START, steps);
  }
}
