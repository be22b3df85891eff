/** The payment use cases: they load rows into entities, change the entities and save them. Each method
    is one or more committed steps of PaymentStore. */
module PaymentUseCases {
  import opened Options
  import opened PaymentEntities
  import opened PaymentStore
  import L = FinancialLedger

  /** A reported status applied to a loaded intent and attempt. */
  method ApplyReported(intent: PaymentIntent, attempt: PaymentAttempt, latest: bool, reported: Option<AttemptStatus>)
    returns (ok: bool)
    modifies intent, attempt`status
    ensures ok <==> ApplyStatus(old(intent.status), old(attempt.status), latest, reported).Some?
    ensures ok ==> (intent.status, attempt.status)
                   == ApplyStatus(old(intent.status), old(attempt.status), latest, reported).value
    ensures intent.refunded == old(intent.refunded)
  {
    if reported.None? || reported.value == attempt.status {
      return true;
    }
    if reported.value == AttemptStatus.Succeeded {
      ok := attempt.TransitionTo(AttemptStatus.Succeeded);
      if !ok { return; }
      if intent.status == IntentStatus.Failed {
        ok := intent.TransitionTo(IntentStatus.Processing);
      }
      if intent.status != IntentStatus.Succeeded {
        ok := intent.TransitionTo(IntentStatus.Succeeded);
      }
      return;
    }
    if reported.value == AttemptStatus.Failed {
      if attempt.status != AttemptStatus.Succeeded && attempt.status != AttemptStatus.Failed
         && attempt.status != AttemptStatus.Cancelled {
        ok := attempt.TransitionTo(AttemptStatus.Failed);
        if latest && (intent.status == IntentStatus.Processing || intent.status == IntentStatus.RequiresAction) {
          ok := intent.TransitionTo(IntentStatus.Failed);
        }
      }
      return true;
    }
    if reported.value == AttemptStatus.Processing
       && (attempt.status == AttemptStatus.Pending || attempt.status == AttemptStatus.RequiresAction
           || attempt.status == AttemptStatus.Unknown) {
      ok := attempt.TransitionTo(AttemptStatus.Processing);
      if intent.status == IntentStatus.RequiresAction {
        ok := intent.TransitionTo(IntentStatus.Processing);
      }
    }
    return true;
  }

  /** How many swept attempts ended in each way. */
  datatype Tally = Tally(succeeded: nat, failed: nat, pending: nat, mismatched: nat)

  function Counted(t: Tally, outcome: SweepOutcome): Tally {
    match outcome
    case SweptSucceeded => t.(succeeded := t.succeeded + 1)
    case SweptFailed => t.(failed := t.failed + 1)
    case SweptPending => t.(pending := t.pending + 1)
    case SweptMismatched => t.(mismatched := t.mismatched + 1)
    case Raised => t
  }

  /** The tables after sweeping the first attempts of a list with the answers given for them. */
  function SweepAll(s: Store, candidates: seq<nat>, answers: seq<Option<ProviderResult>>): Store
    requires |answers| == |candidates| && forall k :: 0 <= k < |candidates| ==> candidates[k] < |s.attempts|
    ensures |SweepAll(s, candidates, answers).attempts| == |s.attempts|
  {
    if candidates == [] then s else
      var n := |candidates| - 1;
      Sweep(SweepAll(s, candidates[..n], answers[..n]), candidates[n], answers[n])
  }

  function TallyOf(s: Store, candidates: seq<nat>, answers: seq<Option<ProviderResult>>): Tally
    requires |answers| == |candidates| && forall k :: 0 <= k < |candidates| ==> candidates[k] < |s.attempts|
  {
    if candidates == [] then Tally(0, 0, 0, 0) else
      var n := |candidates| - 1;
      Counted(TallyOf(s, candidates[..n], answers[..n]),
              SweepOutcomeOf(SweepAll(s, candidates[..n], answers[..n]), candidates[n], answers[n]))
  }

  class PaymentService {
    var intents: seq<IntentRow>
    var attempts: seq<AttemptRow>
    var events: map<EventId, EventStatus>
    var refunds: seq<RefundRow>
    var outbox: seq<SuccessRow>
    const ledger: L.LedgerTable

    constructor ()
      ensures Db() == EMPTY_STORE && fresh(ledger)
    {
      intents, attempts, events, refunds, outbox := [], [], map[], [], [];
      ledger := new L.LedgerTable();
    }

    function Db(): Store
      reads this, ledger
    {
      Store(intents, attempts, events, refunds, outbox, ledger.Value())
    }

    // --- Creating and cancelling -----------------------------------------------------------------

    /** Up to the first commit. A started creation hands on the two objects it built. */
    method BeginCreate(c: CreateCommand)
      returns (outcome: CreateOutcome, intent: PaymentIntent?, attempt: PaymentAttempt?)
      modifies this
      ensures outcome == CreateOutcomeOf(old(Db()), c)
      ensures Db() == StartCreate(old(Db()), c)
      ensures outcome.Started? ==>
        intent != null && attempt != null && fresh(intent) && fresh(attempt)
        && intent.Row() == NewIntent(c) && attempt.Row() == NewAttempt(c, outcome.intent)
    {
      intent, attempt := null, null;
      var existing := FindIntent(intents, c.client, c.key);
      if existing.Some? {
        outcome := if intents[existing.value].fingerprint != c.fingerprint then Conflict else Existing(existing.value);
        return;
      }
      if c.amount <= 0 {
        outcome := InvalidAmount;
        return;
      }
      outcome := Started(|intents|, |attempts|);
      intent := new PaymentIntent(NewIntent(c));
      attempt := new PaymentAttempt(NewAttempt(c, |intents|));
      intents := intents + [intent.Row()];
      attempts := attempts + [attempt.Row()];
    }

    /** From the provider's answer to the second commit. False when the store refuses the reference. */
    method EndCreate(intentId: nat, attemptId: nat, intent: PaymentIntent, attempt: PaymentAttempt,
                     status: AttemptStatus, reference: Option<string>) returns (ok: bool)
      requires intentId < |intents| && attemptId < |attempts|
      requires intent.status == IntentStatus.Processing && intent.refunded == 0
      requires attempt.status == AttemptStatus.Pending
      modifies this, intent, attempt
      ensures ok <==> !ReferenceTaken(old(Db()), attemptId, reference)
      ensures Db() == FinishCreate(old(Db()), intentId, attemptId, status, reference)
    {
      attempt.reference := reference;
      var moved := attempt.TransitionTo(status);
      assert moved;
      match status {
        case RequiresAction => moved := intent.TransitionTo(IntentStatus.RequiresAction);
        case Succeeded => moved := intent.TransitionTo(IntentStatus.Succeeded);
        case Failed => moved := intent.TransitionTo(IntentStatus.Failed);
        case Cancelled => moved := intent.TransitionTo(IntentStatus.Cancelled);
        case _ =>
      }
      if reference.Some?
         && exists k :: 0 <= k < |attempts| && k != attemptId
                        && HasReference(attempts[k], attempts[attemptId].processor, reference.value) {
        return false;
      }
      intents := intents[intentId := intents[intentId].(status := intent.status, refunded := intent.refunded)];
      attempts := attempts[attemptId := attempts[attemptId].(status := attempt.status, reference := attempt.reference)];
      return true;
    }

    method CancelPayment(client: string, intentId: nat) returns (ok: bool)
      modifies this
      ensures ok <==> MayCancel(old(Db()), client, intentId)
      ensures Db() == Cancel(old(Db()), client, intentId)
    {
      if intentId >= |intents| || intents[intentId].client != client {
        return false;
      }
      var latest := LatestAttempt(attempts, intentId, false);
      if latest.None? || attempts[latest.value].status != AttemptStatus.Pending
         || attempts[latest.value].reference.Some? {
        return false;
      }
      var attempt := new PaymentAttempt(attempts[latest.value]);
      var intent := new PaymentIntent(intents[intentId]);
      ok := attempt.TransitionTo(AttemptStatus.Cancelled);
      ok := intent.TransitionTo(IntentStatus.Cancelled);
      if ok {
        attempts := attempts[latest.value := attempt.Row()];
        intents := intents[intentId := intent.Row()];
      }
    }

    // --- Provider results ---------------------------------------------------------------------------

    method RecordPaymentSuccess(attemptId: nat, intent: PaymentIntent, reference: L.Reference, fee: int)
      requires attemptId < |attempts| && attempts[attemptId].intent < |intents|
      requires intent.Row() == intents[attempts[attemptId].intent]
      modifies this`outbox, ledger
      ensures Db() == RecordSuccess(old(Db()), attemptId, reference, fee)
    {
      var i := attempts[attemptId].intent;
      outbox := outbox + [SuccessRow(i, intent.loaded.client, reference, intent.loaded.amount, intent.loaded.currency)];
      ledger.RecordCapture(i, intent.loaded.client, attempts[attemptId].processor, reference,
                           intent.loaded.amount, intent.loaded.currency, fee);
    }

    /** Loads an attempt and its intent, applies the status and saves both, with the effect of a
        first success. False when a transition is refused; nothing is saved then. */
    method AcceptStatus(attemptId: nat, reported: Option<AttemptStatus>, reference: L.Reference, fee: int)
      returns (ok: bool)
      requires attemptId < |attempts| && attempts[attemptId].intent < |intents|
      modifies this`intents, this`attempts, this`outbox, ledger
      ensures ok <==> StatusesAfter(old(Db()), attemptId, reported).Some?
      ensures Db() == if ok then Accept(old(Db()), attemptId, reported, reference, fee) else old(Db())
    {
      var intentId := attempts[attemptId].intent;
      var attempt := new PaymentAttempt(attempts[attemptId]);
      var intent := new PaymentIntent(intents[intentId]);
      var wasSucceeded := intent.status == IntentStatus.Succeeded;
      var latest := LatestAttempt(attempts, intentId, false) == Some(attemptId);
      ok := ApplyReported(intent, attempt, latest, reported);
      if !ok {
        return;
      }
      attempts := attempts[attemptId := attempt.Row()];
      intents := intents[intentId := intent.Row()];
      if reported == Some(AttemptStatus.Succeeded) && !wasSucceeded {
        RecordPaymentSuccess(attemptId, intent, reference, fee);
      }
    }

    /** A whole webhook: duplicate, inbox commit, then the change and its verdict. */
    method ProcessWebhook(id: EventId, r: ProviderResult) returns (duplicate: bool)
      modifies this, ledger
      ensures duplicate <==> Closed(old(Db()), id)
      ensures Db() == ProcessEvent(old(Db()), id, r)
    {
      if id in events && (events[id].Processed? || events[id].Ignored?) {
        return true;
      }
      if id !in events {
        events := events[id := Received];
      }
      HandleEvent(id, r);
      return false;
    }

    method HandleEvent(id: EventId, r: ProviderResult)
      modifies this, ledger
      ensures Db() == ApplyEvent(old(Db()), id, r)
    {
      if !Given(r.reference) {
        events := events[id := Ignored];
        return;
      }
      var found := FindAttempt(attempts, id.processor, r.reference.value);
      if found.None? {
        events := events[id := Ignored];
        return;
      }
      var attemptId := found.value;
      if attempts[attemptId].intent >= |intents| || AmountMismatch(attempts[attemptId], r) {
        events := events[id := Rejected];
        return;
      }
      var ok := AcceptStatus(attemptId, r.status, L.ProviderEvent(id.key), r.fee);
      events := events[id := if ok then Processed else Rejected];
    }

    /** One attempt of a reconciliation sweep. */
    method SweepAttempt(attemptId: nat, answer: Option<ProviderResult>) returns (outcome: SweepOutcome)
      requires attemptId < |attempts|
      modifies this`intents, this`attempts, this`outbox, ledger
      ensures outcome == SweepOutcomeOf(old(Db()), attemptId, answer)
      ensures Db() == Sweep(old(Db()), attemptId, answer)
    {
      if answer.None? {
        return SweptPending;
      }
      if attempts[attemptId].intent >= |intents| {
        return SweptFailed;
      }
      var r := answer.value;
      if r.status == Some(AttemptStatus.Succeeded)
         && (r.reference != attempts[attemptId].reference || r.amount != Some(attempts[attemptId].amount)
             || r.currency != Some(attempts[attemptId].currency)) {
        return SweptMismatched;
      }
      var ok := AcceptStatus(attemptId, r.status, L.ReconciledAttempt(attemptId), r.fee);
      if !ok {
        return Raised;
      }
      if r.status == Some(AttemptStatus.Succeeded) {
        return SweptSucceeded;
      }
      return if r.status == Some(AttemptStatus.Failed) then SweptFailed else SweptPending;
    }

    /** A whole sweep. It stops where a transition is refused. */
    method RunSweep(candidates: seq<nat>, answers: seq<Option<ProviderResult>>) returns (tally: Tally, completed: bool)
      requires |answers| == |candidates|
      requires forall k :: 0 <= k < |candidates| ==> candidates[k] < |attempts|
      modifies this`intents, this`attempts, this`outbox, ledger
      ensures completed ==>
        && tally == TallyOf(old(Db()), candidates, answers)
        && tally.succeeded + tally.failed + tally.pending + tally.mismatched == |candidates|
        && Db() == SweepAll(old(Db()), candidates, answers)
      ensures !completed ==>
        (exists k :: 0 <= k < |candidates|
                     && Db() == SweepAll(old(Db()), candidates[..k], answers[..k])
                     && SweepOutcomeOf(Db(), candidates[k], answers[k]).Raised?
                     && tally == TallyOf(old(Db()), candidates[..k], answers[..k]))
    {
      tally := Tally(0, 0, 0, 0);
      var start := Db();
      for k := 0 to |candidates|
        invariant |attempts| == |start.attempts|
        invariant Db() == SweepAll(start, candidates[..k], answers[..k])
        invariant tally == TallyOf(start, candidates[..k], answers[..k])
        invariant tally.succeeded + tally.failed + tally.pending + tally.mismatched == k
      {
        assert candidates[..k + 1][..k] == candidates[..k] && answers[..k + 1][..k] == answers[..k];
        var outcome := SweepAttempt(candidates[k], answers[k]);
        if outcome.Raised? {
          return tally, false;
        }
        tally := Counted(tally, outcome);
      }
      assert candidates[..|candidates|] == candidates && answers[..|candidates|] == answers;
      completed := true;
    }

    // --- Refunds and settlements -----------------------------------------------------------------------

    /** Up to the first commit. A reserved refund hands on its own object and the intent it read. */
    method BeginRefund(c: RefundCommand) returns (outcome: RefundOutcome, refund: Refund?, intent: PaymentIntent?)
      modifies this
      ensures outcome == RefundOutcomeOf(old(Db()), c)
      ensures Db() == ReserveRefund(old(Db()), c)
      ensures outcome.Reserved? ==>
        && refund != null && intent != null && fresh(refund) && fresh(intent)
        && outcome.refund < |refunds| && refund.Row() == refunds[outcome.refund]
        && c.intent < |intents| && intent.Row() == intents[c.intent]
    {
      refund, intent := null, null;
      var existing := FindRefund(refunds, c.client, c.key);
      if existing.Some? {
        outcome := if refunds[existing.value].fingerprint != c.fingerprint then RefundConflict
                   else RefundExists(existing.value);
        return;
      }
      if c.intent >= |intents| || intents[c.intent].client != c.client {
        outcome := PaymentNotFound;
        return;
      }
      intent := new PaymentIntent(intents[c.intent]);
      if intent.status != IntentStatus.Succeeded && intent.status != IntentStatus.PartiallyRefunded {
        outcome := NotRefundable;
        return;
      }
      var attempt := LatestAttempt(attempts, c.intent, true);
      if attempt.None? || !Given(attempts[attempt.value].reference) {
        outcome := AttemptMissing;
        return;
      }
      if c.amount <= 0 || TotalActive(refunds, c.intent) + c.amount > intent.loaded.amount {
        outcome := ExceedsCaptured;
        return;
      }
      refund := new Refund(
        RefundRow(c.intent, attempt.value, c.client, c.key, c.fingerprint, c.amount, RefundStatus.Pending));
      outcome := Reserved(|refunds|);
      refunds := refunds + [refund.Row()];
    }

    /** From the provider's answer to the second commit, on the objects of the first half. False when
        the refund no longer fits the intent as it was read; nothing is saved then. */
    method EndRefund(refundId: nat, refund: Refund, intent: PaymentIntent, answer: Option<RefundStatus>)
      returns (ok: bool)
      requires refundId < |refunds| && refund.Row() == refunds[refundId] && refund.status == RefundStatus.Pending
      requires refund.loaded.intent < |intents| && refund.loaded.attempt < |attempts|
      modifies this, ledger, refund, intent
      ensures ok <==> RefundStatusAfter(answer) == RefundStatus.Succeeded
                      ==> RefundFits(old(intent.Row()), old(refund.Row()).amount)
      ensures Db() == FinishRefund(old(Db()), refundId, old(intent.Row()), answer)
    {
      var moved := refund.TransitionTo(match answer case None => RefundStatus.Processing case Some(status) => status);
      assert moved;
      if refund.status == RefundStatus.Succeeded {
        ok := intent.ApplyRefund(refund.loaded.amount);
        if !ok {
          return;
        }
        var i := refund.loaded.intent;
        intents := intents[i := intents[i].(status := intent.status, refunded := intent.refunded)];
        ledger.RecordRefund(i, intent.loaded.client, attempts[refund.loaded.attempt].processor, refundId,
                            refund.loaded.amount, intent.loaded.currency);
      }
      refunds := refunds[refundId := refund.Row()];
      return true;
    }

    method RecordSettlement(intentId: nat, name: string, amount: int) returns (ok: bool)
      modifies ledger
      ensures ok <==> intentId < |intents| && LatestAttempt(attempts, intentId, false).Some?
                      && L.SettlementFits(old(ledger.Value()), intentId, amount)
      ensures Db() == Settle(old(Db()), intentId, name, amount)
    {
      if intentId >= |intents| {
        return false;
      }
      var latest := LatestAttempt(attempts, intentId, false);
      if latest.None? {
        return false;
      }
      ok := ledger.RecordSettlement(intentId, attempts[latest.value].processor, name, amount,
                                    intents[intentId].currency);
    }
  }
}
