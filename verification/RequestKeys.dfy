/** A client's idempotency key names one payment and one refund: whatever runs, no two rows share a client and a key,
    and a repeated request is answered by the row of its own fingerprint or refused. */
module RequestKeys {
  import opened Options
  import opened PaymentEntities
  import opened PaymentStore
  import opened PaymentSafety
  import L = FinancialLedger

  predicate UniqueIntents(intents: seq<IntentRow>) {
    forall a, b :: 0 <= a < b < |intents| ==>
      !(intents[a].client == intents[b].client && intents[a].key == intents[b].key)
  }

  predicate UniqueRefunds(refunds: seq<RefundRow>) {
    forall a, b :: 0 <= a < b < |refunds| ==>
      !(refunds[a].client == refunds[b].client && refunds[a].key == refunds[b].key)
  }

  predicate Unique(s: Store) { UniqueIntents(s.intents) && UniqueRefunds(s.refunds) }

  /** The same rows under the same keys, asked for with the same fingerprints. */
  predicate SameRequests(s: Store, after: Store) {
    && |after.intents| == |s.intents| && |after.refunds| == |s.refunds|
    && (forall k :: 0 <= k < |s.intents| ==>
          && after.intents[k].client == s.intents[k].client && after.intents[k].key == s.intents[k].key
          && after.intents[k].fingerprint == s.intents[k].fingerprint)
    && (forall r :: 0 <= r < |s.refunds| ==>
          && after.refunds[r].client == s.refunds[r].client && after.refunds[r].key == s.refunds[r].key
          && after.refunds[r].fingerprint == s.refunds[r].fingerprint)
  }

  lemma AcceptKeepsRequests(s: Store, k: nat, reported: Option<AttemptStatus>, reference: L.Reference, fee: int)
    requires k < |s.attempts| && s.attempts[k].intent < |s.intents| && StatusesAfter(s, k, reported).Some?
    ensures SameRequests(s, Accept(s, k, reported, reference, fee))
  {
  }

  lemma EventKeepsRequests(s: Store, id: EventId, r: ProviderResult)
    ensures SameRequests(s, ApplyEvent(s, id, r))
  {
    if EventVerdict(s, id, r).Processed? {
      var k := FindAttempt(s.attempts, id.processor, r.reference.value).value;
      AcceptKeepsRequests(s, k, r.status, L.ProviderEvent(id.key), r.fee);
    }
  }

  lemma SweepKeepsRequests(s: Store, k: nat, answer: Option<ProviderResult>)
    requires k < |s.attempts|
    ensures SameRequests(s, Sweep(s, k, answer))
  {
    if Sweep(s, k, answer) != s {
      AcceptKeepsRequests(s, k, answer.value.status, L.ReconciledAttempt(k), answer.value.fee);
    }
  }

  lemma FinishRefundKeepsRequests(w: World, r: nat, answer: Option<RefundStatus>)
    requires Inv(w) && r in w.refunding
    ensures SameRequests(w.db, Next(w, StepFinishRefund(r, answer)).db)
  {
    FinishedIsCompleted(w, r, answer);
  }

  lemma StartCreateKeepsUnique(s: Store, c: CreateCommand)
    requires Unique(s)
    ensures Unique(StartCreate(s, c))
  {
  }

  lemma ReserveKeepsUnique(s: Store, c: RefundCommand)
    requires Unique(s)
    ensures Unique(ReserveRefund(s, c))
  {
  }

  lemma OtherStepKeepsRequests(w: World, step: Step)
    requires Inv(w) && !step.StepStartCreate? && !step.StepReserve?
    ensures SameRequests(w.db, Next(w, step).db)
  {
    match step
    case StepApply(id, r) => EventKeepsRequests(w.db, id, r);
    case StepProcess(id, r) => EventKeepsRequests(ReceiveEvent(w.db, id), id, r);
    case StepSweep(k, answer) => if k < |w.db.attempts| { SweepKeepsRequests(w.db, k, answer); }
    case StepFinishRefund(r, answer) => if r in w.refunding { FinishRefundKeepsRequests(w, r, answer); }
    case _ =>
  }

  lemma SameRequestsKeepUnique(s: Store, after: Store)
    requires Unique(s) && SameRequests(s, after)
    ensures Unique(after)
  {
  }

  lemma NextKeepsUnique(w: World, step: Step)
    requires Inv(w) && Unique(w.db)
    ensures Unique(Next(w, step).db)
  {
    match step
    case StepStartCreate(c) => StartCreateKeepsUnique(w.db, c);
    case StepReserve(c) => ReserveKeepsUnique(w.db, c);
    case _ =>
      OtherStepKeepsRequests(w, step);
      SameRequestsKeepUnique(w.db, Next(w, step).db);
  }

  lemma {:induction false} RunKeepsUnique(w: World, steps: seq<Step>)
    requires Inv(w) && Unique(w.db)
    ensures Unique(Run(w, steps).db)
    decreases |steps|
  {
    if steps != [] {
      NextKeepsUnique(w, steps[0]);
      NextKeeps(w, steps[0]);
      RunKeepsUnique(Next(w, steps[0]), steps[1..]);
    }
  }

  // --- Payments ----------------------------------------------------------------------------------------------

  /** In every run: a creation is answered with payment k exactly when k was asked for with the same client, key and
      fingerprint; a known key with another fingerprint is a conflict; and a new key starts a payment exactly when
      the amount is positive. */
  lemma CreateAnsweredIff(steps: seq<Step>, c: CreateCommand, k: nat)
    ensures var s := Run(START, steps).db;
            var outcome := CreateOutcomeOf(s, c);
            var known :=
              exists i :: 0 <= i < |s.intents| && s.intents[i].client == c.client && s.intents[i].key == c.key;
            && (outcome == CreateOutcome.Existing(k) <==>
                  && k < |s.intents| && s.intents[k].client == c.client && s.intents[k].key == c.key
                  && s.intents[k].fingerprint == c.fingerprint)
            && (outcome == CreateOutcome.Conflict <==>
                  exists i :: 0 <= i < |s.intents| && s.intents[i].client == c.client && s.intents[i].key == c.key
                              && s.intents[i].fingerprint != c.fingerprint)
            && (outcome == CreateOutcome.InvalidAmount <==> !known && c.amount <= 0)
            && (outcome.Started? <==> !known && c.amount > 0)
  {
    StartIsOk();
    RunKeepsUnique(START, steps);
    var s := Run(START, steps).db;
    var found := FindIntent(s.intents, c.client, c.key);
    if found.Some? { OnlyIntent(s, c.client, c.key, found.value); }
  }

  lemma OnlyIntent(s: Store, client: string, key: string, k: nat)
    requires Unique(s) && k < |s.intents| && s.intents[k].client == client && s.intents[k].key == key
    ensures forall i :: 0 <= i < |s.intents| && s.intents[i].client == client && s.intents[i].key == key ==> i == k
  {
  }

  // --- Refunds -------------------------------------------------------------------------------------------------

  /** The request names a captured payment of the client's own that its provider can refund, and an amount that fits
      what is not reserved yet. */
  predicate MayReserve(s: Store, c: RefundCommand) {
    && c.intent < |s.intents| && c.intent < |s.attempts| && s.intents[c.intent].client == c.client
    && s.intents[c.intent].status in {IntentStatus.Succeeded, IntentStatus.PartiallyRefunded}
    && s.attempts[c.intent].reference.Some? && s.attempts[c.intent].reference.value != ""
    && 0 < c.amount <= s.intents[c.intent].amount - TotalActive(s.refunds, c.intent)
  }

  /** In every run: a refund request is answered with refund r exactly when r was asked for with the same client, key
      and fingerprint; a known key with another fingerprint is a conflict; and a new key reserves exactly when the
      request may. */
  lemma RefundAnsweredIff(steps: seq<Step>, c: RefundCommand, r: nat)
    ensures var s := Run(START, steps).db;
            var outcome := RefundOutcomeOf(s, c);
            var known :=
              exists i :: 0 <= i < |s.refunds| && s.refunds[i].client == c.client && s.refunds[i].key == c.key;
            && (outcome == RefundExists(r) <==>
                  && r < |s.refunds| && s.refunds[r].client == c.client && s.refunds[r].key == c.key
                  && s.refunds[r].fingerprint == c.fingerprint)
            && (outcome == RefundConflict <==>
                  exists i :: 0 <= i < |s.refunds| && s.refunds[i].client == c.client && s.refunds[i].key == c.key
                              && s.refunds[i].fingerprint != c.fingerprint)
            && (outcome.Reserved? <==> !known && MayReserve(s, c))
  {
    StartIsOk();
    Reachable(steps);
    RunKeepsUnique(START, steps);
    var s := Run(START, steps).db;
    var found := FindRefund(s.refunds, c.client, c.key);
    if found.Some? {
      OnlyRefund(s, c.client, c.key, found.value);
    } else {
      ReservedIff(s, c);
    }
  }

  lemma OnlyRefund(s: Store, client: string, key: string, k: nat)
    requires Unique(s) && k < |s.refunds| && s.refunds[k].client == client && s.refunds[k].key == key
    ensures forall i :: 0 <= i < |s.refunds| && s.refunds[i].client == client && s.refunds[i].key == key ==> i == k
  {
  }

  /** Why a new refund request is refused: the payment first, then its status, its provider's reference, the amount. */
  lemma ReservedIff(s: Store, c: RefundCommand)
    requires DbOk(s) && FindRefund(s.refunds, c.client, c.key).None?
    ensures var outcome := RefundOutcomeOf(s, c);
            && (outcome.Reserved? <==> MayReserve(s, c))
            && (outcome == PaymentNotFound <==> c.intent >= |s.intents| || s.intents[c.intent].client != c.client)
            && (outcome == NotRefundable <==>
                  c.intent < |s.intents| && s.intents[c.intent].client == c.client
                  && s.intents[c.intent].status !in {IntentStatus.Succeeded, IntentStatus.PartiallyRefunded})
            && (outcome == ExceedsCaptured ==>
                  c.intent < |s.intents|
                  && !(0 < c.amount <= s.intents[c.intent].amount - TotalActive(s.refunds, c.intent)))
  {
    if c.intent < |s.intents| {
      OnlyAttemptIsLatest(s, c.intent);
      assert StatusOk(s, c.intent);
    }
  }
}
