/** Short runs from empty tables that show where the payment orchestration falls short of its promises. */
module PaymentExamples {
  import opened Options
  import opened Sums
  import opened PaymentEntities
  import opened PaymentStore
  import opened PaymentSafety
  import opened PaymentEffects
  import opened PaymentTheorems
  import opened RefundOverlap
  import Runs
  import L = FinancialLedger

  const ORDER := CreateCommand("shop", "order-1", "fp", 100, "XOF", "paystack")
  const PAID := IntentRow("shop", "order-1", "fp", 100, "XOF", IntentStatus.Succeeded, 0)
  const CHARGED := AttemptRow(0, "paystack", 100, "XOF", AttemptStatus.Succeeded, Some("ref"))
  const SUCCESS := ProviderResult(Some("ref"), Some(AttemptStatus.Succeeded), Some(100), Some("XOF"), 0)
  const FIRST := EventId("paystack", "e1")
  const SECOND := EventId("paystack", "e2")
  const KEYS: Directory := map["e1" := ("paystack", "ref"), "e2" := ("paystack", "ref")]

  const CREATED := [StepStartCreate(ORDER), StepFinishCreate(0, AttemptStatus.Processing, Some("ref"))]
  const PAYMENT := CREATED + [StepProcess(FIRST, SUCCESS)]

  function Asked(key: string, amount: int): RefundCommand { RefundCommand("shop", key, "fp", 0, amount) }

  function Waiting(key: string, amount: int): RefundRow {
    RefundRow(0, 0, "shop", key, "fp", amount, RefundStatus.Pending)
  }

  function Returned(key: string, amount: int): RefundRow { Waiting(key, amount).(status := RefundStatus.Succeeded) }

  function Shows(status: IntentStatus, refunded: int): IntentRow { PAID.(status := status, refunded := refunded) }

  lemma RunSnoc(w: World, steps: seq<Step>, step: Step)
    ensures Run(w, steps + [step]) == Next(Run(w, steps), step)
  {
    Runs.Snoc(Run, Next, w, steps, step);
  }

  lemma CreatedState()
    ensures var w := Run(START, CREATED);
            && w.db.intents == [Shows(IntentStatus.Processing, 0)]
            && w.db.attempts == [CHARGED.(status := AttemptStatus.Processing)]
            && w.db.refunds == [] && w.db.outbox == [] && w.db.events == map[] && w.db.ledger == L.EMPTY
            && w.refunding == map[]
  {
    RunSnoc(START, [], CREATED[0]);
    RunSnoc(START, [CREATED[0]], CREATED[1]);
    assert [] + [CREATED[0]] == [CREATED[0]] && [CREATED[0]] + [CREATED[1]] == CREATED;
    var w := Next(START, CREATED[0]);
    assert w.db.intents == [Shows(IntentStatus.Processing, 0)];
    assert w.creating == {0};
  }

  /** The payment after its first success: charged, recorded once. */
  lemma PaidState()
    ensures var w := Run(START, PAYMENT);
            && w.db.intents == [PAID] && w.db.attempts == [CHARGED] && w.db.refunds == [] && w.refunding == map[]
            && w.db.events == map[FIRST := Processed]
            && w.db.ledger.journals == [L.Journal(L.OfIntent(0), L.Capture, L.ProviderEvent("e1"), 100, "XOF")]
  {
    CreatedState();
    RunSnoc(START, CREATED, StepProcess(FIRST, SUCCESS));
    var s := ReceiveEvent(Run(START, CREATED).db, FIRST);
    assert HasReference(s.attempts[0], "paystack", "ref");
    assert FindAttempt(s.attempts, "paystack", "ref") == Some(0);
    assert LatestAttempt(s.attempts, 0, false) == Some(0);
    assert !L.Posted(s.ledger, L.Capture, L.ProviderEvent("e1"));
  }

  lemma ReservedState(w: World, refunds: seq<RefundRow>, key: string, amount: int)
    requires w.db.intents == [PAID] && w.db.attempts == [CHARGED] && w.db.refunds == refunds && 0 < amount
    requires forall i :: 0 <= i < |refunds| ==> refunds[i].key != key
    requires TotalActive(refunds, 0) + amount <= 100
    ensures var v := Next(w, StepReserve(Asked(key, amount)));
            && v.db == w.db.(refunds := refunds + [Waiting(key, amount)])
            && v.refunding == w.refunding[|refunds| := PAID]
  {
    assert FindRefund(refunds, "shop", key).None?;
    assert LatestAttempt([CHARGED], 0, true) == Some(0);
  }

  /** Completing a refund of part of the amount, on the copy that showed nothing given back. */
  lemma CompletedState(w: World, r: nat, key: string, amount: int)
    requires |w.db.intents| == 1 && w.db.intents[0] == Shows(w.db.intents[0].status, w.db.intents[0].refunded)
    requires w.db.attempts == [CHARGED] && r in w.refunding && w.refunding[r] == PAID
    requires r < |w.db.refunds| && w.db.refunds[r] == Waiting(key, amount) && 0 < amount < 100
    ensures var v := Next(w, StepFinishRefund(r, Some(RefundStatus.Succeeded)));
            var posting := L.PostRefund(0, "shop", "paystack", L.RefundOf(r), amount, "XOF");
            && v.db == w.db.(intents := [Shows(IntentStatus.PartiallyRefunded, amount)],
                             refunds := w.db.refunds[r := Returned(key, amount)],
                             ledger := L.Book(w.db.ledger, posting))
            && v.refunding == w.refunding - {r}
  {
  }

  /** The steps that overlap: both refunds are reserved before either is completed. */
  const OVERLAP := PAYMENT
                   + [StepReserve(Asked("a", 40))] + [StepReserve(Asked("b", 60))]
                   + [StepFinishRefund(0, Some(RefundStatus.Succeeded))]
                   + [StepFinishRefund(1, Some(RefundStatus.Succeeded))]

  lemma TwoReserved()
    ensures var w := Run(START, PAYMENT + [StepReserve(Asked("a", 40))] + [StepReserve(Asked("b", 60))]);
            && w.db.intents == [PAID] && w.db.attempts == [CHARGED]
            && w.db.refunds == [Waiting("a", 40), Waiting("b", 60)]
            && w.refunding == map[0 := PAID, 1 := PAID]
  {
    PaidState();
    RunSnoc(START, PAYMENT, StepReserve(Asked("a", 40)));
    RunSnoc(START, PAYMENT + [StepReserve(Asked("a", 40))], StepReserve(Asked("b", 60)));
    var w := Run(START, PAYMENT);
    ReservedState(w, [], "a", 40);
    var v := Next(w, StepReserve(Asked("a", 40)));
    assert [] + [Waiting("a", 40)] == [Waiting("a", 40)];
    SumAppend([], Waiting("a", 40), ActiveAmount(0));
    ReservedState(v, [Waiting("a", 40)], "b", 60);
  }

  lemma OverlapIsLegal()
    ensures AllLegal(KEYS, OVERLAP)
  {
  }

  /** Refunds of 40 and 60 that overlap give everything back, and the intent still shows 60. */
  lemma OverlapExample()
    ensures AllLegal(KEYS, OVERLAP)
    ensures var s := Run(START, OVERLAP).db;
            s.intents == [Shows(IntentStatus.PartiallyRefunded, 60)] && TotalSucceeded(s.refunds, 0) == 100
  {
    var first := StepFinishRefund(0, Some(RefundStatus.Succeeded));
    var second := StepFinishRefund(1, Some(RefundStatus.Succeeded));
    var both := PAYMENT + [StepReserve(Asked("a", 40))] + [StepReserve(Asked("b", 60))];
    OverlapIsLegal();
    TwoReserved();
    RunSnoc(START, both, first);
    RunSnoc(START, both + [first], second);
    BothCompleted(Run(START, both));
  }

  lemma BothCompleted(w: World)
    requires w.db.intents == [PAID] && w.db.attempts == [CHARGED]
    requires w.db.refunds == [Waiting("a", 40), Waiting("b", 60)] && w.refunding == map[0 := PAID, 1 := PAID]
    ensures var v := Next(w, StepFinishRefund(0, Some(RefundStatus.Succeeded)));
            var s := Next(v, StepFinishRefund(1, Some(RefundStatus.Succeeded))).db;
            s.intents == [Shows(IntentStatus.PartiallyRefunded, 60)] && TotalSucceeded(s.refunds, 0) == 100
  {
    CompletedState(w, 0, "a", 40);
    var v := Next(w, StepFinishRefund(0, Some(RefundStatus.Succeeded)));
    CompletedState(v, 1, "b", 60);
    assert [Waiting("a", 40), Waiting("b", 60)][0 := Returned("a", 40)][1 := Returned("b", 60)]
           == [Returned("a", 40), Returned("b", 60)];
    SumPair(Returned("a", 40), Returned("b", 60), SucceededAmount(0));
  }

  const REPEATED := REFUNDED + [StepProcess(SECOND, SUCCESS)]

  const REFUNDED := PAYMENT + [StepReserve(Asked("a", 40))] + [StepFinishRefund(0, Some(RefundStatus.Succeeded))]

  lemma PartlyRefunded()
    ensures var w, paid := Run(START, REFUNDED), Run(START, PAYMENT).db;
            && w.db.intents == [Shows(IntentStatus.PartiallyRefunded, 40)] && w.db.attempts == [CHARGED]
            && w.db.events == map[FIRST := Processed] && w.db.outbox == paid.outbox
            && w.db.ledger == L.Book(paid.ledger, L.PostRefund(0, "shop", "paystack", L.RefundOf(0), 40, "XOF"))
            && !L.Posted(w.db.ledger, L.Capture, L.ProviderEvent("e2"))
  {
    PaidState();
    RunSnoc(START, PAYMENT, StepReserve(Asked("a", 40)));
    RunSnoc(START, PAYMENT + [StepReserve(Asked("a", 40))], StepFinishRefund(0, Some(RefundStatus.Succeeded)));
    ReservedState(Run(START, PAYMENT), [], "a", 40);
    CompletedState(Run(START, PAYMENT + [StepReserve(Asked("a", 40))]), 0, "a", 40);
  }

  lemma PaidRecordedOnce()
    ensures var s := Run(START, PAYMENT).db; Successes(s, 0) == 1 && Captures(s, 0) == 1
  {
    PaidState();
    LegalReachable(KEYS, PAYMENT);
    assert EffectsOk(Run(START, PAYMENT).db, 0);
  }

  lemma RefundCountsNothing(paid: Store, s: Store)
    requires s.outbox == paid.outbox
    requires s.ledger == L.Book(paid.ledger, L.PostRefund(0, "shop", "paystack", L.RefundOf(0), 40, "XOF"))
    ensures Successes(s, 0) == Successes(paid, 0) && Captures(s, 0) == Captures(paid, 0)
  {
    OtherCountsNothing(paid.ledger, L.PostRefund(0, "shop", "paystack", L.RefundOf(0), 40, "XOF"), 0);
  }

  lemma RefundedRecordedOnce()
    ensures var s := Run(START, REFUNDED).db; Successes(s, 0) == 1 && Captures(s, 0) == 1
  {
    PaidRecordedOnce();
    PartlyRefunded();
    RefundCountsNothing(Run(START, PAYMENT).db, Run(START, REFUNDED).db);
  }

  lemma RepeatedIsLegal()
    ensures AllLegal(KEYS, REPEATED)
  {
  }

  /** Where the second success meets a payment that was charged, recorded once and partly refunded. */
  lemma SuccessAgain(w: World)
    requires Inv(w) && w.db.intents == [Shows(IntentStatus.PartiallyRefunded, 40)] && w.db.attempts == [CHARGED]
    requires w.db.events == map[FIRST := Processed] && !L.Posted(w.db.ledger, L.Capture, L.ProviderEvent("e2"))
    ensures var s, after := w.db, Next(w, StepProcess(SECOND, SUCCESS)).db;
            Successes(after, 0) == Successes(s, 0) + 1 && Captures(after, 0) == Captures(s, 0) + 1
  {
    assert HasReference(CHARGED, "paystack", "ref");
    assert FindAttempt([CHARGED], "paystack", "ref") == Some(0);
    assert LatestAttempt([CHARGED], 0, false) == Some(0);
    EffectRecordedIff(w, SECOND, SUCCESS, 0);
  }

  /** A success event with a new key that arrives after a partial refund queues a second
      `payment.succeeded` and captures the payment a second time. */
  lemma RepeatedSuccessExample()
    ensures AllLegal(KEYS, REPEATED)
    ensures var s := Run(START, REPEATED).db; Successes(s, 0) == 2 && Captures(s, 0) == 2
  {
    RepeatedIsLegal();
    PartlyRefunded();
    RefundedRecordedOnce();
    Reachable(REFUNDED);
    RunSnoc(START, REFUNDED, StepProcess(SECOND, SUCCESS));
    SuccessAgain(Run(START, REFUNDED));
  }

  const OPENED := CHARGED.(status := AttemptStatus.Pending, reference := None)

  lemma StartedState()
    ensures var w := Run(START, [StepStartCreate(ORDER)]);
            && w.db.intents == [Shows(IntentStatus.Processing, 0)] && w.db.attempts == [OPENED] && w.creating == {0}
  {
    RunSnoc(START, [], StepStartCreate(ORDER));
    assert [] + [StepStartCreate(ORDER)] == [StepStartCreate(ORDER)];
  }

  /** A payment cancelled between the two commits of its creation ends as if it had not been. */
  lemma CancelExample()
    ensures Run(START, [StepStartCreate(ORDER), StepCancel("shop", 0)]).db.intents
            == [Shows(IntentStatus.Cancelled, 0)]
    ensures Run(START, [StepStartCreate(ORDER), StepCancel("shop", 0), CREATED[1]]) == Run(START, CREATED)
  {
    var start, cancel := StepStartCreate(ORDER), StepCancel("shop", 0);
    RunSnoc(START, [start], cancel);
    RunSnoc(START, [start, cancel], CREATED[1]);
    RunSnoc(START, [start], CREATED[1]);
    assert [start] + [cancel] == [start, cancel];
    assert [start, cancel] + [CREATED[1]] == [start, cancel, CREATED[1]] && [start] + [CREATED[1]] == CREATED;
    StartedState();
    Reachable([start]);
    CancelState(Run(START, [start]));
    CancelDuringCreationIsLost(Run(START, [start]), "shop", 0, AttemptStatus.Processing, Some("ref"));
  }

  lemma CancelState(w: World)
    requires w.db.intents == [Shows(IntentStatus.Processing, 0)] && w.db.attempts == [OPENED]
    ensures MayCancel(w.db, "shop", 0) && !ReferenceTaken(w.db, 0, Some("ref"))
    ensures Next(w, StepCancel("shop", 0)).db.intents == [Shows(IntentStatus.Cancelled, 0)]
  {
    assert LatestAttempt([OPENED], 0, false) == Some(0);
  }

  const FAILURE := ProviderResult(Some("ref"), Some(AttemptStatus.Failed), None, None, 0)

  /** A sweep that read the attempt before the success event, and is told of a failure after it, saves the attempt
      as failed although the intent succeeded and the capture is booked. */
  lemma StaleSweepExample()
    ensures |Run(START, CREATED).db.attempts| == 1 && Candidate(Run(START, CREATED).db.attempts[0])
    ensures |Run(START, PAYMENT).db.attempts| == 1
    ensures var s := StaleSweep(Run(START, PAYMENT).db, 0, Run(START, CREATED).db.attempts[0], Some(FAILURE));
            && s.intents == [PAID] && s.attempts == [CHARGED.(status := AttemptStatus.Failed)]
            && |s.ledger.journals| == 1
  {
    CreatedState();
    PaidState();
    var read := CHARGED.(status := AttemptStatus.Processing);
    assert [CHARGED][0 := read] == [read];
    assert LatestAttempt([read], 0, false) == Some(0);
  }
}
