/** When the amount and status kept on an intent agree with its refund rows. Completing a refund saves the
    intent as it was read at the reservation, so a refund that completed meanwhile is forgotten. */
module RefundOverlap {
  import opened Options
  import opened Sums
  import opened PaymentEntities
  import opened PaymentStore
  import opened PaymentSafety
  import opened PaymentEffects
  import L = FinancialLedger

  /** The refunded amount that the intent's row shows. */
  function Shown(s: Store, k: nat): int { if k < |s.intents| then s.intents[k].refunded else 0 }

  predicate UpToDate(s: Store, k: nat) { Shown(s, k) == TotalSucceeded(s.refunds, k) }

  // --- One step ----------------------------------------------------------------------------------------

  /** Refund r of intent k waits for its provider. */
  predicate InProgress(w: World, r: nat, k: nat) {
    r in w.refunding && r < |w.db.refunds| && w.db.refunds[r].intent == k
  }

  /** The step saves a successful refund of intent k. */
  predicate Completes(w: World, step: Step, k: nat) {
    step.StepFinishRefund? && step.outcome == Some(RefundStatus.Succeeded) && InProgress(w, step.id, k)
  }

  /** Before saving, the row still shows the refunded amount that the copy to be saved was made from. */
  predicate SavesFresh(w: World, step: Step, k: nat) {
    Completes(w, step, k) ==> Shown(w.db, k) == w.refunding[step.id].refunded
  }

  /** A refund in progress and its copy come from the state before, or were just reserved. */
  predicate CopyFrom(w: World, v: World, r: nat) {
    r in v.refunding && r < |v.db.refunds| ==>
      && (r < |w.db.refunds| ==>
            r in w.refunding && v.refunding[r] == w.refunding[r] && v.db.refunds[r].intent == w.db.refunds[r].intent)
      && (r >= |w.db.refunds| ==> v.refunding[r].refunded == Shown(w.db, v.db.refunds[r].intent))
  }

  lemma CompletionRefunds(w: World, r: nat, answer: Option<RefundStatus>, k: nat)
    requires Inv(w) && r in w.refunding
    ensures var v, step := Next(w, StepFinishRefund(r, answer)), StepFinishRefund(r, answer);
            && r < |w.db.refunds| && w.db.refunds[r].amount > 0
            && |v.db.refunds| == |w.db.refunds| && v.refunding == w.refunding - {r}
            && (forall q :: 0 <= q < |w.db.refunds| ==> v.db.refunds[q].intent == w.db.refunds[q].intent)
            && if Completes(w, step, k)
               then Shown(v.db, k) == w.refunding[r].refunded + w.db.refunds[r].amount
                    && TotalSucceeded(v.db.refunds, k) == TotalSucceeded(w.db.refunds, k) + w.db.refunds[r].amount
               else Shown(v.db, k) == Shown(w.db, k)
                    && TotalSucceeded(v.db.refunds, k) == TotalSucceeded(w.db.refunds, k)
  {
    FinishedIsCompleted(w, r, answer);
    FinishRefundTotals(w.db, r, RefundStatusAfter(answer), k);
  }

  /** Steps that touch no refund row show the same amounts. */
  ghost predicate SameRefunds(w: World, v: World) {
    && v.refunding.Keys <= w.refunding.Keys && v.db.refunds == w.db.refunds
    && (forall r :: r in v.refunding ==> v.refunding[r] == w.refunding[r])
    && forall k: nat :: Shown(v.db, k) == Shown(w.db, k)
  }

  lemma AcceptShowsSame(s: Store, k: nat, reported: Option<AttemptStatus>, reference: L.Reference, fee: int)
    requires k < |s.attempts| && s.attempts[k].intent < |s.intents| && StatusesAfter(s, k, reported).Some?
    ensures var after := Accept(s, k, reported, reference, fee);
            after.refunds == s.refunds && forall i: nat :: Shown(after, i) == Shown(s, i)
  {
  }

  lemma EventShowsSame(s: Store, id: EventId, r: ProviderResult)
    ensures var after := ApplyEvent(s, id, r);
            after.refunds == s.refunds && forall i: nat :: Shown(after, i) == Shown(s, i)
  {
    if EventVerdict(s, id, r).Processed? {
      var k := FindAttempt(s.attempts, id.processor, r.reference.value).value;
      AcceptShowsSame(s, k, r.status, L.ProviderEvent(id.key), r.fee);
    }
  }

  lemma SweepShowsSame(s: Store, k: nat, answer: Option<ProviderResult>)
    requires k < |s.attempts|
    ensures var after := Sweep(s, k, answer);
            after.refunds == s.refunds && forall i: nat :: Shown(after, i) == Shown(s, i)
  {
    if Sweep(s, k, answer) != s {
      AcceptShowsSame(s, k, answer.value.status, L.ReconciledAttempt(k), answer.value.fee);
    }
  }

  lemma FinishCreateShowsSame(w: World, k: nat, status: AttemptStatus, reference: Option<string>)
    requires Inv(w)
    ensures SameRefunds(w, Next(w, StepFinishCreate(k, status, reference)))
  {
    if k in w.creating { assert StatusOk(w.db, k); }
  }

  lemma StartCreateShowsSame(w: World, c: CreateCommand)
    ensures SameRefunds(w, Next(w, StepStartCreate(c)))
  {
  }

  lemma CancelShowsSame(w: World, client: string, k: nat)
    ensures SameRefunds(w, Next(w, StepCancel(client, k)))
  {
  }

  lemma OtherStepShowsSame(w: World, step: Step)
    requires Inv(w) && !step.StepReserve? && !step.StepFinishRefund?
    ensures SameRefunds(w, Next(w, step))
  {
    match step
    case StepApply(id, r) => EventShowsSame(w.db, id, r);
    case StepProcess(id, r) => EventShowsSame(ReceiveEvent(w.db, id), id, r);
    case StepSweep(k, answer) => if k < |w.db.attempts| { SweepShowsSame(w.db, k, answer); }
    case StepFinishCreate(k, status, reference) => FinishCreateShowsSame(w, k, status, reference);
    case StepStartCreate(c) => StartCreateShowsSame(w, c);
    case StepCancel(client, k) => CancelShowsSame(w, client, k);
    case _ =>
  }

  lemma ReserveShowsSame(w: World, c: RefundCommand)
    requires Inv(w)
    ensures var v := Next(w, StepReserve(c));
            && |w.db.refunds| <= |v.db.refunds|
            && (forall k: nat :: Shown(v.db, k) == Shown(w.db, k)
                                 && TotalSucceeded(v.db.refunds, k) == TotalSucceeded(w.db.refunds, k))
            && (forall r: nat :: CopyFrom(w, v, r))
  {
    var v := Next(w, StepReserve(c));
    if RefundOutcomeOf(w.db, c).Reserved? { ReservedRow(w.db, c); }
    forall r: nat ensures CopyFrom(w, v, r) {
      if r in w.refunding { assert ReadOk(w.db, r, w.refunding[r]); }
    }
  }

  /** What a step does to the refunds of intent k: a completion moves row and total, a reservation brings a copy
      of the row, and nothing else is touched. */
  ghost predicate RefundStep(w: World, v: World, step: Step, k: nat) {
    && |w.db.refunds| <= |v.db.refunds|
    && (forall r: nat :: CopyFrom(w, v, r))
    && (forall r: nat :: |w.db.refunds| <= r < |v.db.refunds| ==>
          r == |w.db.refunds| && step.StepReserve? && v.db.refunds[r].intent == step.refund.intent)
    && if Completes(w, step, k)
       then var amount := w.db.refunds[step.id].amount;
            && amount > 0 && v.refunding == w.refunding - {step.id}
            && Shown(v.db, k) == w.refunding[step.id].refunded + amount
            && TotalSucceeded(v.db.refunds, k) == TotalSucceeded(w.db.refunds, k) + amount
       else Shown(v.db, k) == Shown(w.db, k)
            && TotalSucceeded(v.db.refunds, k) == TotalSucceeded(w.db.refunds, k)
  }

  lemma StepRefunds(w: World, step: Step, k: nat)
    requires Inv(w)
    ensures Inv(Next(w, step)) && RefundStep(w, Next(w, step), step, k)
  {
    PaymentSafety.NextKeeps(w, step);
    if step.StepReserve? {
      ReserveIsRefundStep(w, step.refund, k);
    } else if step.StepFinishRefund? && step.id in w.refunding {
      CompletionIsRefundStep(w, step.id, step.outcome, k);
    } else if step.StepFinishRefund? {
      SameIsRefundStep(w, w, step, k);
    } else {
      OtherStepShowsSame(w, step);
      SameIsRefundStep(w, Next(w, step), step, k);
    }
  }

  lemma SameIsRefundStep(w: World, v: World, step: Step, k: nat)
    requires SameRefunds(w, v) && !Completes(w, step, k)
    ensures RefundStep(w, v, step, k)
  {
  }

  lemma CompletionIsRefundStep(w: World, r: nat, answer: Option<RefundStatus>, k: nat)
    requires Inv(w) && r in w.refunding
    ensures RefundStep(w, Next(w, StepFinishRefund(r, answer)), StepFinishRefund(r, answer), k)
  {
    CompletionRefunds(w, r, answer, k);
  }

  lemma ReserveIsRefundStep(w: World, c: RefundCommand, k: nat)
    requires Inv(w)
    ensures RefundStep(w, Next(w, StepReserve(c)), StepReserve(c), k)
  {
    ReserveShowsSame(w, c);
    if RefundOutcomeOf(w.db, c).Reserved? { ReservedRow(w.db, c); }
  }

  /** A completion leaves the intent exact exactly when the copy it saves was exact for the refunds that have
      succeeded by now; if the row was exact just before, when the row still shows what the copy read. */
  lemma CompletionUpToDateIff(w: World, r: nat)
    requires Inv(w) && r in w.refunding
    ensures r < |w.db.refunds|
    ensures var k := w.db.refunds[r].intent;
            var after := Next(w, StepFinishRefund(r, Some(RefundStatus.Succeeded)));
            && (UpToDate(after.db, k) <==> w.refunding[r].refunded == TotalSucceeded(w.db.refunds, k))
            && (UpToDate(w.db, k) ==>
                  (UpToDate(after.db, k) <==> SavesFresh(w, StepFinishRefund(r, Some(RefundStatus.Succeeded)), k)))
  {
    assert ReadOk(w.db, r, w.refunding[r]);
    StepRefunds(w, StepFinishRefund(r, Some(RefundStatus.Succeeded)), w.db.refunds[r].intent);
  }

  // --- Every run -------------------------------------------------------------------------------------------

  predicate AllSaveFresh(w: World, steps: seq<Step>, k: nat)
    decreases |steps|
  {
    steps == [] || (SavesFresh(w, steps[0], k) && AllSaveFresh(Next(w, steps[0]), steps[1..], k))
  }

  /** The row shows less than was given back, and so does every copy that is still to be saved. */
  ghost predicate Behind(w: World, k: nat) {
    && Shown(w.db, k) < TotalSucceeded(w.db.refunds, k)
    && forall r: nat :: InProgress(w, r, k) ==>
         w.refunding[r].refunded < TotalSucceeded(w.db.refunds, k)
  }

  /** An intent that fell behind never catches up, and saving a stale copy leaves it behind. */
  lemma FallsBehind(w: World, v: World, step: Step, k: nat)
    requires ReadsOk(w) && RefundStep(w, v, step, k)
    requires Behind(w, k) || (Completes(w, step, k) && w.refunding[step.id].refunded < TotalSucceeded(w.db.refunds, k))
    ensures Behind(v, k)
  {
    forall r: nat | InProgress(v, r, k)
      ensures v.refunding[r].refunded < TotalSucceeded(v.db.refunds, k)
    {
      assert CopyFrom(w, v, r);
      if r in w.refunding { assert ReadOk(w.db, r, w.refunding[r]); }
    }
  }

  lemma {:induction false} BehindForGood(w: World, steps: seq<Step>, k: nat)
    requires Inv(w) && Behind(w, k)
    ensures Behind(Run(w, steps), k)
    decreases |steps|
  {
    if steps != [] {
      StepRefunds(w, steps[0], k);
      FallsBehind(w, Next(w, steps[0]), steps[0], k);
      BehindForGood(Next(w, steps[0]), steps[1..], k);
    }
  }

  /** For any run from a state in which the intent is exact: it is exact at the end if and only if every
      successful completion found the row still showing what its copy had read. */
  lemma {:induction false} UpToDateIffSavesFresh(w: World, steps: seq<Step>, k: nat)
    requires Inv(w) && UpToDate(w.db, k)
    ensures UpToDate(Run(w, steps).db, k) <==> AllSaveFresh(w, steps, k)
    decreases |steps|
  {
    if steps != [] {
      var step, v := steps[0], Next(w, steps[0]);
      StepRefunds(w, step, k);
      if SavesFresh(w, step, k) {
        UpToDateIffSavesFresh(v, steps[1..], k);
      } else {
        assert ReadOk(w.db, step.id, w.refunding[step.id]);
        FallsBehind(w, v, step, k);
        BehindForGood(v, steps[1..], k);
      }
    }
  }

  lemma StatusOfUpToDate(w: World, k: nat)
    requires Inv(w) && k < |w.db.intents|
    ensures var s, given := w.db, TotalSucceeded(w.db.refunds, k);
            && s.intents[k].refunded <= given
            && (UpToDate(s, k) ==>
                  && (s.intents[k].status == IntentStatus.Refunded <==> given == s.intents[k].amount)
                  && (s.intents[k].status == IntentStatus.PartiallyRefunded <==> 0 < given < s.intents[k].amount))
  {
    assert StatusOk(w.db, k) && RefundsFit(w.db, k);
  }

  /** In every run, the refunded amount never exceeds the succeeded refunds, equals them if and only if every
      successful completion saved a fresh copy, and then the status says none, part or all. */
  lemma RefundedIsExactIff(steps: seq<Step>, k: nat)
    requires k < |Run(START, steps).db.intents|
    ensures var s := Run(START, steps).db;
            var given := TotalSucceeded(s.refunds, k);
            && s.intents[k].refunded <= given
            && (s.intents[k].refunded == given <==> AllSaveFresh(START, steps, k))
            && (AllSaveFresh(START, steps, k) ==>
                  && (s.intents[k].status == IntentStatus.Refunded <==> given == s.intents[k].amount)
                  && (s.intents[k].status == IntentStatus.PartiallyRefunded <==> 0 < given < s.intents[k].amount))
  {
    StartIsOk();
    UpToDateIffSavesFresh(START, steps, k);
    Reachable(steps);
    StatusOfUpToDate(Run(START, steps), k);
  }

  // --- Refunds that do not overlap ------------------------------------------------------------------------

  predicate InProgressFor(w: World, intent: nat) {
    exists r :: r in w.refunding && InProgress(w, r, intent)
  }

  /** A refund is reserved only while no other refund of the same intent is in progress. */
  predicate Apart(w: World, step: Step) { step.StepReserve? ==> !InProgressFor(w, step.refund.intent) }

  predicate AllApart(w: World, steps: seq<Step>)
    decreases |steps|
  {
    steps == [] || (Apart(w, steps[0]) && AllApart(Next(w, steps[0]), steps[1..]))
  }

  /** At most one refund of intent k is in progress, and its copy shows what the row shows. */
  ghost predicate OneFreshCopy(w: World, k: nat) {
    && (forall r: nat :: InProgress(w, r, k) ==>
          w.refunding[r].refunded == Shown(w.db, k))
    && (forall r: nat, q: nat :: InProgress(w, r, k) && InProgress(w, q, k) ==> r == q)
  }

  /** A refund in progress after the step was so before, or was reserved while there was none. */
  lemma ApartCopies(w: World, v: World, step: Step, k: nat, r: nat)
    requires RefundStep(w, v, step, k) && OneFreshCopy(w, k) && Apart(w, step) && InProgress(v, r, k)
    ensures v.refunding[r].refunded == Shown(v.db, k)
    ensures InProgress(w, r, k) || (r == |w.db.refunds| && !InProgressFor(w, k))
  {
    assert CopyFrom(w, v, r);
    if r < |w.db.refunds| {
      assert InProgress(w, r, k);
      assert w.refunding[r].refunded == Shown(w.db, k);
      if Completes(w, step, k) { assert false; }
    } else {
      assert step.StepReserve? && !Completes(w, step, k);
      assert Shown(v.db, k) == Shown(w.db, k);
    }
  }

  lemma ApartKeepsOneCopy(w: World, v: World, step: Step, k: nat)
    requires RefundStep(w, v, step, k) && OneFreshCopy(w, k) && Apart(w, step)
    ensures SavesFresh(w, step, k) && OneFreshCopy(v, k)
  {
    forall r: nat | InProgress(v, r, k)
      ensures v.refunding[r].refunded == Shown(v.db, k)
      ensures InProgress(w, r, k) || (r == |w.db.refunds| && !InProgressFor(w, k))
    {
      ApartCopies(w, v, step, k, r);
    }
  }

  lemma {:induction false} ApartSavesFresh(w: World, steps: seq<Step>, k: nat)
    requires Inv(w) && OneFreshCopy(w, k) && AllApart(w, steps)
    ensures AllSaveFresh(w, steps, k)
    decreases |steps|
  {
    if steps != [] {
      StepRefunds(w, steps[0], k);
      ApartKeepsOneCopy(w, Next(w, steps[0]), steps[0], k);
      ApartSavesFresh(Next(w, steps[0]), steps[1..], k);
    }
  }

  /** When refunds of one intent never overlap, the intent's refunded amount is the sum of its succeeded
      refunds, and its status says whether that is none, part or all of its amount. */
  lemma RefundedIsSucceededRefunds(steps: seq<Step>, k: nat)
    requires AllApart(START, steps) && k < |Run(START, steps).db.intents|
    ensures var s := Run(START, steps).db;
            var given := TotalSucceeded(s.refunds, k);
            && s.intents[k].refunded == given
            && (s.intents[k].status == IntentStatus.Refunded <==> given == s.intents[k].amount)
            && (s.intents[k].status == IntentStatus.PartiallyRefunded <==> 0 < given < s.intents[k].amount)
  {
    StartIsOk();
    ApartSavesFresh(START, steps, k);
    RefundedIsExactIff(steps, k);
  }

  // --- Refunds that overlap ---------------------------------------------------------------------------------

  /** A refund that is in progress now and after some steps kept its copy, and no refund was taken back. */
  lemma {:induction false} CopyStays(w: World, steps: seq<Step>, q: nat, k: nat)
    requires Inv(w) && q < |w.db.refunds| && q in Run(w, steps).refunding
    ensures var v := Run(w, steps);
            && Inv(v) && q < |v.db.refunds| && q in w.refunding && v.refunding[q] == w.refunding[q]
            && v.db.refunds[q].intent == w.db.refunds[q].intent
            && TotalSucceeded(w.db.refunds, k) <= TotalSucceeded(v.db.refunds, k)
    decreases |steps|
  {
    if steps != [] {
      StepRefunds(w, steps[0], k);
      CopyStays(Next(w, steps[0]), steps[1..], q, k);
      assert CopyFrom(w, Next(w, steps[0]), q);
    }
  }

  /** Once one of two refunds has succeeded, the copy of the other is stale as long as it is in progress. */
  lemma OtherCopyIsStale(w: World, r: nat, q: nat, between: seq<Step>)
    requires Inv(w) && r in w.refunding && r != q && r < |w.db.refunds| && q < |w.db.refunds|
    requires w.db.refunds[r].intent == w.db.refunds[q].intent
    requires q in Run(Next(w, StepFinishRefund(r, Some(RefundStatus.Succeeded))), between).refunding
    ensures var i, first := w.db.refunds[r].intent, Next(w, StepFinishRefund(r, Some(RefundStatus.Succeeded)));
            var mid := Run(first, between);
            && Inv(mid) && InProgress(mid, q, i)
            && mid.refunding[q].refunded < TotalSucceeded(mid.db.refunds, i)
  {
    var i, step := w.db.refunds[r].intent, StepFinishRefund(r, Some(RefundStatus.Succeeded));
    var first := Next(w, step);
    StepRefunds(w, step, i);
    CompletedIsStale(w, first, step, q, i);
    CopyStays(first, between, q, i);
  }

  lemma CompletedIsStale(w: World, v: World, step: Step, q: nat, k: nat)
    requires ReadsOk(w) && RefundStep(w, v, step, k) && Completes(w, step, k)
    requires q < |w.db.refunds| && w.db.refunds[q].intent == k
    ensures q in v.refunding ==> InProgress(v, q, k) && v.refunding[q].refunded < TotalSucceeded(v.db.refunds, k)
  {
    assert CopyFrom(w, v, q);
    if q in w.refunding { assert ReadOk(w.db, q, w.refunding[q]); }
  }

  /** Whenever two refunds of one intent were in progress together and both succeed, whatever happens in
      between and afterwards, the intent shows less than was given back for good. */
  lemma OverlapLosesARefund(w: World, r: nat, q: nat, between: seq<Step>, later: seq<Step>)
    requires Inv(w) && r in w.refunding && r != q && r < |w.db.refunds| && q < |w.db.refunds|
    requires w.db.refunds[r].intent == w.db.refunds[q].intent
    requires q in Run(Next(w, StepFinishRefund(r, Some(RefundStatus.Succeeded))), between).refunding
    ensures var i := w.db.refunds[r].intent;
            var first := Next(w, StepFinishRefund(r, Some(RefundStatus.Succeeded)));
            var both := Next(Run(first, between), StepFinishRefund(q, Some(RefundStatus.Succeeded)));
            var end := Run(both, later).db;
            Shown(end, i) < TotalSucceeded(end.refunds, i)
  {
    var i, first := w.db.refunds[r].intent, Next(w, StepFinishRefund(r, Some(RefundStatus.Succeeded)));
    var mid := Run(first, between);
    var step := StepFinishRefund(q, Some(RefundStatus.Succeeded));
    OtherCopyIsStale(w, r, q, between);
    StepRefunds(mid, step, i);
    FallsBehind(mid, Next(mid, step), step, i);
    BehindForGood(Next(mid, step), later, i);
  }
}
