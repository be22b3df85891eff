/** What a refund's reservation holds, told by the steps of a run: it holds from the reservation on until the
    provider answers that the refund failed, and an uncertain answer releases nothing. */
module RefundReservations {
  import opened Options
  import opened Sums
  import opened PaymentEntities
  import opened PaymentStore
  import opened PaymentSafety

  /** The step brings refund r the provider's answer. */
  predicate Answers(w: World, step: Step, r: nat) {
    step.StepFinishRefund? && step.id == r && r in w.refunding
  }

  // --- One step --------------------------------------------------------------------------------------------

  /** An uncertain answer leaves the refund processing and every reservation as it was. */
  lemma UncertainKeepsReservation(w: World, r: nat)
    requires Inv(w) && r in w.refunding
    ensures r < |w.db.refunds|
    ensures var s, after := w.db, Next(w, StepFinishRefund(r, None)).db;
            && after == s.(refunds := s.refunds[r := s.refunds[r].(status := RefundStatus.Processing)])
            && forall k: nat :: TotalActive(after.refunds, k) == TotalActive(s.refunds, k)
                                && TotalSucceeded(after.refunds, k) == TotalSucceeded(s.refunds, k)
  {
    FinishedIsCompleted(w, r, None);
    var s, after := w.db, Next(w, StepFinishRefund(r, None)).db;
    assert after.intents == s.intents;
    forall k: nat
      ensures TotalActive(after.refunds, k) == TotalActive(s.refunds, k)
      ensures TotalSucceeded(after.refunds, k) == TotalSucceeded(s.refunds, k)
    {
      SumUpdate(s.refunds, r, after.refunds[r], ActiveAmount(k));
      SumUpdate(s.refunds, r, after.refunds[r], SucceededAmount(k));
    }
  }

  /** The status a refund has after a step. */
  function StatusAfter(w: World, step: Step, r: nat): RefundStatus
    requires r < |w.db.refunds|
  {
    if !Answers(w, step, r) then w.db.refunds[r].status
    else if step.outcome == None then RefundStatus.Processing else step.outcome.value
  }

  /** A step answers one refund, or adds one that is pending, or leaves them all. */
  predicate RefundRows(w: World, v: World, step: Step) {
    && |w.db.refunds| <= |v.db.refunds|
    && (forall r :: 0 <= r < |w.db.refunds| ==>
          v.db.refunds[r] == w.db.refunds[r].(status := StatusAfter(w, step, r)))
    && (forall r :: |w.db.refunds| <= r < |v.db.refunds| ==> v.db.refunds[r].status == RefundStatus.Pending)
    && (forall r :: r in v.refunding && r < |w.db.refunds| ==> r in w.refunding && !Answers(w, step, r))
  }

  lemma ReserveAddsPending(w: World, c: RefundCommand)
    requires Inv(w)
    ensures RefundRows(w, Next(w, StepReserve(c)), StepReserve(c))
  {
    if RefundOutcomeOf(w.db, c).Reserved? { ReservedRow(w.db, c); }
  }

  /** An answer changes the status of its own refund's row and no other. */
  lemma AnsweredRow(w: World, r: nat, answer: Option<RefundStatus>)
    requires Inv(w) && r in w.refunding
    ensures r < |w.db.refunds| && w.db.refunds[r].status == RefundStatus.Pending
    ensures var v, status := Next(w, StepFinishRefund(r, answer)),
                             if answer == None then RefundStatus.Processing else answer.value;
            && v.db.refunds == w.db.refunds[r := w.db.refunds[r].(status := status)]
            && v.refunding == w.refunding - {r}
  {
    FinishedIsCompleted(w, r, answer);
  }

  lemma OneRowAnswered(w: World, v: World, r: nat, answer: Option<RefundStatus>)
    requires r in w.refunding && r < |w.db.refunds| && v.refunding == w.refunding - {r}
    requires var status := if answer == None then RefundStatus.Processing else answer.value;
             v.db.refunds == w.db.refunds[r := w.db.refunds[r].(status := status)]
    ensures RefundRows(w, v, StepFinishRefund(r, answer))
  {
  }

  lemma FinishAnswers(w: World, r: nat, answer: Option<RefundStatus>)
    requires Inv(w)
    ensures RefundRows(w, Next(w, StepFinishRefund(r, answer)), StepFinishRefund(r, answer))
  {
    if r in w.refunding {
      AnsweredRow(w, r, answer);
      OneRowAnswered(w, Next(w, StepFinishRefund(r, answer)), r, answer);
    } else {
      assert Next(w, StepFinishRefund(r, answer)) == w;
    }
  }

  lemma SameRefundRows(w: World, v: World, step: Step)
    requires v.db.refunds == w.db.refunds && v.refunding.Keys <= w.refunding.Keys && !step.StepFinishRefund?
    ensures RefundRows(w, v, step)
  {
  }

  /** Events and sweeps leave the refunds alone. */
  lemma ResultsKeepRefunds(w: World, step: Step)
    requires Inv(w) && (step.StepApply? || step.StepProcess? || step.StepSweep?)
    ensures Next(w, step).db.refunds == w.db.refunds && Next(w, step).refunding == w.refunding
  {
    match step
    case StepApply(id, r) => ApplyEventKeeps(w.db, id, r);
    case StepProcess(id, r) =>
      if !Closed(w.db, id) {
        ReceiveKeeps(w.db, id);
        ApplyEventKeeps(ReceiveEvent(w.db, id), id, r);
      }
    case StepSweep(k, answer) =>
      if k < |w.db.attempts| && Candidate(w.db.attempts[k]) { SweepKeeps(w.db, k, answer); }
  }

  lemma StepAnswers(w: World, step: Step)
    requires Inv(w)
    ensures RefundRows(w, Next(w, step), step)
  {
    match step
    case StepReserve(c) => ReserveAddsPending(w, c);
    case StepFinishRefund(r, answer) => FinishAnswers(w, r, answer);
    case StepApply(_, _) =>
      ResultsKeepRefunds(w, step);
      SameRefundRows(w, Next(w, step), step);
    case StepProcess(_, _) =>
      ResultsKeepRefunds(w, step);
      SameRefundRows(w, Next(w, step), step);
    case StepSweep(_, _) =>
      ResultsKeepRefunds(w, step);
      SameRefundRows(w, Next(w, step), step);
    case _ => SameRefundRows(w, Next(w, step), step);
  }

  // --- The answer decides ----------------------------------------------------------------------------------

  predicate SomeAnswers(w: World, steps: seq<Step>, r: nat, status: RefundStatus)
    decreases |steps|
  {
    && steps != []
    && ((Answers(w, steps[0], r) && steps[0].outcome == Some(status))
        || SomeAnswers(Next(w, steps[0]), steps[1..], r, status))
  }

  predicate Has(w: World, r: nat, status: RefundStatus) { r < |w.db.refunds| && w.db.refunds[r].status == status }

  lemma {:induction false} RunAnswers(w: World, steps: seq<Step>, r: nat, status: RefundStatus)
    requires Inv(w) && (status == RefundStatus.Succeeded || status == RefundStatus.Failed)
    ensures |w.db.refunds| <= |Run(w, steps).db.refunds|
    ensures Has(Run(w, steps), r, status) <==> Has(w, r, status) || SomeAnswers(w, steps, r, status)
    decreases |steps|
  {
    if steps != [] {
      StepAnswers(w, steps[0]);
      NextKeeps(w, steps[0]);
      if r in w.refunding { assert ReadOk(w.db, r, w.refunding[r]); }
      RunAnswers(Next(w, steps[0]), steps[1..], r, status);
    }
  }

  /** Over every run, a refund failed if and only if the provider answered so when it was asked, and succeeded if
      and only if the provider answered that. */
  lemma RefundIsWhatWasAnswered(steps: seq<Step>, r: nat)
    requires r < |Run(START, steps).db.refunds|
    ensures var status := Run(START, steps).db.refunds[r].status;
            && (status == RefundStatus.Failed <==> SomeAnswers(START, steps, r, RefundStatus.Failed))
            && (status == RefundStatus.Succeeded <==> SomeAnswers(START, steps, r, RefundStatus.Succeeded))
  {
    StartIsOk();
    RunAnswers(START, steps, r, RefundStatus.Failed);
    RunAnswers(START, steps, r, RefundStatus.Succeeded);
  }

  // --- What is held -------------------------------------------------------------------------------------------

  /** What a step adds to what is held of intent k: the amount that it reserves, or less the amount whose provider
      answers that the refund failed. */
  function Holds(w: World, step: Step, k: nat): int {
    match step
    case StepReserve(c) => if c.intent == k && |Next(w, step).db.refunds| > |w.db.refunds| then c.amount else 0
    case StepFinishRefund(r, outcome) =>
      if r in w.refunding && r < |w.db.refunds| && w.db.refunds[r].intent == k && outcome == Some(RefundStatus.Failed)
      then -w.db.refunds[r].amount else 0
    case _ => 0
  }

  function Held(w: World, steps: seq<Step>, k: nat): int
    decreases |steps|
  {
    if steps == [] then 0 else Holds(w, steps[0], k) + Held(Next(w, steps[0]), steps[1..], k)
  }

  lemma StepHolds(w: World, step: Step, k: nat)
    requires Inv(w)
    ensures TotalActive(Next(w, step).db.refunds, k) == TotalActive(w.db.refunds, k) + Holds(w, step, k)
  {
    StepAnswers(w, step);
    match step
    case StepReserve(c) => if RefundOutcomeOf(w.db, c).Reserved? { ReservedRow(w.db, c); }
    case StepFinishRefund(r, answer) => if r in w.refunding { AnswerHolds(w, r, answer, k); }
    case _ => assert Next(w, step).db.refunds == w.db.refunds;
  }

  lemma AnswerHolds(w: World, r: nat, answer: Option<RefundStatus>, k: nat)
    requires Inv(w) && r in w.refunding
    ensures var step := StepFinishRefund(r, answer);
            TotalActive(Next(w, step).db.refunds, k) == TotalActive(w.db.refunds, k) + Holds(w, step, k)
  {
    AnsweredRow(w, r, answer);
    SumUpdate(w.db.refunds, r, Next(w, StepFinishRefund(r, answer)).db.refunds[r], ActiveAmount(k));
  }

  lemma {:induction false} RunHolds(w: World, steps: seq<Step>, k: nat)
    requires Inv(w)
    ensures TotalActive(Run(w, steps).db.refunds, k) == TotalActive(w.db.refunds, k) + Held(w, steps, k)
    decreases |steps|
  {
    if steps != [] {
      StepHolds(w, steps[0], k);
      NextKeeps(w, steps[0]);
      RunHolds(Next(w, steps[0]), steps[1..], k);
    }
  }

  /** Over every run, all that was reserved of an intent and that no provider answered to have failed is never more
      than the captured amount, whatever became of it. */
  lemma HeldNeverExceedsCapture(steps: seq<Step>, k: nat)
    requires k < |Run(START, steps).db.intents|
    ensures var s := Run(START, steps).db;
            Held(START, steps, k) == TotalActive(s.refunds, k) && Held(START, steps, k) <= s.intents[k].amount
  {
    StartIsOk();
    RunHolds(START, steps, k);
    Reachable(steps);
    assert RefundsFit(Run(START, steps).db, k);
  }
}
