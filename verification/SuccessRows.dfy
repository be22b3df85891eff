/** How many `payment.succeeded` rows a payment has after a run: one when it succeeded, and one more for each
    success event that found a refund applied, because the guard looks at the intent's status only. */
module SuccessRows {
  import opened Options
  import opened Sums
  import opened PaymentEntities
  import opened PaymentStore
  import opened PaymentSafety
  import opened PaymentEffects
  import opened PaymentTheorems
  import L = FinancialLedger

  predicate CapturedAt(s: Store, k: nat) { k < |s.attempts| && IsCaptured(s, k) }

  /** The adapter's first answer is a success: the creation saves it without recording the effect. */
  predicate SucceedsAtOnce(w: World, step: Step, k: nat) {
    && step.StepFinishCreate? && step.intent == k && step.status == AttemptStatus.Succeeded
    && k in w.creating && k < |w.db.intents| && k < |w.db.attempts| && !ReferenceTaken(w.db, k, step.reference)
  }

  /** A success event for a succeeded attempt whose intent already shows a refund. */
  predicate MeetsRefund(s: Store, id: EventId, r: ProviderResult, k: nat) {
    && Given(r.reference) && k < |s.attempts| && k < |s.intents|
    && s.attempts[k].processor == id.processor && s.attempts[k].reference == r.reference
    && r.status == Some(AttemptStatus.Succeeded)
    && r.amount == Some(s.intents[k].amount) && r.currency == Some(s.intents[k].currency)
    && s.attempts[k].status == AttemptStatus.Succeeded && s.intents[k].refunded > 0
  }

  predicate Repeats(w: World, step: Step, k: nat) {
    match step
    case StepApply(id, r) => MeetsRefund(w.db, id, r, k)
    case StepProcess(id, r) => !Closed(w.db, id) && MeetsRefund(w.db, id, r, k)
    case _ => false
  }

  // --- One step --------------------------------------------------------------------------------------------

  /** The rows that a change from s to after adds, when `repeats` says whether a refunded payment is recorded. */
  predicate Adds(s: Store, after: Store, k: nat, repeats: bool) {
    && (CapturedAt(s, k) ==> CapturedAt(after, k))
    && Successes(after, k) - Successes(s, k)
       == (if CapturedAt(after, k) && !CapturedAt(s, k) then 1 else 0) + (if repeats then 1 else 0)
  }

  lemma AcceptAdds(s: Store, a: nat, reported: Option<AttemptStatus>, reference: L.Reference, fee: int, k: nat)
    requires DbOk(s) && a < |s.attempts| && s.attempts[a].intent < |s.intents| && StatusesAfter(s, a, reported).Some?
    ensures Adds(s, Accept(s, a, reported, reference, fee), k,
                 a == k && reported == Some(AttemptStatus.Succeeded) && IsCaptured(s, k) && s.intents[k].refunded > 0)
  {
    assert s.attempts[a].intent == a && StatusOk(s, a);
    OnlyAttemptIsLatest(s, a);
    ApplyStatusKeepsCoupled(s.intents[a].status, s.attempts[a].status, reported);
    var changed := WithStatuses(s, a, StatusesAfter(s, a, reported).value);
    if Effective(s, a, reported) { RecordCountsRow(changed, a, reference, fee, k); }
  }

  lemma EventAdds(s: Store, id: EventId, r: ProviderResult, k: nat)
    requires DbOk(s)
    ensures Adds(s, ApplyEvent(s, id, r), k, MeetsRefund(s, id, r, k))
  {
    if Given(r.reference) {
      var found := FindAttempt(s.attempts, id.processor, r.reference.value);
      if found.Some? {
        var a := found.value;
        assert s.attempts[a].intent == a && StatusOk(s, a);
        OnlyAttemptIsLatest(s, a);
        if EventVerdict(s, id, r).Processed? { AcceptAdds(s, a, r.status, L.ProviderEvent(id.key), r.fee, k); }
      }
    }
  }

  lemma ProcessAdds(s: Store, id: EventId, r: ProviderResult, k: nat)
    requires DbOk(s) && !Closed(s, id)
    ensures Adds(s, ProcessEvent(s, id, r), k, MeetsRefund(s, id, r, k))
  {
    ReceiveKeeps(s, id);
    EventAdds(ReceiveEvent(s, id), id, r, k);
  }

  lemma SweepAdds(s: Store, a: nat, answer: Option<ProviderResult>, k: nat)
    requires DbOk(s) && a < |s.attempts| && Candidate(s.attempts[a])
    ensures Adds(s, Sweep(s, a, answer), k, false)
  {
    SweepNeverRaises(s, a, answer);
    if Sweep(s, a, answer) != s {
      assert s.attempts[a].intent == a;
      AcceptAdds(s, a, answer.value.status, L.ReconciledAttempt(a), answer.value.fee, k);
    }
  }

  lemma FinishRefundAdds(w: World, r: nat, answer: Option<RefundStatus>, k: nat)
    requires Inv(w) && r in w.refunding
    ensures Adds(w.db, Next(w, StepFinishRefund(r, answer)).db, k, false)
  {
    FinishedIsCompleted(w, r, answer);
  }

  lemma CancelAdds(w: World, client: string, i: nat, k: nat)
    requires Inv(w)
    ensures Adds(w.db, Next(w, StepCancel(client, i)).db, k, false)
  {
    if MayCancel(w.db, client, i) { OnlyAttemptIsLatest(w.db, i); }
  }

  /** What one step adds. */
  lemma StepAdds(w: World, step: Step, k: nat)
    requires Inv(w)
    ensures var v := Next(w, step);
            if SucceedsAtOnce(w, step, k)
            then !CapturedAt(w.db, k) && CapturedAt(v.db, k) && Successes(v.db, k) == Successes(w.db, k)
            else Adds(w.db, v.db, k, Repeats(w, step, k))
  {
    match step
    case StepApply(id, r) => EventAdds(w.db, id, r, k);
    case StepProcess(id, r) => if !Closed(w.db, id) { ProcessAdds(w.db, id, r, k); }
    case StepSweep(a, answer) =>
      if a < |w.db.attempts| && Candidate(w.db.attempts[a]) { SweepAdds(w.db, a, answer, k); }
    case StepFinishRefund(r, answer) => if r in w.refunding { FinishRefundAdds(w, r, answer, k); }
    case StepCancel(client, i) => CancelAdds(w, client, i, k);
    case StepFinishCreate(i, status, reference) => FinishCreateAdds(w, i, status, reference, k);
    case _ =>
  }

  lemma FinishCreateAdds(w: World, i: nat, status: AttemptStatus, reference: Option<string>, k: nat)
    requires Inv(w)
    ensures var step := StepFinishCreate(i, status, reference);
            var v := Next(w, step);
            if SucceedsAtOnce(w, step, k)
            then !CapturedAt(w.db, k) && CapturedAt(v.db, k) && Successes(v.db, k) == Successes(w.db, k)
            else Adds(w.db, v.db, k, false)
  {
  }

  // --- Every run ---------------------------------------------------------------------------------------------

  predicate SomeSucceedsAtOnce(w: World, steps: seq<Step>, k: nat)
    decreases |steps|
  {
    steps != [] && (SucceedsAtOnce(w, steps[0], k) || SomeSucceedsAtOnce(Next(w, steps[0]), steps[1..], k))
  }

  function Repetitions(w: World, steps: seq<Step>, k: nat): nat
    decreases |steps|
  {
    if steps == [] then 0
    else (if Repeats(w, steps[0], k) then 1 else 0) + Repetitions(Next(w, steps[0]), steps[1..], k)
  }

  lemma {:induction false} RunAdds(w: World, steps: seq<Step>, k: nat)
    requires Inv(w)
    ensures var v := Run(w, steps);
            && (CapturedAt(w.db, k) ==> CapturedAt(v.db, k) && !SomeSucceedsAtOnce(w, steps, k))
            && Successes(v.db, k) - Successes(w.db, k)
               == (if CapturedAt(v.db, k) && !CapturedAt(w.db, k) && !SomeSucceedsAtOnce(w, steps, k) then 1 else 0)
                  + Repetitions(w, steps, k)
    decreases |steps|
  {
    if steps != [] {
      StepAdds(w, steps[0], k);
      PaymentSafety.NextKeeps(w, steps[0]);
      RunAdds(Next(w, steps[0]), steps[1..], k);
    }
  }

  /** Over every run, a payment has one success row if it succeeded otherwise than in the adapter's first answer,
      and one more for every success event that found a refund applied. */
  lemma SuccessRowsOfRun(steps: seq<Step>, k: nat)
    ensures var s := Run(START, steps).db;
            Successes(s, k)
            == (if k < |s.attempts| && s.attempts[k].status == AttemptStatus.Succeeded
                   && !SomeSucceedsAtOnce(START, steps, k) then 1 else 0)
               + Repetitions(START, steps, k)
  {
    StartIsOk();
    RunAdds(START, steps, k);
  }
}
