/** Payouts: creation, provider answers, reconciliation, and the one journal of a succeeded payout. The
    journal is shared with the payments, so their postings may come in between. */
module Payouts {
  import opened Options
  import opened Sums
  import opened PaymentEntities
  import L = FinancialLedger

  datatype StatusRow = StatusRow(payout: nat, status: PayoutStatus)

  datatype Store = Store(payouts: seq<PayoutRow>, ledger: L.Ledger, outbox: seq<StatusRow>)

  datatype CreateCommand = CreateCommand(
    client: string, key: string, fingerprint: string, processor: string, amount: int, currency: string)

  datatype CreateOutcome = Existing(payout: nat) | Conflict | InvalidAmount | Started(payout: nat)

  function FindPayout(payouts: seq<PayoutRow>, client: string, key: string): (found: Option<nat>)
    ensures found.Some? ==> found.value < |payouts|
                            && payouts[found.value].client == client && payouts[found.value].key == key
    ensures found.None? ==> forall k :: 0 <= k < |payouts| ==> !(payouts[k].client == client && payouts[k].key == key)
  {
    Find(payouts, (r: PayoutRow) => r.client == client && r.key == key)
  }

  function CreateOutcomeOf(s: Store, c: CreateCommand): CreateOutcome {
    var existing := FindPayout(s.payouts, c.client, c.key);
    if existing.Some? then
      if s.payouts[existing.value].fingerprint != c.fingerprint then Conflict else Existing(existing.value)
    else if c.amount <= 0 then InvalidAmount
    else Started(|s.payouts|)
  }

  function NewPayout(c: CreateCommand): PayoutRow {
    PayoutRow(c.client, c.key, c.fingerprint, c.processor, c.amount, c.currency, PayoutStatus.Pending, None)
  }

  function StartCreate(s: Store, c: CreateCommand): Store {
    if CreateOutcomeOf(s, c).Started? then s.(payouts := s.payouts + [NewPayout(c)]) else s
  }

  /** The store refuses a second payout with the same processor and reference. */
  predicate ReferenceTaken(s: Store, payout: nat, row: PayoutRow) {
    row.reference.Some?
    && exists k :: 0 <= k < |s.payouts| && k != payout
                   && s.payouts[k].processor == row.processor && s.payouts[k].reference == row.reference
  }

  function Journalled(s: Store, payout: nat, row: PayoutRow): L.Ledger {
    if row.status == PayoutStatus.Succeeded
    then L.Book(s.ledger, L.PostPayout(payout, row.client, row.processor, row.amount, row.currency))
    else s.ledger
  }

  /** Saves a payout, journals it if it succeeded and announces its status if asked. */
  function Saved(s: Store, payout: nat, row: PayoutRow, announce: bool): Store
    requires payout < |s.payouts|
  {
    if ReferenceTaken(s, payout, row) then s else
      Store(s.payouts[payout := row], Journalled(s, payout, row),
            if announce then s.outbox + [StatusRow(payout, row.status)] else s.outbox)
  }

  /** The second commit of a creation works on the pending payout it built. */
  function FinishCreate(s: Store, payout: nat, status: PayoutStatus, reference: Option<string>): Store
    requires payout < |s.payouts|
  {
    var built := s.payouts[payout].(status := PayoutStatus.Pending, reference := None);
    Saved(s, payout, WithProviderStatus(built, status, reference), true)
  }

  predicate Candidate(row: PayoutRow) {
    (row.status == PayoutStatus.Pending || row.status == PayoutStatus.Processing) && row.reference.Some?
  }

  /** One candidate of a sweep; `answer` is None when the provider gives none. */
  function Reconcile(s: Store, payout: nat, answer: Option<(PayoutStatus, Option<string>)>): Store
    requires payout < |s.payouts|
  {
    var row := s.payouts[payout];
    if answer.None? || !PayoutMay(row.status, answer.value.0) then s
    else Saved(s, payout, WithProviderStatus(row, answer.value.0, answer.value.1), answer.value.0 != row.status)
  }

  // --- Interleavings -------------------------------------------------------------------------------

  datatype World = World(db: Store, executing: set<nat>)

  const START := World(Store([], L.EMPTY, []), {})

  datatype Step =
    | StepStart(create: CreateCommand)
    | StepFinish(payout: nat, status: PayoutStatus, reference: Option<string>)
    | StepAbandon(payout: nat)
    | StepReconcile(payout: nat, answer: Option<(PayoutStatus, Option<string>)>)
    | StepOtherPosting(posting: L.Posting)

  function Next(w: World, step: Step): World {
    match step
    case StepStart(c) =>
      var outcome := CreateOutcomeOf(w.db, c);
      World(StartCreate(w.db, c), if outcome.Started? then w.executing + {outcome.payout} else w.executing)
    case StepFinish(k, status, reference) =>
      if k in w.executing && k < |w.db.payouts|
      then World(FinishCreate(w.db, k, status, reference), w.executing - {k}) else w
    case StepAbandon(k) => w.(executing := w.executing - {k})
    case StepReconcile(k, answer) =>
      if k < |w.db.payouts| && Candidate(w.db.payouts[k]) then w.(db := Reconcile(w.db, k, answer)) else w
    case StepOtherPosting(posting) =>
      if posting.PostPayout? then w else w.(db := w.db.(ledger := L.Book(w.db.ledger, posting)))
  }

  function Run(w: World, steps: seq<Step>): World
    decreases |steps|
  {
    if steps == [] then w else Run(Next(w, steps[0]), steps[1..])
  }

  // --- The invariant -----------------------------------------------------------------------------------

  function JournalOne(payout: nat): L.Journal -> int {
    (j: L.Journal) => if j.kind == L.PayoutPaid && j.owner == L.OfPayout(payout) then 1 else 0
  }

  function SucceededOne(payout: nat): StatusRow -> int {
    (r: StatusRow) => if r.payout == payout && r.status == PayoutStatus.Succeeded then 1 else 0
  }

  function Journals(s: Store, payout: nat): int { SumBy(s.ledger.journals, JournalOne(payout)) }

  function Announcements(s: Store, payout: nat): int { SumBy(s.outbox, SucceededOne(payout)) }

  ghost predicate PayoutOk(s: Store, k: nat)
    requires k < |s.payouts|
  {
    var times := if s.payouts[k].status == PayoutStatus.Succeeded then 1 else 0;
    Journals(s, k) == times && Announcements(s, k) == times
  }

  ghost predicate JournalOk(s: Store, j: L.Journal) {
    j.kind == L.PayoutPaid ==>
      && j.reference.PayoutOf?
      && var k := j.reference.payout;
      && k < |s.payouts| && j.owner == L.OfPayout(k)
      && s.payouts[k].status == PayoutStatus.Succeeded && j.amount == s.payouts[k].amount
  }

  predicate UniqueKeys(payouts: seq<PayoutRow>) {
    forall a, b :: 0 <= a < b < |payouts| ==>
      !(payouts[a].client == payouts[b].client && payouts[a].key == payouts[b].key)
  }

  ghost predicate Inv(w: World) {
    && UniqueKeys(w.db.payouts)
    && (forall k :: 0 <= k < |w.db.payouts| ==> PayoutOk(w.db, k))
    && (forall j :: 0 <= j < |w.db.ledger.journals| ==> JournalOk(w.db, w.db.ledger.journals[j]))
    && (forall r :: 0 <= r < |w.db.outbox| ==> w.db.outbox[r].payout < |w.db.payouts|)
    && (forall k :: k in w.executing ==>
          k < |w.db.payouts| && w.db.payouts[k].status == PayoutStatus.Pending && w.db.payouts[k].reference.None?)
  }

  /** A payout that has not succeeded was not journalled. */
  lemma NotJournalledYet(w: World, k: nat)
    requires Inv(w) && k < |w.db.payouts| && w.db.payouts[k].status != PayoutStatus.Succeeded
    ensures !L.Posted(w.db.ledger, L.PayoutPaid, L.PayoutOf(k))
  {
    forall j | 0 <= j < |w.db.ledger.journals|
      ensures !(w.db.ledger.journals[j].kind == L.PayoutPaid && w.db.ledger.journals[j].reference == L.PayoutOf(k))
    {
      assert JournalOk(w.db, w.db.ledger.journals[j]);
    }
  }

  lemma SavedPayoutOk(w: World, k: nat, row: PayoutRow, announce: bool, i: nat)
    requires Inv(w) && k < |w.db.payouts| && w.db.payouts[k].status != PayoutStatus.Succeeded && i < |w.db.payouts|
    requires row.amount == w.db.payouts[k].amount && (row.status == PayoutStatus.Succeeded ==> announce)
    ensures PayoutOk(Saved(w.db, k, row, announce), i)
  {
    var s := w.db;
    assert PayoutOk(s, i);
    NotJournalledYet(w, k);
    L.BookSums(s.ledger, L.PostPayout(k, row.client, row.processor, row.amount, row.currency), JournalOne(i));
    SumAppend(s.outbox, StatusRow(k, row.status), SucceededOne(i));
  }

  /** Saving an open payout with whatever status the provider gave it. */
  lemma SavedKeeps(w: World, k: nat, row: PayoutRow, announce: bool)
    requires Inv(w) && k < |w.db.payouts| && w.db.payouts[k].status != PayoutStatus.Succeeded
    requires row.amount == w.db.payouts[k].amount && (row.status == PayoutStatus.Succeeded ==> announce)
    requires row.client == w.db.payouts[k].client && row.key == w.db.payouts[k].key
    ensures var after := Saved(w.db, k, row, announce);
            && UniqueKeys(after.payouts)
            && (forall i :: 0 <= i < |after.payouts| ==> PayoutOk(after, i))
            && (forall j :: 0 <= j < |after.ledger.journals| ==> JournalOk(after, after.ledger.journals[j]))
            && (forall r :: 0 <= r < |after.outbox| ==> after.outbox[r].payout < |after.payouts|)
  {
    var s, after := w.db, Saved(w.db, k, row, announce);
    forall i | 0 <= i < |after.payouts| ensures PayoutOk(after, i) { SavedPayoutOk(w, k, row, announce, i); }
    forall j | 0 <= j < |after.ledger.journals| ensures JournalOk(after, after.ledger.journals[j]) {
      if j < |s.ledger.journals| { assert JournalOk(s, s.ledger.journals[j]); }
    }
  }

  lemma StartKeeps(w: World, c: CreateCommand)
    requires Inv(w)
    ensures Inv(Next(w, StepStart(c)))
  {
    var s, after := w.db, Next(w, StepStart(c));
    forall j | 0 <= j < |s.ledger.journals|
      ensures JournalOk(after.db, s.ledger.journals[j]) && JournalOne(|s.payouts|)(s.ledger.journals[j]) == 0
    {
      assert JournalOk(s, s.ledger.journals[j]);
    }
    SumZero(s.ledger.journals, JournalOne(|s.payouts|));
    SumZero(s.outbox, SucceededOne(|s.payouts|));
    forall k | 0 <= k < |after.db.payouts| ensures PayoutOk(after.db, k) {
      if k < |s.payouts| { assert PayoutOk(s, k); }
    }
  }

  lemma OtherPostingKeeps(w: World, posting: L.Posting)
    requires Inv(w)
    ensures Inv(Next(w, StepOtherPosting(posting)))
  {
    var s, after := w.db, Next(w, StepOtherPosting(posting)).db;
    forall k | 0 <= k < |s.payouts| ensures PayoutOk(after, k) {
      assert PayoutOk(s, k);
      L.BookSums(s.ledger, posting, JournalOne(k));
    }
    forall j | 0 <= j < |after.ledger.journals| ensures JournalOk(after, after.ledger.journals[j]) {
      if j < |s.ledger.journals| { assert JournalOk(s, s.ledger.journals[j]); }
    }
  }

  lemma NextKeeps(w: World, step: Step)
    requires Inv(w)
    ensures Inv(Next(w, step))
  {
    match step
    case StepStart(c) => StartKeeps(w, c);
    case StepFinish(k, status, reference) =>
      if k in w.executing {
        var built := w.db.payouts[k].(status := PayoutStatus.Pending, reference := None);
        SavedKeeps(w, k, WithProviderStatus(built, status, reference), true);
      }
    case StepAbandon(k) =>
    case StepReconcile(k, answer) =>
      if k < |w.db.payouts| && Candidate(w.db.payouts[k]) && answer.Some? {
        SavedKeeps(w, k, WithProviderStatus(w.db.payouts[k], answer.value.0, answer.value.1),
                   answer.value.0 != w.db.payouts[k].status);
      }
    case StepOtherPosting(posting) => OtherPostingKeeps(w, posting);
  }

  lemma {:induction false} RunKeeps(w: World, steps: seq<Step>)
    requires Inv(w)
    ensures Inv(Run(w, steps))
    decreases |steps|
  {
    if steps != [] {
      NextKeeps(w, steps[0]);
      RunKeeps(Next(w, steps[0]), steps[1..]);
    }
  }

  lemma {:induction false} JournalledAmount(s: Store, journals: seq<L.Journal>, k: nat)
    requires k < |s.payouts|
    requires forall j :: 0 <= j < |journals| ==> JournalOk(s, journals[j])
    ensures SumBy(journals, L.KindAmount(L.OfPayout(k), L.PayoutPaid))
            == s.payouts[k].amount * SumBy(journals, JournalOne(k))
  {
    if journals != [] {
      JournalledAmount(s, journals[..|journals| - 1], k);
      assert JournalOk(s, journals[|journals| - 1]);
    }
  }

  /** Across creation and any number of sweeps, a payout has exactly one journal, of its own amount, and
      exactly one `payout.succeeded` announcement if it is succeeded, and none of them otherwise. */
  lemma OneJournalIffSucceeded(steps: seq<Step>, k: nat)
    requires k < |Run(START, steps).db.payouts|
    ensures var s := Run(START, steps).db;
            if s.payouts[k].status == PayoutStatus.Succeeded
            then Journals(s, k) == 1 && Announcements(s, k) == 1
                 && L.Total(s.ledger, L.OfPayout(k), L.PayoutPaid) == s.payouts[k].amount
            else Journals(s, k) == 0 && Announcements(s, k) == 0
                 && L.Total(s.ledger, L.OfPayout(k), L.PayoutPaid) == 0
  {
    RunKeeps(START, steps);
    var s := Run(START, steps).db;
    assert PayoutOk(s, k);
    JournalledAmount(s, s.ledger.journals, k);
    assert Journals(s, k) == 0 || Journals(s, k) == 1;
  }

  /** In every run: a request is answered with payout k exactly when k was asked for with the same client, key and
      fingerprint; a known key with another fingerprint is a conflict; and a new key starts a payout exactly when
      the amount is positive. */
  lemma CreateAnsweredIff(steps: seq<Step>, c: CreateCommand, k: nat)
    ensures var s := Run(START, steps).db;
            var outcome := CreateOutcomeOf(s, c);
            var known :=
              exists i :: 0 <= i < |s.payouts| && s.payouts[i].client == c.client && s.payouts[i].key == c.key;
            && (outcome == Existing(k) <==>
                  && k < |s.payouts| && s.payouts[k].client == c.client && s.payouts[k].key == c.key
                  && s.payouts[k].fingerprint == c.fingerprint)
            && (outcome == Conflict <==>
                  exists i :: 0 <= i < |s.payouts| && s.payouts[i].client == c.client && s.payouts[i].key == c.key
                              && s.payouts[i].fingerprint != c.fingerprint)
            && (outcome == InvalidAmount <==> !known && c.amount <= 0)
            && (outcome.Started? <==> !known && c.amount > 0)
  {
    RunKeeps(START, steps);
    var s := Run(START, steps).db;
    var found := FindPayout(s.payouts, c.client, c.key);
    if found.Some? { OnlyPayout(s.payouts, c.client, c.key, found.value); }
  }

  lemma OnlyPayout(payouts: seq<PayoutRow>, client: string, key: string, k: nat)
    requires UniqueKeys(payouts) && k < |payouts| && payouts[k].client == client && payouts[k].key == key
    ensures forall i :: 0 <= i < |payouts| && payouts[i].client == client && payouts[i].key == key ==> i == k
  {
  }

  /** An answer about an open payout with a reference becomes its status, with the reference the answer names if any,
      unless another payout of the processor has that reference; a change is announced, and nothing else is touched. */
  lemma AnswerBecomesStatus(s: Store, k: nat, status: PayoutStatus, reference: Option<string>)
    requires k < |s.payouts| && s.payouts[k].status in {PayoutStatus.Pending, PayoutStatus.Processing}
    requires s.payouts[k].reference.Some?
    ensures var row, after := s.payouts[k], Reconcile(s, k, Some((status, reference)));
            var named := if reference.Some? && reference.value != "" then reference else row.reference;
            if exists j :: 0 <= j < |s.payouts| && j != k
                           && s.payouts[j].processor == row.processor && s.payouts[j].reference == named
            then after == s
            else && after.payouts == s.payouts[k := row.(status := status, reference := named)]
                 && after.outbox == s.outbox + (if status == row.status then [] else [StatusRow(k, status)])
                 && (status != PayoutStatus.Succeeded ==> after.ledger == s.ledger)
  {
  }

  /** A payout that succeeds is booked once: what its own client is owed goes down and what its own processor holds
      goes down, by its amount and in its currency. */
  lemma PayoutIsBooked(w: World, k: nat, reference: Option<string>)
    requires Inv(w) && k < |w.db.payouts| && w.db.payouts[k].reference.Some?
    requires w.db.payouts[k].status in {PayoutStatus.Pending, PayoutStatus.Processing}
    ensures var s, row := w.db, w.db.payouts[k];
            var after, n := Reconcile(s, k, Some((PayoutStatus.Succeeded, reference))), |s.ledger.journals|;
            after == s
            || after.ledger.entries
               == s.ledger.entries
                  + [L.Entry(n, L.ModulePayable(row.client), true, row.amount, row.currency)]
                  + [L.Entry(n, L.ProcessorBalance(row.processor), false, row.amount, row.currency)]
  {
    NotJournalledYet(w, k);
  }

  predicate Final(status: PayoutStatus) { status == PayoutStatus.Succeeded || status == PayoutStatus.Failed }

  lemma FinalStaysOneStep(w: World, step: Step, k: nat)
    requires Inv(w) && k < |w.db.payouts| && Final(w.db.payouts[k].status)
    ensures k < |Next(w, step).db.payouts| && Next(w, step).db.payouts[k] == w.db.payouts[k]
  {
  }

  lemma {:induction false} FinalStays(w: World, steps: seq<Step>, k: nat)
    requires Inv(w) && k < |w.db.payouts| && Final(w.db.payouts[k].status)
    ensures k < |Run(w, steps).db.payouts| && Run(w, steps).db.payouts[k] == w.db.payouts[k]
    decreases |steps|
  {
    if steps != [] {
      FinalStaysOneStep(w, steps[0], k);
      NextKeeps(w, steps[0]);
      FinalStays(Next(w, steps[0]), steps[1..], k);
    }
  }

  /** A succeeded or failed payout never changes again, whatever steps follow. */
  lemma FinalPayoutStays(steps: seq<Step>, later: seq<Step>, k: nat)
    requires k < |Run(START, steps).db.payouts| && Final(Run(START, steps).db.payouts[k].status)
    ensures var w, v := Run(START, steps), Run(Run(START, steps), later);
            k < |v.db.payouts| && v.db.payouts[k] == w.db.payouts[k]
  {
    RunKeeps(START, steps);
    FinalStays(Run(START, steps), later, k);
  }

  // --- The use cases -----------------------------------------------------------------------------------

  class PayoutService {
    var payouts: seq<PayoutRow>
    var outbox: seq<StatusRow>
    const ledger: L.LedgerTable

    constructor ()
      ensures Db() == START.db && fresh(ledger)
    {
      payouts, outbox := [], [];
      ledger := new L.LedgerTable();
    }

    function Db(): Store
      reads this, ledger
    {
      Store(payouts, ledger.Value(), outbox)
    }

    method BeginCreate(c: CreateCommand) returns (outcome: CreateOutcome, payout: Payout?)
      modifies this
      ensures outcome == CreateOutcomeOf(old(Db()), c) && Db() == StartCreate(old(Db()), c)
      ensures outcome.Started? ==> payout != null && fresh(payout) && payout.Row() == NewPayout(c)
    {
      payout := null;
      var existing := FindPayout(payouts, c.client, c.key);
      if existing.Some? {
        outcome := if payouts[existing.value].fingerprint != c.fingerprint then Conflict else Existing(existing.value);
        return;
      }
      if c.amount <= 0 {
        return InvalidAmount, null;
      }
      payout := new Payout(NewPayout(c));
      outcome := Started(|payouts|);
      payouts := payouts + [payout.Row()];
    }

    /** Save, journal and announce; false when the store refuses the reference. */
    method Save(id: nat, payout: Payout, announce: bool) returns (ok: bool)
      requires id < |payouts|
      modifies this, ledger
      ensures ok <==> !ReferenceTaken(old(Db()), id, payout.Row())
      ensures Db() == Saved(old(Db()), id, payout.Row(), announce)
    {
      var row := payout.Row();
      if row.reference.Some?
         && exists k :: 0 <= k < |payouts| && k != id
                        && payouts[k].processor == row.processor && payouts[k].reference == row.reference {
        return false;
      }
      payouts := payouts[id := row];
      if row.status == PayoutStatus.Succeeded {
        ledger.RecordPayout(id, row.client, row.processor, row.amount, row.currency);
      }
      if announce {
        outbox := outbox + [StatusRow(id, row.status)];
      }
      return true;
    }

    method EndCreate(id: nat, payout: Payout, status: PayoutStatus, reference: Option<string>) returns (ok: bool)
      requires id < |payouts|
      requires payout.Row() == payouts[id].(status := PayoutStatus.Pending, reference := None)
      modifies this, ledger, payout
      ensures Db() == FinishCreate(old(Db()), id, status, reference)
      ensures ok <==> !ReferenceTaken(old(Db()), id, WithProviderStatus(old(payout.Row()), status, reference))
    {
      var applied := payout.ApplyProviderStatus(status, reference);
      assert applied;
      ok := Save(id, payout, true);
    }

    method ReconcileOne(id: nat, answer: Option<(PayoutStatus, Option<string>)>) returns (ok: bool)
      requires id < |payouts|
      modifies this, ledger
      ensures Db() == Reconcile(old(Db()), id, answer)
      ensures var row := old(payouts[id]);
              ok <==> answer.None?
                      || (PayoutMay(row.status, answer.value.0)
                          && !ReferenceTaken(old(Db()), id, WithProviderStatus(row, answer.value.0, answer.value.1)))
    {
      if answer.None? {
        return true;
      }
      var payout := new Payout(payouts[id]);
      var previous := payout.status;
      ok := payout.ApplyProviderStatus(answer.value.0, answer.value.1);
      if ok {
        ok := Save(id, payout, payout.status != previous);
      }
    }
  }
}
