/** The payment journal: every posting is one journal row and two entries, and a posting whose
    (kind, reference) was already posted is not posted again. */
module FinancialLedger {
  import opened Options
  import opened Sums

  datatype Kind = Capture | ProcessorFee | RefundPaid | Settlement | PayoutPaid

  /** What a posting was made for. The references of different constructors never coincide. */
  datatype Reference =
    | ProviderEvent(key: string)
    | ReconciledAttempt(attempt: nat)
    | RefundOf(refund: nat)
    | SettlementOf(name: string)
    | PayoutOf(payout: nat)

  datatype Owner = OfIntent(intent: nat) | OfPayout(payout: nat)

  datatype Account =
    | ProcessorReceivable(processor: string)
    | ModulePayable(client: string)
    | ProcessorFeeExpense
    | BankCash
    | ProcessorBalance(processor: string)

  datatype Journal = Journal(owner: Owner, kind: Kind, reference: Reference, amount: int, currency: string)

  datatype Entry = Entry(journal: nat, account: Account, debit: bool, amount: int, currency: string)

  datatype Ledger = Ledger(journals: seq<Journal>, entries: seq<Entry>)

  const EMPTY := Ledger([], [])

  // --- Posting -----------------------------------------------------------------------------------

  predicate Posted(ledger: Ledger, kind: Kind, reference: Reference) {
    exists k :: 0 <= k < |ledger.journals|
                && ledger.journals[k].kind == kind && ledger.journals[k].reference == reference
  }

  function Append(ledger: Ledger, journal: Journal, debit: Account, credit: Account): Ledger {
    var id := |ledger.journals|;
    Ledger(
      ledger.journals + [journal],
      ledger.entries
      + [Entry(id, debit, true, journal.amount, journal.currency)]
      + [Entry(id, credit, false, journal.amount, journal.currency)])
  }

  function Post(ledger: Ledger, journal: Journal, debit: Account, credit: Account): Ledger {
    if Posted(ledger, journal.kind, journal.reference) then ledger else Append(ledger, journal, debit, credit)
  }

  /** The accounting policies: which accounts each kind of event moves. */
  datatype Posting =
    | PostCapture(intent: nat, client: string, processor: string, reference: Reference, amount: int, currency: string)
    | PostFee(intent: nat, processor: string, reference: Reference, amount: int, currency: string)
    | PostRefund(intent: nat, client: string, processor: string, reference: Reference, amount: int, currency: string)
    | PostSettlement(intent: nat, processor: string, reference: Reference, amount: int, currency: string)
    | PostPayout(payout: nat, client: string, processor: string, amount: int, currency: string)

  function JournalOf(posting: Posting): Journal {
    match posting
    case PostCapture(i, _, _, r, a, c) => Journal(OfIntent(i), Capture, r, a, c)
    case PostFee(i, _, r, a, c) => Journal(OfIntent(i), ProcessorFee, r, a, c)
    case PostRefund(i, _, _, r, a, c) => Journal(OfIntent(i), RefundPaid, r, a, c)
    case PostSettlement(i, _, r, a, c) => Journal(OfIntent(i), Settlement, r, a, c)
    case PostPayout(p, _, _, a, c) => Journal(OfPayout(p), PayoutPaid, PayoutOf(p), a, c)
  }

  function DebitOf(posting: Posting): Account {
    match posting
    case PostCapture(_, _, processor, _, _, _) => ProcessorReceivable(processor)
    case PostFee(_, _, _, _, _) => ProcessorFeeExpense
    case PostRefund(_, client, _, _, _, _) => ModulePayable(client)
    case PostSettlement(_, _, _, _, _) => BankCash
    case PostPayout(_, client, _, _, _) => ModulePayable(client)
  }

  function CreditOf(posting: Posting): Account {
    match posting
    case PostCapture(_, client, _, _, _, _) => ModulePayable(client)
    case PostFee(_, processor, _, _, _) => ProcessorReceivable(processor)
    case PostRefund(_, _, processor, _, _, _) => ProcessorReceivable(processor)
    case PostSettlement(_, processor, _, _, _) => ProcessorReceivable(processor)
    case PostPayout(_, _, processor, _, _) => ProcessorBalance(processor)
  }

  function Book(ledger: Ledger, posting: Posting): Ledger {
    Post(ledger, JournalOf(posting), DebitOf(posting), CreditOf(posting))
  }

  // --- Reading -----------------------------------------------------------------------------------

  function KindAmount(owner: Owner, kind: Kind): Journal -> int {
    (j: Journal) => if j.owner == owner && j.kind == kind then j.amount else 0
  }

  function Total(ledger: Ledger, owner: Owner, kind: Kind): int {
    SumBy(ledger.journals, KindAmount(owner, kind))
  }

  /** Booking adds its journal's own value to any sum over the journals, unless it was posted before. */
  lemma BookSums(ledger: Ledger, posting: Posting, f: Journal -> int)
    ensures var j := JournalOf(posting);
            SumBy(Book(ledger, posting).journals, f)
            == SumBy(ledger.journals, f) + (if Posted(ledger, j.kind, j.reference) then 0 else f(j))
  {
    SumAppend(ledger.journals, JournalOf(posting), f);
  }

  /** What the processor still owes for an intent, by the journal totals. */
  function Outstanding(ledger: Ledger, intent: nat): int {
    var owner := OfIntent(intent);
    Total(ledger, owner, Capture) - Total(ledger, owner, RefundPaid)
    - Total(ledger, owner, ProcessorFee) - Total(ledger, owner, Settlement)
  }

  predicate OwnedBy(ledger: Ledger, entry: Entry, owner: Owner) {
    entry.journal < |ledger.journals| && ledger.journals[entry.journal].owner == owner
  }

  /** Debit minus credit on an owner's `processor_receivable:*` entries. */
  function ReceivableAmount(ledger: Ledger, owner: Owner): Entry -> int {
    (e: Entry) => if OwnedBy(ledger, e, owner) && e.account.ProcessorReceivable? then
           (if e.debit then e.amount else -e.amount) else 0
  }

  /** Credit minus debit on an owner's `module_payable:*` entries. */
  function PayableAmount(ledger: Ledger, owner: Owner): Entry -> int {
    (e: Entry) => if OwnedBy(ledger, e, owner) && e.account.ModulePayable? then
           (if e.debit then -e.amount else e.amount) else 0
  }

  function ReceivableBalance(ledger: Ledger, owner: Owner): int {
    SumBy(ledger.entries, ReceivableAmount(ledger, owner))
  }

  function PayableBalance(ledger: Ledger, owner: Owner): int {
    SumBy(ledger.entries, PayableAmount(ledger, owner))
  }

  // --- What every run of postings keeps ------------------------------------------------------------

  /** Journal k owns exactly entries 2k and 2k+1: one debit and one credit of its own amount and
      currency, so every journal balances. */
  ghost predicate Balanced(ledger: Ledger) {
    && |ledger.entries| == 2 * |ledger.journals|
    && forall k {:trigger ledger.journals[k]} :: 0 <= k < |ledger.journals| ==>
         && var j, d, c := ledger.journals[k], ledger.entries[2 * k], ledger.entries[2 * k + 1];
         && d.journal == k && c.journal == k
         && d.debit && !c.debit
         && d.amount == j.amount && c.amount == j.amount
         && d.currency == j.currency && c.currency == j.currency
  }

  /** A (kind, reference) pair is posted at most once. */
  ghost predicate UniqueReferences(ledger: Ledger) {
    forall a, b :: 0 <= a < b < |ledger.journals| ==>
      !(ledger.journals[a].kind == ledger.journals[b].kind
        && ledger.journals[a].reference == ledger.journals[b].reference)
  }

  /** The totals kept per kind and the balances kept per account tell the same story. */
  ghost predicate Reconciles(ledger: Ledger, intent: nat) {
    && ReceivableBalance(ledger, OfIntent(intent)) == Outstanding(ledger, intent)
    && PayableBalance(ledger, OfIntent(intent))
       == Total(ledger, OfIntent(intent), Capture) - Total(ledger, OfIntent(intent), RefundPaid)
  }

  ghost predicate Sound(ledger: Ledger) {
    Balanced(ledger) && UniqueReferences(ledger) && forall intent: nat :: Reconciles(ledger, intent)
  }

  lemma EntriesPointBack(ledger: Ledger, i: nat)
    requires Balanced(ledger) && i < |ledger.entries|
    ensures ledger.entries[i].journal == i / 2 < |ledger.journals|
  {
    var k := i / 2;
    assert i == 2 * k || i == 2 * k + 1;
    assert ledger.journals[k] == ledger.journals[k];
  }

  lemma AppendBalanced(ledger: Ledger, journal: Journal, debit: Account, credit: Account)
    requires Balanced(ledger)
    ensures Balanced(Append(ledger, journal, debit, credit))
  {
  }

  /** Appending two entries adds their values under f, when f values the old entries as g did. */
  lemma SumTwoMore(entries: seq<Entry>, d: Entry, c: Entry, f: Entry -> int, g: Entry -> int)
    requires forall i :: 0 <= i < |entries| ==> f(entries[i]) == g(entries[i])
    ensures SumBy(entries + [d] + [c], f) == SumBy(entries, g) + f(d) + f(c)
  {
    SumAppend(entries, d, f);
    SumAppend(entries + [d], c, f);
    SumSame(entries, f, g);
  }

  /** Appending a journal moves the receivable balance by what its two entries carry, no more. */
  lemma AppendReceivable(ledger: Ledger, journal: Journal, debit: Account, credit: Account, owner: Owner)
    requires Balanced(ledger)
    ensures var own := if journal.owner == owner then journal.amount else 0;
            ReceivableBalance(Append(ledger, journal, debit, credit), owner) == ReceivableBalance(ledger, owner)
            + (if debit.ProcessorReceivable? then own else 0) - (if credit.ProcessorReceivable? then own else 0)
  {
    var after, n := Append(ledger, journal, debit, credit), |ledger.journals|;
    var f, g := ReceivableAmount(after, owner), ReceivableAmount(ledger, owner);
    forall i | 0 <= i < |ledger.entries| ensures f(ledger.entries[i]) == g(ledger.entries[i]) {
      EntriesPointBack(ledger, i);
    }
    SumTwoMore(ledger.entries, Entry(n, debit, true, journal.amount, journal.currency),
               Entry(n, credit, false, journal.amount, journal.currency), f, g);
  }

  lemma AppendPayable(ledger: Ledger, journal: Journal, debit: Account, credit: Account, owner: Owner)
    requires Balanced(ledger)
    ensures var own := if journal.owner == owner then journal.amount else 0;
            PayableBalance(Append(ledger, journal, debit, credit), owner) == PayableBalance(ledger, owner)
            - (if debit.ModulePayable? then own else 0) + (if credit.ModulePayable? then own else 0)
  {
    var after, n := Append(ledger, journal, debit, credit), |ledger.journals|;
    var f, g := PayableAmount(after, owner), PayableAmount(ledger, owner);
    forall i | 0 <= i < |ledger.entries| ensures f(ledger.entries[i]) == g(ledger.entries[i]) {
      EntriesPointBack(ledger, i);
    }
    SumTwoMore(ledger.entries, Entry(n, debit, true, journal.amount, journal.currency),
               Entry(n, credit, false, journal.amount, journal.currency), f, g);
  }

  lemma AppendTotal(ledger: Ledger, journal: Journal, debit: Account, credit: Account, owner: Owner, kind: Kind)
    ensures Total(Append(ledger, journal, debit, credit), owner, kind)
            == Total(ledger, owner, kind) + KindAmount(owner, kind)(journal)
  {
    SumAppend(ledger.journals, journal, KindAmount(owner, kind));
  }

  lemma BookReconciles(ledger: Ledger, posting: Posting, intent: nat)
    requires Balanced(ledger) && Reconciles(ledger, intent)
    ensures Reconciles(Book(ledger, posting), intent)
  {
    var j, d, c := JournalOf(posting), DebitOf(posting), CreditOf(posting);
    AppendReceivable(ledger, j, d, c, OfIntent(intent));
    AppendPayable(ledger, j, d, c, OfIntent(intent));
    AppendTotal(ledger, j, d, c, OfIntent(intent), Capture);
    AppendTotal(ledger, j, d, c, OfIntent(intent), RefundPaid);
    AppendTotal(ledger, j, d, c, OfIntent(intent), ProcessorFee);
    AppendTotal(ledger, j, d, c, OfIntent(intent), Settlement);
  }

  /** Every posting keeps the ledger sound. */
  lemma BookSound(ledger: Ledger, posting: Posting)
    requires Sound(ledger)
    ensures Sound(Book(ledger, posting))
  {
    AppendBalanced(ledger, JournalOf(posting), DebitOf(posting), CreditOf(posting));
    forall intent: nat ensures Reconciles(Book(ledger, posting), intent) {
      BookReconciles(ledger, posting, intent);
    }
  }

  function BookAll(ledger: Ledger, postings: seq<Posting>): Ledger {
    if postings == [] then ledger else Book(BookAll(ledger, postings[..|postings| - 1]), postings[|postings| - 1])
  }

  /** After any run of captures, fees, refunds, settlements and payouts: every journal balances, no
      (kind, reference) was posted twice, and for every intent the outstanding total is the balance
      of its processor receivables and its module payable is gross minus refunded. */
  lemma {:induction false} EveryRunIsSound(postings: seq<Posting>)
    ensures Sound(BookAll(EMPTY, postings))
  {
    if postings != [] {
      EveryRunIsSound(postings[..|postings| - 1]);
      BookSound(BookAll(EMPTY, postings[..|postings| - 1]), postings[|postings| - 1]);
    }
  }

  // --- Account by account ------------------------------------------------------------------------------

  /** Debit minus credit on one account. */
  function OnAccount(account: Account): Entry -> int {
    (e: Entry) => if e.account != account then 0 else if e.debit then e.amount else -e.amount
  }

  function BalanceOn(ledger: Ledger, account: Account): int { SumBy(ledger.entries, OnAccount(account)) }

  /** The postings of a run that were booked: those whose event was not posted before. */
  function Accepted(postings: seq<Posting>): seq<Posting> {
    if postings == [] then [] else
      var n := |postings| - 1;
      var last, j := postings[n], JournalOf(postings[n]);
      if Posted(BookAll(EMPTY, postings[..n]), j.kind, j.reference) then Accepted(postings[..n])
      else Accepted(postings[..n]) + [last]
  }

  /** What a posting adds to what a processor owes: a capture, less its fee, refunds and settlements. */
  function OwedBy(processor: string): Posting -> int {
    (p: Posting) =>
      if p.PostPayout? || p.processor != processor then 0 else if p.PostCapture? then p.amount else -p.amount
  }

  /** What a posting adds to what is owed to a client: a capture, less refunds and payouts. */
  function OwedTo(client: string): Posting -> int {
    (p: Posting) =>
      if p.PostFee? || p.PostSettlement? || p.client != client then 0
      else if p.PostCapture? then p.amount else -p.amount
  }

  function FeeOf(p: Posting): int { if p.PostFee? then p.amount else 0 }

  function SettledBy(p: Posting): int { if p.PostSettlement? then p.amount else 0 }

  function PaidOutBy(processor: string): Posting -> int {
    (p: Posting) => if p.PostPayout? && p.processor == processor then p.amount else 0
  }

  lemma AppendOnAccount(ledger: Ledger, journal: Journal, debit: Account, credit: Account, account: Account)
    ensures BalanceOn(Append(ledger, journal, debit, credit), account)
            == BalanceOn(ledger, account) + (if debit == account then journal.amount else 0)
               - (if credit == account then journal.amount else 0)
  {
    var n := |ledger.journals|;
    SumTwoMore(ledger.entries, Entry(n, debit, true, journal.amount, journal.currency),
               Entry(n, credit, false, journal.amount, journal.currency), OnAccount(account), OnAccount(account));
  }

  /** Across any run of postings, every account holds what the booked ones make it: what each processor owes, what
      is owed to each client, the fees, the settled cash and what each processor paid out. */
  lemma {:induction false} EveryAccountAddsUp(postings: seq<Posting>, processor: string, client: string)
    ensures var ledger, booked := BookAll(EMPTY, postings), Accepted(postings);
            && BalanceOn(ledger, ProcessorReceivable(processor)) == SumBy(booked, OwedBy(processor))
            && BalanceOn(ledger, ModulePayable(client)) == -SumBy(booked, OwedTo(client))
            && BalanceOn(ledger, ProcessorFeeExpense) == SumBy(booked, FeeOf)
            && BalanceOn(ledger, BankCash) == SumBy(booked, SettledBy)
            && BalanceOn(ledger, ProcessorBalance(processor)) == -SumBy(booked, PaidOutBy(processor))
  {
    if postings != [] {
      var n := |postings| - 1;
      EveryAccountAddsUp(postings[..n], processor, client);
      var before, j := BookAll(EMPTY, postings[..n]), JournalOf(postings[n]);
      if !Posted(before, j.kind, j.reference) {
        OneMoreAddsUp(before, Accepted(postings[..n]), postings[n], processor, client);
      }
    }
  }

  lemma OneMoreAddsUp(ledger: Ledger, booked: seq<Posting>, p: Posting, processor: string, client: string)
    requires !Posted(ledger, JournalOf(p).kind, JournalOf(p).reference)
    ensures var after, more := Book(ledger, p), booked + [p];
            && BalanceOn(after, ProcessorReceivable(processor)) - SumBy(more, OwedBy(processor))
               == BalanceOn(ledger, ProcessorReceivable(processor)) - SumBy(booked, OwedBy(processor))
            && BalanceOn(after, ModulePayable(client)) + SumBy(more, OwedTo(client))
               == BalanceOn(ledger, ModulePayable(client)) + SumBy(booked, OwedTo(client))
            && BalanceOn(after, ProcessorFeeExpense) - SumBy(more, FeeOf)
               == BalanceOn(ledger, ProcessorFeeExpense) - SumBy(booked, FeeOf)
            && BalanceOn(after, BankCash) - SumBy(more, SettledBy)
               == BalanceOn(ledger, BankCash) - SumBy(booked, SettledBy)
            && BalanceOn(after, ProcessorBalance(processor)) + SumBy(more, PaidOutBy(processor))
               == BalanceOn(ledger, ProcessorBalance(processor)) + SumBy(booked, PaidOutBy(processor))
  {
    var j, d, c := JournalOf(p), DebitOf(p), CreditOf(p);
    AppendOnAccount(ledger, j, d, c, ProcessorReceivable(processor));
    AppendOnAccount(ledger, j, d, c, ModulePayable(client));
    AppendOnAccount(ledger, j, d, c, ProcessorFeeExpense);
    AppendOnAccount(ledger, j, d, c, BankCash);
    AppendOnAccount(ledger, j, d, c, ProcessorBalance(processor));
    SumAppend(booked, p, OwedBy(processor));
    SumAppend(booked, p, OwedTo(client));
    SumAppend(booked, p, FeeOf);
    SumAppend(booked, p, SettledBy);
    SumAppend(booked, p, PaidOutBy(processor));
  }

  lemma BookMarksPosted(ledger: Ledger, posting: Posting)
    ensures Posted(Book(ledger, posting), JournalOf(posting).kind, JournalOf(posting).reference)
  {
    var j := JournalOf(posting);
    if !Posted(ledger, j.kind, j.reference) {
      var after := Book(ledger, posting);
      assert after.journals[|ledger.journals|] == j;
    }
  }

  lemma BookKeepsPosted(ledger: Ledger, posting: Posting, kind: Kind, reference: Reference)
    requires Posted(ledger, kind, reference)
    ensures Posted(Book(ledger, posting), kind, reference)
  {
    var k :| 0 <= k < |ledger.journals|
             && ledger.journals[k].kind == kind && ledger.journals[k].reference == reference;
    assert Book(ledger, posting).journals[k] == ledger.journals[k];
  }

  lemma {:induction false} BookAllKeepsPosted(ledger: Ledger, postings: seq<Posting>, kind: Kind, reference: Reference)
    requires Posted(ledger, kind, reference)
    ensures Posted(BookAll(ledger, postings), kind, reference)
  {
    if postings != [] {
      BookAllKeepsPosted(ledger, postings[..|postings| - 1], kind, reference);
      BookKeepsPosted(BookAll(ledger, postings[..|postings| - 1]), postings[|postings| - 1], kind, reference);
    }
  }

  /** Reposting an event later, after any other postings and even with another amount, changes nothing. */
  lemma RepostChangesNothing(ledger: Ledger, first: Posting, between: seq<Posting>, again: Posting)
    requires JournalOf(first).kind == JournalOf(again).kind
    requires JournalOf(first).reference == JournalOf(again).reference
    ensures var later := BookAll(Book(ledger, first), between); Book(later, again) == later
  {
    BookMarksPosted(ledger, first);
    BookAllKeepsPosted(Book(ledger, first), between, JournalOf(first).kind, JournalOf(first).reference);
  }

  /** The guard of a settlement, and the state it leaves. */
  predicate SettlementFits(ledger: Ledger, intent: nat, amount: int) { 0 < amount <= Outstanding(ledger, intent) }

  /** An accepted settlement takes exactly its amount off the outstanding total and leaves it
      non-negative; one whose reference was used before leaves the total as it was. */
  lemma SettlementNeverOverdraws(ledger: Ledger, intent: nat, processor: string, name: string, amount: int,
                                 currency: string)
    requires SettlementFits(ledger, intent, amount)
    ensures var posting := PostSettlement(intent, processor, SettlementOf(name), amount, currency);
            var after := Book(ledger, posting);
            && 0 <= Outstanding(after, intent)
            && Outstanding(after, intent) == Outstanding(ledger, intent)
               - (if Posted(ledger, Settlement, SettlementOf(name)) then 0 else amount)
  {
    var posting := PostSettlement(intent, processor, SettlementOf(name), amount, currency);
    var j, d, c := JournalOf(posting), DebitOf(posting), CreditOf(posting);
    AppendTotal(ledger, j, d, c, OfIntent(intent), Capture);
    AppendTotal(ledger, j, d, c, OfIntent(intent), RefundPaid);
    AppendTotal(ledger, j, d, c, OfIntent(intent), ProcessorFee);
    AppendTotal(ledger, j, d, c, OfIntent(intent), Settlement);
  }

  // --- The repository and its accounting policies ------------------------------------------------

  datatype Summary = Summary(gross: int, refunded: int, fees: int, netExpected: int, settled: int, outstanding: int)

  class LedgerTable {
    var journals: seq<Journal>
    var entries: seq<Entry>

    constructor ()
      ensures Value() == EMPTY
    {
      journals, entries := [], [];
    }

    function Value(): Ledger
      reads this
    {
      Ledger(journals, entries)
    }

    method Find(kind: Kind, reference: Reference) returns (found: Option<nat>)
      ensures found.Some? <==> Posted(Value(), kind, reference)
      ensures found.Some? ==> found.value < |journals|
                              && journals[found.value].kind == kind && journals[found.value].reference == reference
    {
      for k := 0 to |journals|
        invariant forall i :: 0 <= i < k ==> !(journals[i].kind == kind && journals[i].reference == reference)
      {
        if journals[k].kind == kind && journals[k].reference == reference {
          return Some(k);
        }
      }
      return None;
    }

    /** Returns the row of the posting: the one that was there, or the one added. */
    method PostOnce(journal: Journal, debit: Account, credit: Account) returns (id: nat)
      modifies this
      ensures Value() == Post(old(Value()), journal, debit, credit)
      ensures id < |journals| && journals[id].kind == journal.kind && journals[id].reference == journal.reference
    {
      var existing := Find(journal.kind, journal.reference);
      if existing.Some? {
        return existing.value;
      }
      id := |journals|;
      journals := journals + [journal];
      entries := entries
        + [Entry(id, debit, true, journal.amount, journal.currency)]
        + [Entry(id, credit, false, journal.amount, journal.currency)];
    }

    method TotalFor(owner: Owner, kind: Kind) returns (total: int)
      ensures total == Total(Value(), owner, kind)
    {
      total := 0;
      for k := 0 to |journals|
        invariant total == SumBy(journals[..k], KindAmount(owner, kind))
      {
        assert journals[..k + 1] == journals[..k] + [journals[k]];
        SumAppend(journals[..k], journals[k], KindAmount(owner, kind));
        if journals[k].owner == owner && journals[k].kind == kind {
          total := total + journals[k].amount;
        }
      }
      assert journals[..|journals|] == journals;
    }

    method Summarise(intent: nat) returns (s: Summary)
      ensures s.outstanding == Outstanding(Value(), intent)
      ensures s.gross == Total(Value(), OfIntent(intent), Capture)
      ensures s.refunded == Total(Value(), OfIntent(intent), RefundPaid)
      ensures s.fees == Total(Value(), OfIntent(intent), ProcessorFee)
      ensures s.settled == Total(Value(), OfIntent(intent), Settlement)
      ensures s.netExpected == s.outstanding + s.settled
    {
      var owner := OfIntent(intent);
      var gross := TotalFor(owner, Capture);
      var refunds := TotalFor(owner, RefundPaid);
      var fees := TotalFor(owner, ProcessorFee);
      var settlements := TotalFor(owner, Settlement);
      s := Summary(gross, refunds, fees, gross - refunds - fees, settlements, gross - refunds - fees - settlements);
    }

    method RecordCapture(intent: nat, client: string, processor: string, reference: Reference,
                         amount: int, currency: string, fee: int)
      modifies this
      ensures Value() == Captured(old(Value()), intent, client, processor, reference, amount, currency, fee)
    {
      var _ := PostOnce(Journal(OfIntent(intent), Capture, reference, amount, currency),
                        ProcessorReceivable(processor), ModulePayable(client));
      if fee > 0 {
        var _ := PostOnce(Journal(OfIntent(intent), ProcessorFee, reference, fee, currency),
                          ProcessorFeeExpense, ProcessorReceivable(processor));
      }
    }

    method RecordRefund(intent: nat, client: string, processor: string, refund: nat, amount: int, currency: string)
      modifies this
      ensures Value() == Book(old(Value()), PostRefund(intent, client, processor, RefundOf(refund), amount, currency))
    {
      var _ := PostOnce(Journal(OfIntent(intent), RefundPaid, RefundOf(refund), amount, currency),
                        ModulePayable(client), ProcessorReceivable(processor));
    }

    /** False when the amount is not positive or exceeds what is outstanding; nothing is posted then. */
    method RecordSettlement(intent: nat, processor: string, name: string, amount: int, currency: string)
      returns (ok: bool)
      modifies this
      ensures ok <==> SettlementFits(old(Value()), intent, amount)
      ensures Value() == if ok
                         then Book(old(Value()),
                                   PostSettlement(intent, processor, SettlementOf(name), amount, currency))
                         else old(Value())
    {
      var summary := Summarise(intent);
      if amount <= 0 || amount > summary.outstanding {
        return false;
      }
      var _ := PostOnce(Journal(OfIntent(intent), Settlement, SettlementOf(name), amount, currency),
                        BankCash, ProcessorReceivable(processor));
      return true;
    }

    method RecordPayout(payout: nat, client: string, processor: string, amount: int, currency: string)
      modifies this
      ensures Value() == Book(old(Value()), PostPayout(payout, client, processor, amount, currency))
    {
      var _ := PostOnce(Journal(OfPayout(payout), PayoutPaid, PayoutOf(payout), amount, currency),
                        ModulePayable(client), ProcessorBalance(processor));
    }
  }

  /** A capture, and the processor's fee when there is one. */
  function Captured(ledger: Ledger, intent: nat, client: string, processor: string, reference: Reference,
                    amount: int, currency: string, fee: int): Ledger {
    var first := Book(ledger, PostCapture(intent, client, processor, reference, amount, currency));
    if fee > 0 then Book(first, PostFee(intent, processor, reference, fee, currency)) else first
  }
}
