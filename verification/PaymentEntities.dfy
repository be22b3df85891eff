/** The payment entities and their state machines: rows as stored, and the mutable objects that the
    use cases load, change and save. */
module PaymentEntities {
  import opened Options

  datatype IntentStatus =
    RequiresAction | Processing | Succeeded | Failed | Cancelled | PartiallyRefunded | Refunded

  datatype AttemptStatus =
    Pending | RequiresAction | Processing | Succeeded | Failed | Cancelled | Unknown

  datatype RefundStatus = Pending | Processing | Succeeded | Failed

  datatype PayoutStatus = Pending | Processing | Succeeded | Failed | Disputed

  datatype IntentRow = IntentRow(
    client: string,
    key: string,
    fingerprint: string,
    amount: int,
    currency: string,
    status: IntentStatus,
    refunded: int)

  datatype AttemptRow = AttemptRow(
    intent: nat,
    processor: string,
    amount: int,
    currency: string,
    status: AttemptStatus,
    reference: Option<string>)

  datatype RefundRow = RefundRow(
    intent: nat,
    attempt: nat,
    client: string,
    key: string,
    fingerprint: string,
    amount: int,
    status: RefundStatus)

  datatype PayoutRow = PayoutRow(
    client: string,
    key: string,
    fingerprint: string,
    processor: string,
    amount: int,
    currency: string,
    status: PayoutStatus,
    reference: Option<string>)

  // --- Transition tables -----------------------------------------------------------------------

  function IntentTargets(from: IntentStatus): set<IntentStatus> {
    match from
    case Processing =>
      {IntentStatus.RequiresAction, IntentStatus.Succeeded, IntentStatus.Failed, IntentStatus.Cancelled}
    case RequiresAction =>
      {IntentStatus.Processing, IntentStatus.Succeeded, IntentStatus.Failed, IntentStatus.Cancelled}
    case Failed => {IntentStatus.Processing}
    case Succeeded => {IntentStatus.PartiallyRefunded, IntentStatus.Refunded}
    case PartiallyRefunded => {IntentStatus.PartiallyRefunded, IntentStatus.Refunded}
    case Cancelled => {}
    case Refunded => {}
  }

  function AttemptTargets(from: AttemptStatus): set<AttemptStatus> {
    match from
    case Pending =>
      {AttemptStatus.RequiresAction, AttemptStatus.Processing, AttemptStatus.Succeeded,
       AttemptStatus.Failed, AttemptStatus.Cancelled, AttemptStatus.Unknown}
    case RequiresAction =>
      {AttemptStatus.Processing, AttemptStatus.Succeeded, AttemptStatus.Failed,
       AttemptStatus.Cancelled, AttemptStatus.Unknown}
    case Processing => {AttemptStatus.Succeeded, AttemptStatus.Failed, AttemptStatus.Unknown}
    case Unknown => {AttemptStatus.Processing, AttemptStatus.Succeeded, AttemptStatus.Failed}
    case Succeeded => {}
    case Failed => {}
    case Cancelled => {}
  }

  function RefundTargets(from: RefundStatus): set<RefundStatus> {
    match from
    case Pending => {RefundStatus.Processing, RefundStatus.Succeeded, RefundStatus.Failed}
    case Processing => {RefundStatus.Succeeded, RefundStatus.Failed}
    case Succeeded => {}
    case Failed => {}
  }

  /** A transition to the current status is always accepted and changes nothing. */
  predicate IntentMay(from: IntentStatus, to: IntentStatus) { to == from || to in IntentTargets(from) }

  predicate AttemptMay(from: AttemptStatus, to: AttemptStatus) { to == from || to in AttemptTargets(from) }

  predicate RefundMay(from: RefundStatus, to: RefundStatus) { to == from || to in RefundTargets(from) }

  /** The attempt's outcome is known and no transition leaves it. */
  predicate Decided(status: AttemptStatus) {
    status == AttemptStatus.Succeeded || status == AttemptStatus.Failed || status == AttemptStatus.Cancelled
  }

  /** The tables in one rule each. Intents: an open one goes anywhere but to a refund, a failed one reopens, a captured
      one is only refunded. Attempts: never back to pending, cancelled only before they are processed. Refunds: never
      back. */
  lemma TransitionsAre(i: IntentStatus, j: IntentStatus, a: AttemptStatus, b: AttemptStatus, r: RefundStatus,
                       q: RefundStatus)
    ensures var open := {IntentStatus.Processing, IntentStatus.RequiresAction};
            var refunds := {IntentStatus.PartiallyRefunded, IntentStatus.Refunded};
            IntentMay(i, j) <==>
              || i == j || (i in open && j !in refunds)
              || (i == IntentStatus.Failed && j == IntentStatus.Processing)
              || (i in {IntentStatus.Succeeded, IntentStatus.PartiallyRefunded} && j in refunds)
    ensures AttemptMay(a, b) <==>
              || a == b
              || (!Decided(a) && b != AttemptStatus.Pending
                  && (b == AttemptStatus.RequiresAction ==> a == AttemptStatus.Pending)
                  && (b == AttemptStatus.Cancelled ==>
                        a == AttemptStatus.Pending || a == AttemptStatus.RequiresAction))
    ensures RefundMay(r, q) <==>
              || r == q || (r == RefundStatus.Pending)
              || (r == RefundStatus.Processing && (q == RefundStatus.Succeeded || q == RefundStatus.Failed))
  {
  }

  lemma DecidedIsFinal(from: AttemptStatus)
    ensures Decided(from) <==> (forall to :: AttemptMay(from, to) ==> to == from)
  {
    if !Decided(from) {
      var to := if from == AttemptStatus.Failed then AttemptStatus.Pending else AttemptStatus.Succeeded;
      assert AttemptMay(from, to) && to != from;
    }
  }

  /** The intent status that goes with an attempt status (before any refund is applied). */
  predicate Coupled(attempt: AttemptStatus, intent: IntentStatus) {
    match attempt
    case Pending => intent == IntentStatus.Processing
    case Processing => intent == IntentStatus.Processing
    case Unknown => intent == IntentStatus.Processing
    case RequiresAction => intent == IntentStatus.RequiresAction
    case Succeeded =>
      intent == IntentStatus.Succeeded || intent == IntentStatus.PartiallyRefunded || intent == IntentStatus.Refunded
    case Failed => intent == IntentStatus.Failed
    case Cancelled => intent == IntentStatus.Cancelled
  }

  predicate Refundable(status: IntentStatus) {
    status == IntentStatus.Succeeded || status == IntentStatus.PartiallyRefunded
  }

  /** `refunded` is the part of `amount` given back so far; the status says whether it is none of
      it, some of it or all of it. */
  predicate StatusShowsRefunded(status: IntentStatus, refunded: int, amount: int) {
    && 0 <= refunded <= amount
    && (status == IntentStatus.Refunded <==> refunded == amount)
    && (status == IntentStatus.PartiallyRefunded <==> 0 < refunded < amount)
    && (status == IntentStatus.Succeeded <==> refunded == 0)
  }

  predicate RefundFits(intent: IntentRow, amount: int) {
    Refundable(intent.status) && 0 < amount && intent.refunded + amount <= intent.amount
  }

  /** The row after a refund that fits was applied to it. */
  function WithRefund(intent: IntentRow, amount: int): IntentRow {
    var refunded := intent.refunded + amount;
    intent.(
      refunded := refunded,
      status := if refunded == intent.amount then IntentStatus.Refunded else IntentStatus.PartiallyRefunded)
  }

  lemma WithRefundShowsRefunded(intent: IntentRow, amount: int)
    requires RefundFits(intent, amount)
    requires StatusShowsRefunded(intent.status, intent.refunded, intent.amount)
    ensures var after := WithRefund(intent, amount);
            StatusShowsRefunded(after.status, after.refunded, after.amount)
            && IntentMay(intent.status, after.status)
  {
    var after := WithRefund(intent, amount);
    assert after.status in IntentTargets(intent.status);
  }

  // --- Mutable objects ---------------------------------------------------------------------------

  class PaymentIntent {
    const loaded: IntentRow
    var status: IntentStatus
    var refunded: int

    constructor (row: IntentRow)
      ensures loaded == row && Row() == row
    {
      loaded, status, refunded := row, row.status, row.refunded;
    }

    /** The row that saving this object writes. */
    function Row(): IntentRow
      reads this
    {
      loaded.(status := status, refunded := refunded)
    }

    method TransitionTo(target: IntentStatus) returns (ok: bool)
      modifies this
      ensures ok <==> IntentMay(old(status), target)
      ensures Row() == if ok then old(Row()).(status := target) else old(Row())
    {
      if target == status {
        return true;
      }
      if target !in IntentTargets(status) {
        return false;
      }
      status := target;
      return true;
    }

    method ApplyRefund(amount: int) returns (ok: bool)
      modifies this
      ensures ok <==> RefundFits(old(Row()), amount)
      ensures Row() == if ok then WithRefund(old(Row()), amount) else old(Row())
    {
      if status != IntentStatus.Succeeded && status != IntentStatus.PartiallyRefunded {
        return false;
      }
      if amount <= 0 || refunded + amount > loaded.amount {
        return false;
      }
      refunded := refunded + amount;
      var target := if refunded == loaded.amount then IntentStatus.Refunded else IntentStatus.PartiallyRefunded;
      ok := TransitionTo(target);
    }
  }

  class PaymentAttempt {
    const loaded: AttemptRow
    var status: AttemptStatus
    var reference: Option<string>

    constructor (row: AttemptRow)
      ensures loaded == row && Row() == row
    {
      loaded, status, reference := row, row.status, row.reference;
    }

    function Row(): AttemptRow
      reads this
    {
      loaded.(status := status, reference := reference)
    }

    method TransitionTo(target: AttemptStatus) returns (ok: bool)
      modifies this`status
      ensures ok <==> AttemptMay(old(status), target)
      ensures status == if ok then target else old(status)
    {
      if target == status {
        return true;
      }
      if target !in AttemptTargets(status) {
        return false;
      }
      status := target;
      return true;
    }
  }

  class Refund {
    const loaded: RefundRow
    var status: RefundStatus

    constructor (row: RefundRow)
      ensures loaded == row && Row() == row
    {
      loaded, status := row, row.status;
    }

    function Row(): RefundRow
      reads this
    {
      loaded.(status := status)
    }

    method TransitionTo(target: RefundStatus) returns (ok: bool)
      modifies this
      ensures ok <==> RefundMay(old(status), target)
      ensures status == if ok then target else old(status)
    {
      if target == status {
        return true;
      }
      if target !in RefundTargets(status) {
        return false;
      }
      status := target;
      return true;
    }
  }

  /** A payout only refuses to leave a final status. */
  predicate PayoutMay(from: PayoutStatus, to: PayoutStatus) {
    to == from || (from != PayoutStatus.Succeeded && from != PayoutStatus.Failed)
  }

  class Payout {
    const loaded: PayoutRow
    var status: PayoutStatus
    var reference: Option<string>

    constructor (row: PayoutRow)
      ensures loaded == row && Row() == row
    {
      loaded, status, reference := row, row.status, row.reference;
    }

    function Row(): PayoutRow
      reads this
    {
      loaded.(status := status, reference := reference)
    }

    method ApplyProviderStatus(target: PayoutStatus, providerReference: Option<string>) returns (ok: bool)
      modifies this
      ensures ok <==> PayoutMay(old(status), target)
      ensures Row() == if ok then WithProviderStatus(old(Row()), target, providerReference) else old(Row())
    {
      if (status == PayoutStatus.Succeeded || status == PayoutStatus.Failed) && target != status {
        return false;
      }
      status := target;
      if Given(providerReference) {
        reference := providerReference;
      }
      return true;
    }
  }

  /** A reference that is absent or empty counts as not given. */
  predicate Given(reference: Option<string>) { reference.Some? && reference.value != "" }

  function WithProviderStatus(row: PayoutRow, target: PayoutStatus, reference: Option<string>): PayoutRow {
    row.(status := target, reference := if Given(reference) then reference else row.reference)
  }
}
