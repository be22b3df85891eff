/** The leased outbox: workers claim batches of rows, deliver them with retries and back-off, and give
    up after ten failures. Times are in seconds. */
module Outbox {
  import opened Options

  const LEASE := 300
  const MAX_ATTEMPTS := 10

  datatype Status = Pending | Delivering | Delivered | DeadLetter

  /** `aggregate` is the payment intent or payout the row is about. */
  datatype Row = Row(aggregate: nat, status: Status, attempts: nat, nextAttemptAt: int, lockedAt: Option<int>)

  // --- Row changes -------------------------------------------------------------------------------

  function NewRow(aggregate: nat, now: int): Row { Row(aggregate, Pending, 0, now, None) }

  predicate Claimable(row: Row, now: int) {
    || (row.status == Pending && row.nextAttemptAt <= now)
    || (row.status == Delivering && row.lockedAt.Some? && row.lockedAt.value <= now - LEASE)
  }

  function Locked(row: Row, now: int): Row { row.(status := Delivering, lockedAt := Some(now)) }

  function WithDelivery(row: Row): Row { row.(status := Delivered, lockedAt := None) }

  function Pow2(n: nat): nat { if n == 0 then 1 else 2 * Pow2(n - 1) }

  function Min(a: int, b: int): int { if a < b then a else b }

  /** Seconds to wait after the given number of failures. */
  function Delay(attempts: nat): int { Min(3600, Pow2(Min(attempts, 10))) }

  function WithFailure(row: Row, now: int): Row {
    var attempts := row.attempts + 1;
    if attempts >= MAX_ATTEMPTS then Row(row.aggregate, DeadLetter, attempts, row.nextAttemptAt, None)
    else Row(row.aggregate, Pending, attempts, now + Delay(attempts), None)
  }

  function Requeued(row: Row, now: int): Row { row.(status := Pending, nextAttemptAt := now, lockedAt := None) }

  /** The back office puts back exactly dead letters, asked for with their own payment intent. */
  predicate MayRetry(rows: seq<Row>, aggregate: nat, id: nat) {
    id < |rows| && rows[id].aggregate == aggregate && rows[id].status == DeadLetter
  }

  /** The oldest claimable rows, at most `limit` of them. */
  function Batch(rows: seq<Row>, now: int, limit: nat): (ids: seq<nat>)
    ensures |ids| <= limit
    ensures forall k :: 0 <= k < |ids| ==> ids[k] < |rows| && Claimable(rows[ids[k]], now)
    ensures forall j, k :: 0 <= j < k < |ids| ==> ids[j] < ids[k]
    ensures forall r :: 0 <= r < |rows| && Claimable(rows[r], now) && r !in ids ==>
              |ids| == limit && forall k :: 0 <= k < |ids| ==> ids[k] < r
  {
    if rows == [] then [] else
      var n := |rows| - 1;
      var ids := Batch(rows[..n], now, limit);
      if |ids| < limit && Claimable(rows[n], now) then ids + [n] else ids
  }

  function LockAll(rows: seq<Row>, ids: seq<nat>, now: int): (locked: seq<Row>)
    ensures |locked| == |rows|
    ensures forall r :: 0 <= r < |rows| ==> locked[r] == if r in ids then Locked(rows[r], now) else rows[r]
  {
    seq(|rows|, r requires 0 <= r < |rows| => if r in ids then Locked(rows[r], now) else rows[r])
  }

  // --- Interleavings -------------------------------------------------------------------------------

  /** A worker's batch: when it was claimed and the rows it has not reported on. */
  datatype Hold = Hold(at: int, ids: set<nat>)

  /** The table, the clock, the batches held, and two histories per row: the times of its failures and
      whether the back office ever put it back. */
  datatype System = System(
    now: int, rows: seq<Row>, holds: map<nat, Hold>, failures: seq<seq<int>>, retried: seq<bool>)

  /** A worker is live while its lease runs; a later one has crashed or is too slow to report. */
  predicate Live(sys: System, worker: nat) { worker in sys.holds && sys.now < sys.holds[worker].at + LEASE }

  predicate Holds(sys: System, worker: nat, id: nat) { Live(sys, worker) && id in sys.holds[worker].ids }

  datatype Step =
    | Enqueue(aggregate: nat)
    | Tick(seconds: nat)
    | Claim(worker: nat, limit: nat)
    | Deliver(worker: nat, id: nat)
    | Fail(worker: nat, id: nat)
    | Leave(worker: nat)
    | Retry(aggregate: nat, id: nat)

  function Released(sys: System, worker: nat, id: nat): map<nat, Hold>
    requires worker in sys.holds
  {
    sys.holds[worker := sys.holds[worker].(ids := sys.holds[worker].ids - {id})]
  }

  function Next(sys: System, step: Step): (after: System)
    requires |sys.failures| == |sys.rows| == |sys.retried|
    ensures |after.failures| == |after.rows| == |after.retried|
  {
    match step
    case Enqueue(aggregate) =>
      sys.(rows := sys.rows + [NewRow(aggregate, sys.now)], failures := sys.failures + [[]],
           retried := sys.retried + [false])
    case Tick(seconds) => sys.(now := sys.now + seconds)
    case Claim(worker, limit) =>
      if worker in sys.holds then sys else
        var ids := Batch(sys.rows, sys.now, limit);
        sys.(rows := LockAll(sys.rows, ids, sys.now),
             holds := sys.holds[worker := Hold(sys.now, set id | id in ids)])
    case Deliver(worker, id) =>
      if Holds(sys, worker, id) && id < |sys.rows| then
        sys.(rows := sys.rows[id := WithDelivery(sys.rows[id])], holds := Released(sys, worker, id))
      else sys
    case Fail(worker, id) =>
      if Holds(sys, worker, id) && id < |sys.rows| then
        sys.(rows := sys.rows[id := WithFailure(sys.rows[id], sys.now)], holds := Released(sys, worker, id),
             failures := sys.failures[id := sys.failures[id] + [sys.now]])
      else sys
    case Leave(worker) => sys.(holds := sys.holds - {worker})
    case Retry(aggregate, id) =>
      if MayRetry(sys.rows, aggregate, id) then
        sys.(rows := sys.rows[id := Requeued(sys.rows[id], sys.now)], retried := sys.retried[id := true])
      else sys
  }

  // --- The invariant -----------------------------------------------------------------------------------

  /** The last failure of a row, with the wait that follows it, is over by `time`. */
  predicate WaitedUntil(failures: seq<int>, time: int) {
    failures == [] || failures[|failures| - 1] + Delay(|failures|) <= time
  }

  predicate Spaced(failures: seq<int>) {
    forall k :: 1 <= k < |failures| ==> failures[k - 1] + Delay(k) <= failures[k]
  }

  ghost predicate RowOk(sys: System, r: nat)
    requires r < |sys.rows| && |sys.failures| == |sys.rows| == |sys.retried|
  {
    var row, failures := sys.rows[r], sys.failures[r];
    && (row.lockedAt.Some? <==> row.status == Delivering)
    && (row.lockedAt.Some? ==> row.lockedAt.value <= sys.now)
    && row.attempts == |failures|
    && (row.status == DeadLetter ==> row.attempts >= MAX_ATTEMPTS)
    && (if sys.retried[r] then row.attempts >= MAX_ATTEMPTS else
        && row.attempts <= MAX_ATTEMPTS
        && (row.status == DeadLetter <==> row.attempts == MAX_ATTEMPTS)
        && Spaced(failures)
        && (row.status == Pending ==> WaitedUntil(failures, row.nextAttemptAt))
        && (row.status == Delivering && row.lockedAt.Some? ==> WaitedUntil(failures, row.lockedAt.value)))
  }

  ghost predicate HoldOk(sys: System, worker: nat) {
    Live(sys, worker) ==>
      && sys.holds[worker].at <= sys.now
      && forall id :: id in sys.holds[worker].ids ==>
           && id < |sys.rows| && sys.rows[id].status == Delivering
           && sys.rows[id].lockedAt == Some(sys.holds[worker].at)
  }

  ghost predicate Exclusive(sys: System) {
    forall v, w, id :: Holds(sys, v, id) && Holds(sys, w, id) ==> v == w
  }

  ghost predicate Inv(sys: System) {
    && |sys.failures| == |sys.rows| == |sys.retried|
    && (forall r :: 0 <= r < |sys.rows| ==> RowOk(sys, r))
    && (forall w :: w in sys.holds ==> HoldOk(sys, w))
    && Exclusive(sys)
  }

  const START := System(0, [], map[], [], [])

  lemma ClaimKeepsRows(sys: System, worker: nat, limit: nat)
    requires Inv(sys) && worker !in sys.holds
    ensures var after := Next(sys, Claim(worker, limit));
            forall r :: 0 <= r < |after.rows| ==> RowOk(after, r)
  {
    var after, ids := Next(sys, Claim(worker, limit)), Batch(sys.rows, sys.now, limit);
    forall r | 0 <= r < |after.rows| ensures RowOk(after, r) { assert RowOk(sys, r); }
  }

  /** A row that a live worker holds is not claimable. */
  lemma HeldNotClaimable(sys: System, worker: nat, id: nat)
    requires Inv(sys) && Holds(sys, worker, id)
    ensures id < |sys.rows| && !Claimable(sys.rows[id], sys.now)
  {
    assert HoldOk(sys, worker);
  }

  lemma ClaimKeepsHolds(sys: System, worker: nat, limit: nat)
    requires Inv(sys) && worker !in sys.holds
    ensures var after := Next(sys, Claim(worker, limit));
            (forall w :: w in after.holds ==> HoldOk(after, w)) && Exclusive(after)
  {
    var after, ids := Next(sys, Claim(worker, limit)), Batch(sys.rows, sys.now, limit);
    forall w: nat, id: nat | Holds(after, w, id) && w != worker
      ensures Holds(sys, w, id) && id !in ids && after.rows[id] == sys.rows[id]
    {
      assert Holds(sys, w, id);
      HeldNotClaimable(sys, w, id);
    }
    forall w | w in after.holds ensures HoldOk(after, w) {
      if w != worker && Live(after, w) {
        assert HoldOk(sys, w);
        forall id | id in after.holds[w].ids
          ensures id < |after.rows| && after.rows[id].status == Delivering
          ensures after.rows[id].lockedAt == Some(after.holds[w].at)
        {
          assert Holds(after, w, id);
        }
      }
    }
  }

  lemma ReportKeeps(sys: System, worker: nat, id: nat, row: Row, failures: seq<seq<int>>, after: System)
    requires Inv(sys) && Holds(sys, worker, id) && id < |sys.rows|
    requires row.status != Delivering && |failures| == |sys.rows|
    requires after == sys.(rows := sys.rows[id := row], holds := Released(sys, worker, id), failures := failures)
    requires forall r :: 0 <= r < |sys.rows| && r != id ==> failures[r] == sys.failures[r]
    requires RowOk(after, id)
    ensures Inv(after)
  {
    forall r | 0 <= r < |after.rows| ensures RowOk(after, r) {
      assert RowOk(sys, r);
    }
    forall w, i | Holds(after, w, i) ensures Holds(sys, w, i) && i != id {
      if w == worker { } else { assert Holds(sys, w, i); }
    }
    forall w | w in after.holds ensures HoldOk(after, w) {
      assert HoldOk(sys, w);
      if Live(after, w) {
        forall i | i in after.holds[w].ids
          ensures i < |after.rows| && after.rows[i].status == Delivering
          ensures after.rows[i].lockedAt == Some(after.holds[w].at)
        {
          assert Holds(after, w, i);
        }
      }
    }
  }

  lemma FailedRowOk(sys: System, worker: nat, id: nat)
    requires Inv(sys) && Holds(sys, worker, id) && id < |sys.rows|
    ensures RowOk(Next(sys, Fail(worker, id)), id)
  {
    assert RowOk(sys, id) && HoldOk(sys, worker);
    var failures := sys.failures[id];
    assert Next(sys, Fail(worker, id)).failures[id] == failures + [sys.now];
  }

  lemma NextKeeps(sys: System, step: Step)
    requires Inv(sys)
    ensures Inv(Next(sys, step))
  {
    var after := Next(sys, step);
    match step
    case Enqueue(_) =>
      forall r | 0 <= r < |after.rows| ensures RowOk(after, r) { if r < |sys.rows| { assert RowOk(sys, r); } }
      HoldsKept(sys, after);
    case Tick(seconds) =>
      forall r | 0 <= r < |after.rows| ensures RowOk(after, r) { assert RowOk(sys, r); }
      HoldsKept(sys, after);
    case Claim(worker, limit) =>
      if worker !in sys.holds {
        ClaimKeepsRows(sys, worker, limit);
        ClaimKeepsHolds(sys, worker, limit);
      }
    case Deliver(worker, id) =>
      if Holds(sys, worker, id) && id < |sys.rows| {
        assert RowOk(sys, id) && HoldOk(sys, worker);
        ReportKeeps(sys, worker, id, WithDelivery(sys.rows[id]), sys.failures, after);
      }
    case Fail(worker, id) =>
      if Holds(sys, worker, id) && id < |sys.rows| {
        FailedRowOk(sys, worker, id);
        ReportKeeps(sys, worker, id, WithFailure(sys.rows[id], sys.now), after.failures, after);
      }
    case Leave(worker) =>
      forall r | 0 <= r < |after.rows| ensures RowOk(after, r) { assert RowOk(sys, r); }
      HoldsKept(sys, after);
    case Retry(_, _) =>
      forall r | 0 <= r < |after.rows| ensures RowOk(after, r) { assert RowOk(sys, r); }
      HoldsKept(sys, after);
  }

  /** Steps that leave every delivering row and every remaining batch alone. */
  lemma HoldsKept(sys: System, after: System)
    requires Inv(sys) && sys.now <= after.now && |sys.rows| <= |after.rows|
    requires forall w :: w in after.holds ==> w in sys.holds && after.holds[w] == sys.holds[w]
    requires forall r :: 0 <= r < |sys.rows| && sys.rows[r].status == Delivering ==> after.rows[r] == sys.rows[r]
    ensures (forall w :: w in after.holds ==> HoldOk(after, w)) && Exclusive(after)
  {
    forall w | w in after.holds ensures HoldOk(after, w) { assert HoldOk(sys, w); }
    forall v, w, id | Holds(after, v, id) && Holds(after, w, id) ensures v == w {
      assert Holds(sys, v, id) && Holds(sys, w, id);
    }
  }

  function Run(steps: seq<Step>): (sys: System)
    ensures |sys.failures| == |sys.rows| == |sys.retried|
  {
    if steps == [] then START else Next(Run(steps[..|steps| - 1]), steps[|steps| - 1])
  }

  lemma {:induction false} Reachable(steps: seq<Step>)
    ensures Inv(Run(steps))
  {
    if steps != [] {
      Reachable(steps[..|steps| - 1]);
      NextKeeps(Run(steps[..|steps| - 1]), steps[|steps| - 1]);
    }
  }

  // --- What every run guarantees ---------------------------------------------------------------------------

  /** Each row is held by at most one live worker, and a row is locked exactly while it is delivering. */
  lemma OneHolderPerRow(steps: seq<Step>, v: nat, w: nat, id: nat)
    ensures var sys := Run(steps);
            && (Holds(sys, v, id) && Holds(sys, w, id) ==> v == w)
            && (Holds(sys, v, id) ==> id < |sys.rows| && sys.rows[id].status == Delivering)
            && (id < |sys.rows| ==> (sys.rows[id].lockedAt.Some? <==> sys.rows[id].status == Delivering))
  {
    Reachable(steps);
    if id < |Run(steps).rows| { assert RowOk(Run(steps), id); }
    if Holds(Run(steps), v, id) { assert HoldOk(Run(steps), v); }
  }

  /** Delivered is final, and only a back-office retry takes a row out of the dead letters. */
  lemma FinalStatuses(steps: seq<Step>, step: Step, r: nat)
    requires r < |Run(steps).rows|
    ensures var before, after := Run(steps).rows[r], Next(Run(steps), step);
            && r < |after.rows|
            && (before.status == Delivered ==> after.rows[r] == before)
            && (before.status == DeadLetter && step != Retry(before.aggregate, r) ==> after.rows[r] == before)
            && (before.status == DeadLetter && step == Retry(before.aggregate, r) ==> after.rows[r].status == Pending)
  {
    Reachable(steps);
    assert RowOk(Run(steps), r);
    match step
    case Deliver(worker, id) => if Holds(Run(steps), worker, id) { assert HoldOk(Run(steps), worker); }
    case Fail(worker, id) => if Holds(Run(steps), worker, id) { assert HoldOk(Run(steps), worker); }
    case _ =>
  }

  /** A new row is pending, due at once and never failed; a delivery by the holder makes its row delivered and
      unlocked; a retry by the back office makes a dead letter pending and due at once, its failures kept. */
  lemma RowChangesAre(sys: System, aggregate: nat, worker: nat, r: nat)
    requires Inv(sys)
    ensures Next(sys, Enqueue(aggregate)).rows == sys.rows + [Row(aggregate, Pending, 0, sys.now, None)]
    ensures Holds(sys, worker, r) && r < |sys.rows| ==>
              Next(sys, Deliver(worker, r)).rows
              == sys.rows[r := sys.rows[r].(status := Delivered, lockedAt := None)]
    ensures var after := Next(sys, Retry(aggregate, r)).rows;
            if r < |sys.rows| && sys.rows[r].aggregate == aggregate && sys.rows[r].status == DeadLetter
            then after == sys.rows[r := Row(aggregate, Pending, sys.rows[r].attempts, sys.now, None)]
            else after == sys.rows
  {
    if r < |sys.rows| { assert RowOk(sys, r); }
  }

  /** Ten failures spaced by the back-off last at least 1022 seconds: the sum of 2^k for k from 1 to 9. */
  lemma TenFailuresLast(failures: seq<int>)
    requires Spaced(failures) && |failures| == MAX_ATTEMPTS
    ensures failures[9] - failures[0] >= 1022
  {
    assert Pow2(4) == 16;
    assert Pow2(8) == 16 * Pow2(4);
    assert failures[0] + Delay(1) <= failures[1] && failures[1] + Delay(2) <= failures[2];
    assert failures[2] + Delay(3) <= failures[3] && failures[3] + Delay(4) <= failures[4];
    assert failures[4] + Delay(5) <= failures[5] && failures[5] + Delay(6) <= failures[6];
    assert failures[6] + Delay(7) <= failures[7] && failures[7] + Delay(8) <= failures[8];
    assert failures[8] + Delay(9) <= failures[9];
  }

  /** A row that was never put back is a dead letter exactly after its tenth failure, which comes at
      least 1022 seconds after its first. */
  lemma DiesAtTenthFailure(steps: seq<Step>, r: nat)
    requires r < |Run(steps).rows| && !Run(steps).retried[r]
    ensures var sys := Run(steps);
            && |sys.failures[r]| <= MAX_ATTEMPTS
            && (sys.rows[r].status == DeadLetter <==> |sys.failures[r]| == MAX_ATTEMPTS)
            && (|sys.failures[r]| == MAX_ATTEMPTS ==> sys.failures[r][9] - sys.failures[r][0] >= 1022)
  {
    Reachable(steps);
    assert RowOk(Run(steps), r);
    if |Run(steps).failures[r]| == MAX_ATTEMPTS { TenFailuresLast(Run(steps).failures[r]); }
  }

  /** What a claim takes when its limit does not bind: pending rows whose time has come and deliveries whose lease of
      five minutes is over. It locks those and no others. */
  lemma ClaimTakes(sys: System, worker: nat, limit: nat, r: nat)
    requires Inv(sys) && worker !in sys.holds && r < |sys.rows| && limit >= |sys.rows|
    ensures var row, after := sys.rows[r], Next(sys, Claim(worker, limit)).rows;
            var due := || (row.status == Pending && row.nextAttemptAt <= sys.now)
                       || (row.status == Delivering && row.lockedAt.Some? && sys.now - row.lockedAt.value >= 300);
            && r < |after|
            && after[r] == if due then row.(status := Delivering, lockedAt := Some(sys.now)) else row
  {
    var ids := Batch(sys.rows, sys.now, limit);
    if |ids| == limit { BatchOfAll(ids, |sys.rows|, r); }
  }

  /** As many different rows as the table has are all of them. */
  lemma BatchOfAll(ids: seq<nat>, n: nat, r: nat)
    requires |ids| >= n && r < n && (forall k :: 0 <= k < |ids| ==> ids[k] < n)
    requires forall j, k :: 0 <= j < k < |ids| ==> ids[j] < ids[k]
    ensures r in ids
  {
    IdsGrow(ids, |ids| - 1);
    IdsGrow(ids, r);
    IdsLag(ids, n, r);
    assert ids[r] == r;
  }

  lemma {:induction false} IdsGrow(ids: seq<nat>, k: nat)
    requires k < |ids| && forall i, j :: 0 <= i < j < |ids| ==> ids[i] < ids[j]
    ensures ids[k] >= k
  {
    if k > 0 { IdsGrow(ids, k - 1); }
  }

  lemma {:induction false} IdsLag(ids: seq<nat>, n: nat, k: nat)
    requires n <= |ids| && k < n && forall i :: 0 <= i < |ids| ==> ids[i] < n
    requires forall i, j :: 0 <= i < j < |ids| ==> ids[i] < ids[j]
    ensures ids[k] <= k
    decreases n - k
  {
    if k + 1 < n { IdsLag(ids, n, k + 1); }
  }

  /** The seconds to wait after the first, second, ... ninth failure. */
  const WAITS := [2, 4, 8, 16, 32, 64, 128, 256, 512]

  lemma WaitsAre()
    ensures forall n :: 1 <= n <= 9 ==> Delay(n) == WAITS[n - 1]
  {
    assert Pow2(4) == 16;
    assert Pow2(8) == 16 * Pow2(4);
    assert Pow2(9) == 2 * Pow2(8);
  }

  /** A failure before the tenth puts the row back and makes it claimable again exactly after its wait; the tenth
      makes it a dead letter. */
  lemma ClaimableAgainIff(sys: System, worker: nat, r: nat, time: int)
    requires Inv(sys) && Holds(sys, worker, r) && r < |sys.rows|
    ensures var after := Next(sys, Fail(worker, r)).rows;
            var n := sys.rows[r].attempts + 1;
            && r < |after| && after[r].attempts == n && after[r].lockedAt.None?
            && (if n >= 10 then after[r].status == DeadLetter && !Claimable(after[r], time)
                else after[r].status == Pending && (Claimable(after[r], time) <==> sys.now + WAITS[n - 1] <= time))
  {
    WaitsAre();
    assert RowOk(sys, r);
  }

  /** A retry keeps the failure count, so a row that was put back dies again at its next failure. */
  lemma RetriedRowDiesAtNextFailure(steps: seq<Step>, worker: nat, r: nat)
    requires r < |Run(steps).rows| && Run(steps).retried[r] && Holds(Run(steps), worker, r)
    ensures r < |Next(Run(steps), Fail(worker, r)).rows|
            && Next(Run(steps), Fail(worker, r)).rows[r].status == DeadLetter
  {
    Reachable(steps);
    assert RowOk(Run(steps), r);
  }

  // --- Reports after the lease -----------------------------------------------------------------------------

  /** A worker that reports after its lease saves the row as it had read it. */
  function LateReport(sys: System, id: nat, read: Row, sent: bool): System
    requires id < |sys.rows|
  {
    sys.(rows := sys.rows[id := if sent then WithDelivery(read) else WithFailure(read, sys.now)])
  }

  /** Delivered rows stay delivered, dead letters stay dead, and what live workers hold stays in delivery. */
  ghost predicate Harmless(sys: System, after: System) {
    && |after.rows| == |sys.rows|
    && (forall r :: 0 <= r < |sys.rows| && sys.rows[r].status == Delivered ==> after.rows[r].status == Delivered)
    && (forall r :: 0 <= r < |sys.rows| && sys.rows[r].status == DeadLetter ==> after.rows[r].status == DeadLetter)
    && (forall w :: w in sys.holds ==> HoldOk(after, w))
  }

  /** A late report is harmless if and only if no live worker holds the row by now, a delivered row is reported
      sent, and a dead letter is reported failed by a worker that read it before its last attempt. */
  lemma LateReportIsHarmlessIff(sys: System, id: nat, read: Row, sent: bool)
    requires Inv(sys) && id < |sys.rows|
    ensures Harmless(sys, LateReport(sys, id, read, sent))
            <==> && !(exists worker: nat :: Holds(sys, worker, id))
                 && (sys.rows[id].status == Delivered ==> sent)
                 && (sys.rows[id].status == DeadLetter ==> !sent && read.attempts + 1 >= MAX_ATTEMPTS)
  {
    var after := LateReport(sys, id, read, sent);
    if worker: nat :| Holds(sys, worker, id) {
      assert !HoldOk(after, worker);
    } else {
      forall w | w in sys.holds ensures HoldOk(after, w) {
        assert HoldOk(sys, w);
        if Live(after, w) { assert Holds(sys, w, id) <==> id in sys.holds[w].ids; }
      }
    }
  }

  const CLAIMED := [Enqueue(0)] + [Claim(1, 1)]
  const TAKEN_OVER := CLAIMED + [Tick(LEASE)] + [Claim(2, 1)] + [Deliver(2, 0)]

  lemma RunSnoc(steps: seq<Step>, step: Step)
    ensures Run(steps + [step]) == Next(Run(steps), step)
  {
    assert (steps + [step])[..|steps|] == steps;
  }

  lemma FirstClaim(sys: System)
    requires sys == START.(rows := [NewRow(0, 0)], failures := [[]], retried := [false])
    ensures var after := Next(sys, Claim(1, 1));
            && after.now == 0 && after.rows == [Locked(NewRow(0, 0), 0)] && after.holds.Keys == {1}
            && |after.failures| == |after.retried| == 1
  {
    OnlyRow(NewRow(0, 0), 0);
  }

  lemma ClaimedState()
    ensures var sys := Run(CLAIMED);
            && sys.now == 0 && sys.rows == [Locked(NewRow(0, 0), 0)] && sys.holds.Keys == {1}
            && |sys.failures| == |sys.retried| == 1
  {
    RunSnoc([], Enqueue(0));
    assert [] + [Enqueue(0)] == [Enqueue(0)];
    RunSnoc([Enqueue(0)], Claim(1, 1));
    FirstClaim(Run([Enqueue(0)]));
  }

  /** The second worker claims the row once its lease is over, and delivers it. */
  lemma TakenOver(sys: System)
    requires sys.now == LEASE && sys.rows == [Locked(NewRow(0, 0), 0)] && 2 !in sys.holds
    requires |sys.failures| == |sys.retried| == 1
    ensures var after := Next(Next(sys, Claim(2, 1)), Deliver(2, 0));
            after.now == LEASE && after.rows == [WithDelivery(Locked(NewRow(0, 0), LEASE))]
  {
    OnlyRow(Locked(NewRow(0, 0), 0), LEASE);
    var claimed := Next(sys, Claim(2, 1));
    assert claimed.rows == [Locked(NewRow(0, 0), LEASE)] && Holds(claimed, 2, 0);
  }

  /** A worker that outlives its lease reports a failure for a row that the next worker has delivered: the row is
      pending again, to be delivered once more. */
  lemma LateReportExample()
    ensures |Run(CLAIMED).rows| == 1 && |Run(TAKEN_OVER).rows| == 1 && Run(TAKEN_OVER).rows[0].status == Delivered
    ensures LateReport(Run(TAKEN_OVER), 0, Run(CLAIMED).rows[0], false).rows[0].status == Pending
  {
    ClaimedState();
    RunSnoc(CLAIMED, Tick(LEASE));
    RunSnoc(CLAIMED + [Tick(LEASE)], Claim(2, 1));
    RunSnoc(CLAIMED + [Tick(LEASE)] + [Claim(2, 1)], Deliver(2, 0));
    TakenOver(Run(CLAIMED + [Tick(LEASE)]));
  }

  lemma OnlyRow(row: Row, now: int)
    requires Claimable(row, now)
    ensures Batch([row], now, 1) == [0]
  {
    assert [row][..0] == [];
  }

  // --- The repository and the delivery loop ------------------------------------------------------------------

  datatype Outcome = NoTarget | SendFailed | Sent

  function Reported(row: Row, outcome: Outcome, now: int): Row {
    if outcome.Sent? then WithDelivery(row) else WithFailure(row, now)
  }

  datatype DeliverySummary = DeliverySummary(scanned: nat, delivered: nat, retried: nat, unavailable: nat)

  function Tallied(s: DeliverySummary, outcome: Outcome): DeliverySummary {
    var scanned := s.(scanned := s.scanned + 1);
    match outcome
    case NoTarget => scanned.(unavailable := s.unavailable + 1)
    case SendFailed => scanned.(retried := s.retried + 1)
    case Sent => scanned.(delivered := s.delivered + 1)
  }

  function Summary(outcomes: seq<Outcome>): (s: DeliverySummary)
    ensures s.scanned == |outcomes| == s.delivered + s.retried + s.unavailable
  {
    if outcomes == [] then DeliverySummary(0, 0, 0, 0)
    else Tallied(Summary(outcomes[..|outcomes| - 1]), outcomes[|outcomes| - 1])
  }

  function ReportAll(rows: seq<Row>, ids: seq<nat>, outcomes: seq<Outcome>, times: seq<int>): (after: seq<Row>)
    requires |ids| == |outcomes| == |times| && forall k :: 0 <= k < |ids| ==> ids[k] < |rows|
    ensures |after| == |rows|
  {
    if ids == [] then rows else
      var n := |ids| - 1;
      var earlier := ReportAll(rows, ids[..n], outcomes[..n], times[..n]);
      earlier[ids[n] := Reported(earlier[ids[n]], outcomes[n], times[n])]
  }

  /** A pass reports on every claimed row once, with its own outcome. */
  lemma {:induction false} PassReportsEachRowOnce(rows: seq<Row>, ids: seq<nat>, outcomes: seq<Outcome>,
                                                  times: seq<int>, k: nat)
    requires |ids| == |outcomes| == |times| && (forall j :: 0 <= j < |ids| ==> ids[j] < |rows|)
    requires (forall i, j :: 0 <= i < j < |ids| ==> ids[i] < ids[j]) && k < |ids|
    ensures ReportAll(rows, ids, outcomes, times)[ids[k]] == Reported(rows[ids[k]], outcomes[k], times[k])
  {
    var n := |ids| - 1;
    if k == n {
      OthersUntouched(rows, ids[..n], outcomes[..n], times[..n], ids[n]);
    } else {
      PassReportsEachRowOnce(rows, ids[..n], outcomes[..n], times[..n], k);
    }
  }

  /** A pass touches no row that it did not claim. */
  lemma {:induction false} OthersUntouched(rows: seq<Row>, ids: seq<nat>, outcomes: seq<Outcome>,
                                           times: seq<int>, r: nat)
    requires |ids| == |outcomes| == |times| && (forall j :: 0 <= j < |ids| ==> ids[j] < |rows|)
    requires r < |rows| && r !in ids
    ensures ReportAll(rows, ids, outcomes, times)[r] == rows[r]
  {
    if ids != [] {
      var n := |ids| - 1;
      OthersUntouched(rows, ids[..n], outcomes[..n], times[..n], r);
    }
  }

  datatype RetryOutcome = PutBack | CallbackNotFound | CallbackNotRetryable

  class OutboxTable {
    var rows: seq<Row>

    constructor ()
      ensures rows == []
    {
      rows := [];
    }

    method AddRow(aggregate: nat, now: int)
      modifies this
      ensures rows == old(rows) + [NewRow(aggregate, now)]
    {
      rows := rows + [Row(aggregate, Pending, 0, now, None)];
    }

    method ClaimBatch(now: int, limit: nat) returns (ids: seq<nat>)
      modifies this
      ensures ids == Batch(old(rows), now, limit)
      ensures rows == LockAll(old(rows), ids, now)
    {
      ids := [];
      for r := 0 to |rows|
        invariant ids == Batch(rows[..r], now, limit)
      {
        assert rows[..r + 1][..r] == rows[..r];
        if |ids| < limit && Claimable(rows[r], now) {
          ids := ids + [r];
        }
      }
      assert rows[..|rows|] == rows;
      LockRows(ids, now);
    }

    method LockRows(ids: seq<nat>, now: int)
      requires forall k :: 0 <= k < |ids| ==> ids[k] < |rows|
      requires forall j, k :: 0 <= j < k < |ids| ==> ids[j] < ids[k]
      modifies this
      ensures rows == LockAll(old(rows), ids, now)
    {
      var start := rows;
      for k := 0 to |ids|
        invariant |rows| == |start|
        invariant forall r :: 0 <= r < |rows| ==> rows[r] == if r in ids[..k] then Locked(start[r], now) else start[r]
      {
        var r := ids[k];
        assert r !in ids[..k];
        assert ids[..k + 1] == ids[..k] + [r];
        rows := rows[r := rows[r].(status := Delivering, lockedAt := Some(now))];
      }
      assert ids[..|ids|] == ids;
    }

    method MarkDelivered(id: nat)
      requires id < |rows|
      modifies this
      ensures rows == old(rows)[id := WithDelivery(old(rows)[id])]
    {
      rows := rows[id := rows[id].(status := Delivered, lockedAt := None)];
    }

    method MarkFailed(id: nat, now: int)
      requires id < |rows|
      modifies this
      ensures rows == old(rows)[id := WithFailure(old(rows)[id], now)]
    {
      var row := rows[id].(attempts := rows[id].attempts + 1);
      if row.attempts >= MAX_ATTEMPTS {
        row := row.(status := DeadLetter);
      } else {
        var delay := Min(3600, Pow2(Min(row.attempts, 10)));
        row := row.(status := Pending, nextAttemptAt := now + delay);
      }
      rows := rows[id := row.(lockedAt := None)];
    }

    /** Not found when no such row belongs to the payment intent; nothing changes unless the row is put back. */
    method RetryCallback(aggregate: nat, id: nat, now: int) returns (outcome: RetryOutcome)
      modifies this
      ensures outcome == PutBack <==> MayRetry(old(rows), aggregate, id)
      ensures outcome == CallbackNotFound <==> id >= |old(rows)| || old(rows)[id].aggregate != aggregate
      ensures rows == if outcome == PutBack then old(rows)[id := Requeued(old(rows)[id], now)] else old(rows)
    {
      if id >= |rows| || rows[id].aggregate != aggregate {
        return CallbackNotFound;
      }
      if rows[id].status != DeadLetter {
        return CallbackNotRetryable;
      }
      rows := rows[id := rows[id].(status := Pending, nextAttemptAt := now, lockedAt := None)];
      return PutBack;
    }

    method Report(id: nat, outcome: Outcome, now: int)
      requires id < |rows|
      modifies this
      ensures rows == old(rows)[id := Reported(old(rows)[id], outcome, now)]
    {
      match outcome {
        case NoTarget => MarkFailed(id, now);
        case SendFailed => MarkFailed(id, now);
        case Sent => MarkDelivered(id);
      }
    }

    method ReportBatch(ids: seq<nat>, outcomes: seq<Outcome>, times: seq<int>) returns (summary: DeliverySummary)
      requires |ids| == |outcomes| == |times| && forall k :: 0 <= k < |ids| ==> ids[k] < |rows|
      modifies this
      ensures rows == ReportAll(old(rows), ids, outcomes, times)
      ensures summary == Summary(outcomes)
    {
      summary := DeliverySummary(0, 0, 0, 0);
      for k := 0 to |ids|
        invariant rows == ReportAll(old(rows), ids[..k], outcomes[..k], times[..k])
        invariant summary == Summary(outcomes[..k])
      {
        assert ids[..k + 1][..k] == ids[..k];
        assert outcomes[..k + 1][..k] == outcomes[..k] && times[..k + 1][..k] == times[..k];
        Report(ids[k], outcomes[k], times[k]);
        summary := Tallied(summary, outcomes[k]);
      }
      assert ids[..|ids|] == ids && outcomes[..|ids|] == outcomes && times[..|ids|] == times;
    }

    /** One worker pass without other workers in between: claim and commit, then report row by row. */
    method RunDelivery(now: int, limit: nat, outcomes: seq<Outcome>, times: seq<int>)
      returns (ids: seq<nat>, summary: DeliverySummary)
      requires |outcomes| == |times| == limit
      modifies this
      ensures ids == Batch(old(rows), now, limit)
      ensures rows == ReportAll(LockAll(old(rows), ids, now), ids, outcomes[..|ids|], times[..|ids|])
      ensures summary == Summary(outcomes[..|ids|])
    {
      ids := ClaimBatch(now, limit);
      summary := ReportBatch(ids, outcomes[..|ids|], times[..|ids|]);
    }
  }
}
