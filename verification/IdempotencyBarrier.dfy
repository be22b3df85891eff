/** The protocol shared by payment and payout creation: look the idempotency key up, insert and commit a
    row that the store keeps unique per (client, key), and only then call the provider. Any number of
    requests run it at once and may stop at any point. */
module IdempotencyBarrier {
  import opened Options

  datatype Command = Command(client: string, key: string, fingerprint: string)

  datatype Result = View(row: nat) | Created(row: nat) | Conflict | StoreError

  datatype Phase =
    | LookedUp(command: Command)
    | Inserted(command: Command, row: nat)
    | Refused(command: Command)
    | Called(command: Command, row: nat)
    | Done(command: Command, result: Result)

  /** `calls` lists the rows for which the provider was called, one element per call. */
  datatype System = System(rows: seq<Command>, requests: map<nat, Phase>, calls: seq<nat>)

  const START := System([], map[], [])

  predicate SameKey(a: Command, b: Command) { a.client == b.client && a.key == b.key }

  function FindRow(rows: seq<Command>, command: Command): (found: Option<nat>)
    ensures found.Some? ==> found.value < |rows| && SameKey(rows[found.value], command)
    ensures found.None? ==> forall k :: 0 <= k < |rows| ==> !SameKey(rows[k], command)
  {
    Find(rows, (r: Command) => SameKey(r, command))
  }

  /** The answer to a request whose key is taken. */
  function Answer(rows: seq<Command>, command: Command): Result {
    match FindRow(rows, command)
    case None => StoreError
    case Some(row) => if rows[row].fingerprint == command.fingerprint then View(row) else Conflict
  }

  datatype Step =
    | Arrive(id: nat, command: Command)
    | Insert(id: nat)
    | Reread(id: nat)
    | GiveUp(id: nat)
    | CallProvider(id: nat)
    | Complete(id: nat)
    | Crash(id: nat)

  function Next(sys: System, step: Step): System {
    match step
    case Arrive(id, command) =>
      if id in sys.requests then sys
      else if FindRow(sys.rows, command).Some?
      then sys.(requests := sys.requests[id := Done(command, Answer(sys.rows, command))])
      else sys.(requests := sys.requests[id := LookedUp(command)])
    case Insert(id) =>
      if id in sys.requests && sys.requests[id].LookedUp? then
        var command := sys.requests[id].command;
        if FindRow(sys.rows, command).Some?
        then sys.(requests := sys.requests[id := Refused(command)])
        else sys.(rows := sys.rows + [command], requests := sys.requests[id := Inserted(command, |sys.rows|)])
      else sys
    case Reread(id) =>
      if id in sys.requests && sys.requests[id].Refused? then
        var command := sys.requests[id].command;
        sys.(requests := sys.requests[id := Done(command, Answer(sys.rows, command))])
      else sys
    case GiveUp(id) =>
      if id in sys.requests && sys.requests[id].Refused?
      then sys.(requests := sys.requests[id := Done(sys.requests[id].command, StoreError)])
      else sys
    case CallProvider(id) =>
      if id in sys.requests && sys.requests[id].Inserted? then
        var row := sys.requests[id].row;
        sys.(calls := sys.calls + [row], requests := sys.requests[id := Called(sys.requests[id].command, row)])
      else sys
    case Complete(id) =>
      if id in sys.requests && sys.requests[id].Called?
      then sys.(requests := sys.requests[id := Done(sys.requests[id].command, Created(sys.requests[id].row))])
      else sys
    case Crash(id) => sys.(requests := sys.requests - {id})
  }

  // --- The invariant -------------------------------------------------------------------------------

  ghost predicate UniqueKeys(rows: seq<Command>) {
    forall a, b :: 0 <= a < b < |rows| ==> !SameKey(rows[a], rows[b])
  }

  ghost predicate RequestOk(sys: System, phase: Phase) {
    match phase
    case LookedUp(_) => true
    case Refused(_) => true
    case Inserted(command, row) => row < |sys.rows| && sys.rows[row] == command && row !in sys.calls
    case Called(command, row) => row < |sys.rows| && sys.rows[row] == command
    case Done(command, result) =>
      match result
      case View(row) => row < |sys.rows| && sys.rows[row] == command
      case Created(row) => row < |sys.rows| && sys.rows[row] == command
      case _ => true
  }

  ghost predicate Inv(sys: System) {
    && UniqueKeys(sys.rows)
    && (forall k :: 0 <= k < |sys.calls| ==> sys.calls[k] < |sys.rows|)
    && (forall j, k :: 0 <= j < k < |sys.calls| ==> sys.calls[j] != sys.calls[k])
    && (forall id :: id in sys.requests ==> RequestOk(sys, sys.requests[id]))
    && (forall a, b :: a in sys.requests && b in sys.requests && a != b
                       && sys.requests[a].Inserted? && sys.requests[b].Inserted? ==>
          sys.requests[a].row != sys.requests[b].row)
  }

  /** A request moves to a phase that is not an insertion; the tables stay. */
  lemma PhaseKeeps(sys: System, id: nat, phase: Phase)
    requires Inv(sys) && RequestOk(sys, phase) && !phase.Inserted?
    ensures Inv(sys.(requests := sys.requests[id := phase]))
  {
    var after := sys.(requests := sys.requests[id := phase]);
    forall i | i in after.requests ensures RequestOk(after, after.requests[i]) {
      if i != id { assert RequestOk(sys, sys.requests[i]); }
    }
  }

  lemma InsertKeeps(sys: System, id: nat)
    requires Inv(sys)
    ensures Inv(Next(sys, Insert(id)))
  {
    var after := Next(sys, Insert(id));
    if id in sys.requests && sys.requests[id].LookedUp? {
      var command := sys.requests[id].command;
      if FindRow(sys.rows, command).Some? {
        PhaseKeeps(sys, id, Refused(command));
      } else {
        forall i | i in after.requests ensures RequestOk(after, after.requests[i]) {
          if i != id { assert RequestOk(sys, sys.requests[i]); }
        }
        forall i | i in sys.requests && sys.requests[i].Inserted? ensures sys.requests[i].row < |sys.rows| {
          assert RequestOk(sys, sys.requests[i]);
        }
      }
    }
  }

  lemma CallKeeps(sys: System, id: nat)
    requires Inv(sys)
    ensures Inv(Next(sys, CallProvider(id)))
  {
    var after := Next(sys, CallProvider(id));
    if id in sys.requests && sys.requests[id].Inserted? {
      assert RequestOk(sys, sys.requests[id]);
      forall i | i in after.requests ensures RequestOk(after, after.requests[i]) {
        if i != id { assert RequestOk(sys, sys.requests[i]); }
      }
    }
  }

  lemma NextKeeps(sys: System, step: Step)
    requires Inv(sys)
    ensures Inv(Next(sys, step))
  {
    match step
    case Arrive(id, command) =>
      if id !in sys.requests {
        PhaseKeeps(sys, id, if FindRow(sys.rows, command).Some? then Done(command, Answer(sys.rows, command))
                            else LookedUp(command));
      }
    case Insert(id) => InsertKeeps(sys, id);
    case Reread(id) =>
      if id in sys.requests && sys.requests[id].Refused? {
        PhaseKeeps(sys, id, Done(sys.requests[id].command, Answer(sys.rows, sys.requests[id].command)));
      }
    case GiveUp(id) =>
      if id in sys.requests && sys.requests[id].Refused? {
        PhaseKeeps(sys, id, Done(sys.requests[id].command, StoreError));
      }
    case CallProvider(id) => CallKeeps(sys, id);
    case Complete(id) =>
      if id in sys.requests && sys.requests[id].Called? {
        assert RequestOk(sys, sys.requests[id]);
        PhaseKeeps(sys, id, Done(sys.requests[id].command, Created(sys.requests[id].row)));
      }
    case Crash(id) => CrashKeeps(sys, id);
  }

  lemma CrashKeeps(sys: System, id: nat)
    requires Inv(sys)
    ensures Inv(Next(sys, Crash(id)))
  {
    var after := Next(sys, Crash(id));
    forall i | i in after.requests ensures RequestOk(after, after.requests[i]) {
      assert RequestOk(sys, sys.requests[i]);
    }
  }

  function Run(steps: seq<Step>): System {
    if steps == [] then START else Next(Run(steps[..|steps| - 1]), steps[|steps| - 1])
  }

  lemma {:induction false} Reachable(steps: seq<Step>)
    ensures Inv(Run(steps))
  {
    if steps != [] {
      Reachable(steps[..|steps| - 1]);
      NextKeeps(Run(steps[..|steps| - 1]), steps[|steps| - 1]);
    }
  }

  // --- What every interleaving guarantees ------------------------------------------------------------

  /** No two provider calls are made for the same (client, idempotency key). */
  lemma AtMostOneCallPerKey(steps: seq<Step>, j: nat, k: nat)
    requires j < k < |Run(steps).calls|
    ensures var sys := Run(steps);
            && sys.calls[j] < |sys.rows| && sys.calls[k] < |sys.rows|
            && !SameKey(sys.rows[sys.calls[j]], sys.rows[sys.calls[k]])
  {
    Reachable(steps);
    var sys := Run(steps);
    var a, b := sys.calls[j], sys.calls[k];
    assert a < b || b < a;
  }

  /** A request that gets a row back gets the row of its own client, key and fingerprint; so two
      requests with one key and different fingerprints never both get one. */
  lemma ViewsMatchFingerprint(steps: seq<Step>, a: nat, b: nat)
    requires var requests := Run(steps).requests;
             && a in requests && b in requests && requests[a].Done? && requests[b].Done?
             && (requests[a].result.View? || requests[a].result.Created?)
             && (requests[b].result.View? || requests[b].result.Created?)
    ensures var requests := Run(steps).requests;
            SameKey(requests[a].command, requests[b].command) ==>
              requests[a].result.row == requests[b].result.row && requests[a].command == requests[b].command
  {
    Reachable(steps);
    var sys := Run(steps);
    assert RequestOk(sys, sys.requests[a]) && RequestOk(sys, sys.requests[b]);
    var p, q := sys.requests[a].result.row, sys.requests[b].result.row;
    assert p < q || q < p || p == q;
  }

  /** In every run, a request whose key is taken gets the row that was inserted for the very same request, or a
      conflict when its fingerprint is another one. */
  lemma AnswerIs(steps: seq<Step>, command: Command, row: nat)
    requires row < |Run(steps).rows|
    requires Run(steps).rows[row].client == command.client && Run(steps).rows[row].key == command.key
    ensures Answer(Run(steps).rows, command)
            == if Run(steps).rows[row].fingerprint == command.fingerprint then View(row) else Conflict
  {
    Reachable(steps);
    var rows := Run(steps).rows;
    var found := FindRow(rows, command);
    assert SameKey(rows[row], command) && found.Some?;
    assert found.value == row;
  }
}
