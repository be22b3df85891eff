/** What every run of the wallet keeps: transactions carry exactly the lines their status calls for, accounts
    that may not go negative never do, and nobody takes money out of an account that is not active. */
module WalletSafety {
  import opened Options
  import opened Sums
  import opened WalletLedger
  import opened WalletUseCases

  // --- Runs ----------------------------------------------------------------------------------------

  datatype Step =
    | StepOpen(row: Account)
    | StepSetStatus(account: nat, status: AccountStatus)
    | StepTransfer(call: Call)
    | StepTransferLocked(call: Call)
    | StepDeposit(order: Order, mode: string, reply: GatewayReply)
    | StepWithdraw(order: Order, mode: string, supported: bool, reply: GatewayReply)
    | StepConfirm(tx: nat, mode: string)
    | StepFail(tx: nat, mode: string)
    | StepReconcile(tx: nat, verified: VerifierReply)

  const EMPTY := Wallet([], [], [], map[])

  function Next(w: Wallet, step: Step): Wallet {
    match step
    case StepOpen(account) => w.(accounts := w.accounts + [account])
    case StepSetStatus(a, status) =>
      if a < |w.accounts| then w.(accounts := w.accounts[a := w.accounts[a].(status := status)]) else w
    case StepTransfer(call) => Transfer(w, call).wallet
    case StepTransferLocked(call) => TransferLocked(w, call).wallet
    case StepDeposit(order, mode, reply) => DepositStep(w, order, mode, reply).wallet
    case StepWithdraw(order, mode, supported, reply) => WithdrawStep(w, order, mode, supported, reply).wallet
    case StepConfirm(t, mode) => Confirm(w, t, mode).wallet
    case StepFail(t, mode) => Fail(w, t, mode).wallet
    case StepReconcile(t, reply) => ReconcileStep(w, t, reply).0
  }

  function Run(w: Wallet, steps: seq<Step>): Wallet
    decreases |steps|
  {
    if steps == [] then w else Run(Next(w, steps[0]), steps[1..])
  }

  predicate IsPosition(a: Account) { a.reference.Some? && a.reference.value.FxPosition? }

  /** Only technical accounts may go negative; conversions open their own position accounts; deposits and
      withdrawals go through their own use cases. */
  predicate Legal(step: Step) {
    match step
    case StepOpen(account) => (account.allowsNegative ==> account.kind == Technical) && !IsPosition(account)
    case StepTransfer(call) => call.kind.Movement? && call.status == Completed
    case StepTransferLocked(call) => call.kind.Movement? && call.status == Completed
    case _ => true
  }

  // --- The invariant ----------------------------------------------------------------------------------

  /** A processor's suspense account. */
  predicate Suspense(w: Wallet, a: nat) {
    && a < |w.accounts| && w.accounts[a].kind == Technical && w.accounts[a].allowsNegative
    && w.accounts[a].currency == XOF
    && w.accounts[a].reference.Some? && w.accounts[a].reference.value.Gateway?
  }

  predicate Personal(w: Wallet, a: nat) { a < |w.accounts| && w.accounts[a].kind == User }

  /** The line is on an account of its own currency. */
  predicate InAccountCurrency(w: Wallet, line: Line) {
    line.account < |w.accounts| && w.accounts[line.account].currency == line.money.currency
  }

  predicate Linked(w: Wallet) {
    && (forall i :: 0 <= i < |w.entries| ==> w.entries[i].tx < |w.txs| && InAccountCurrency(w, w.entries[i].line))
    && (forall a :: 0 <= a < |w.accounts| && w.accounts[a].allowsNegative ==> w.accounts[a].kind == Technical)
    && (forall m :: m in w.gateways ==> Suspense(w, w.gateways[m]))
  }

  predicate UniqueKeys(w: Wallet) {
    forall s, t :: 0 <= s < t < |w.txs| ==> w.txs[s].key != w.txs[t].key
  }

  predicate Covered(w: Wallet) {
    forall a :: 0 <= a < |w.accounts| && !w.accounts[a].allowsNegative ==> Balance(w.entries, a) >= 0
  }

  predicate HasReversal(txs: seq<Tx>, t: nat) { exists r :: 0 <= r < |txs| && txs[r].reverses == Some(t) }

  /** One positive amount, out of the first line's account and into the second's. */
  predicate Moves(w: Wallet, lines: seq<Line>) {
    && |lines| == 2 && lines[0].direction == Debit && lines[1].direction == Credit
    && lines[0].money == lines[1].money && lines[0].money.amount > 0
    && InAccountCurrency(w, lines[0]) && InAccountCurrency(w, lines[1])
  }

  predicate DepositOk(w: Wallet, tx: Tx, lines: seq<Line>) {
    && tx.account.Some? && Personal(w, tx.account.value) && w.accounts[tx.account.value].currency == XOF
    && tx.money.Some? && tx.money.value.amount > 0 && tx.money.value.currency == XOF && tx.status != Reversed
    && if tx.status == Completed
       then Moves(w, lines) && Suspense(w, lines[0].account)
            && lines[1] == Line(tx.account.value, Credit, tx.money.value)
       else lines == []
  }

  predicate WithdrawalOk(w: Wallet, tx: Tx, lines: seq<Line>) {
    && tx.account.Some? && Personal(w, tx.account.value) && tx.money.Some? && tx.status != Failed
    && Moves(w, lines) && lines[0] == Line(tx.account.value, Debit, tx.money.value) && Suspense(w, lines[1].account)
  }

  predicate ReversalOk(w: Wallet, tx: Tx, lines: seq<Line>)
    requires tx.reverses.Some?
  {
    var o := tx.reverses.value;
    && o < |w.txs| && w.txs[o].kind == Withdrawal && w.txs[o].reverses.None? && w.txs[o].status == Reversed
    && tx.kind == Withdrawal && tx.status == Completed && tx.key == ReversalKey(o)
    && lines == OppositeOf(LinesOf(w.entries, o))
  }

  predicate TxOk(w: Wallet, t: nat)
    requires t < |w.txs|
  {
    var tx, lines := w.txs[t], LinesOf(w.entries, t);
    if tx.reverses.Some? then ReversalOk(w, tx, lines) else
      match tx.kind
      case Deposit => DepositOk(w, tx, lines)
      case Withdrawal => WithdrawalOk(w, tx, lines) && (tx.status == Reversed <==> HasReversal(w.txs, t))
      case Movement(_) => tx.status == Completed && Moves(w, lines)
  }

  predicate TxsOk(w: Wallet) { forall t :: 0 <= t < |w.txs| ==> TxOk(w, t) }

  predicate Inv(w: Wallet) { Linked(w) && UniqueKeys(w) && Covered(w) && TxsOk(w) }

  // --- What a later state keeps -----------------------------------------------------------------------

  predicate Settled(tx: Tx) { tx.status != Pending || tx.kind != Deposit }

  predicate KeepsTx(w: Wallet, v: Wallet, t: nat)
    requires t < |w.txs| && t < |v.txs|
  {
    && v.txs[t].key == w.txs[t].key && v.txs[t].kind == w.txs[t].kind && v.txs[t].reverses == w.txs[t].reverses
    && (w.txs[t].status != Pending ==> v.txs[t].status == w.txs[t].status)
    && (Settled(w.txs[t]) ==> LinesOf(v.entries, t) == LinesOf(w.entries, t))
  }

  predicate Inactive(w: Wallet, a: nat) {
    a < |w.accounts| && w.accounts[a].status != Active && !w.accounts[a].allowsNegative
  }

  /** Deposits and withdrawals reach users and suspense accounts only. */
  predicate Served(w: Wallet, a: nat) { Personal(w, a) || Suspense(w, a) }

  /** Rows are kept, entries only appended, final transactions frozen, inactive accounts never debited, and
      balances of all other accounts changed by the transfers that name them only. */
  predicate Later(w: Wallet, v: Wallet, named: set<nat>) {
    && w.entries <= v.entries && |w.txs| <= |v.txs| && w.accounts <= v.accounts
    && (forall t :: 0 <= t < |w.txs| ==> KeepsTx(w, v, t))
    && (forall a :: 0 <= a < |w.accounts| && Inactive(w, a) ==> Balance(v.entries, a) >= Balance(w.entries, a))
    && (forall a :: 0 <= a < |w.accounts| && !Served(w, a) && a !in named ==>
          Balance(v.entries, a) == Balance(w.entries, a))
    && (forall a :: |w.accounts| <= a < |v.accounts| && a !in named ==> !IsPosition(v.accounts[a]))
  }

  lemma LaterTransitive(u: Wallet, v: Wallet, w: Wallet, named: set<nat> := {})
    requires Later(u, v, named) && Later(v, w, named)
    ensures Later(u, w, named)
  {
    forall t | 0 <= t < |u.txs| ensures KeepsTx(u, w, t) { assert KeepsTx(u, v, t) && KeepsTx(v, w, t); }
    forall a | 0 <= a < |u.accounts| && Inactive(u, a) ensures Balance(w.entries, a) >= Balance(u.entries, a) {
      assert Inactive(v, a);
    }
    forall a | 0 <= a < |u.accounts| && !Served(u, a) && a !in named
      ensures Balance(w.entries, a) == Balance(u.entries, a)
    {
      assert !Served(v, a);
    }
  }

  // --- Opening accounts ---------------------------------------------------------------------------------

  /** Nothing a transaction's lines are checked against changes when only accounts are added. */
  lemma MoreAccountsKeep(w: Wallet, v: Wallet, named: set<nat> := {})
    requires Inv(w) && v.txs == w.txs && v.entries == w.entries && w.accounts <= v.accounts
    requires Linked(v)
    requires forall a :: |w.accounts| <= a < |v.accounts| && a !in named ==> !IsPosition(v.accounts[a])
    ensures Inv(v) && Later(w, v, named)
    ensures forall a :: |w.accounts| <= a < |v.accounts| ==> Balance(v.entries, a) == 0
  {
    forall t | 0 <= t < |v.txs| ensures TxOk(v, t) { assert TxOk(w, t); }
    forall a | |w.accounts| <= a < |v.accounts| ensures Balance(v.entries, a) == 0 {
      forall i | 0 <= i < |v.entries| ensures OnAccount(a)(v.entries[i]) == 0 { assert w.entries[i].line.account < a; }
      SumZero(v.entries, OnAccount(a));
    }
  }

  lemma OpenKeeps(w: Wallet, account: Account, named: set<nat> := {})
    requires Inv(w) && (account.allowsNegative ==> account.kind == Technical)
    requires IsPosition(account) ==> |w.accounts| in named
    ensures var v := w.(accounts := w.accounts + [account]);
            Inv(v) && Later(w, v, named) && Balance(v.entries, |w.accounts|) == 0
  {
    var v := w.(accounts := w.accounts + [account]);
    forall m | m in v.gateways ensures Suspense(v, v.gateways[m]) { assert Suspense(w, w.gateways[m]); }
    MoreAccountsKeep(w, v, named);
  }

  lemma AccountForKeeps(w: Wallet, user: int)
    requires Inv(w)
    ensures var own := AccountFor(w, user);
            && Inv(own.0) && Later(w, own.0, {}) && own.0.txs == w.txs
            && own.1 < |own.0.accounts| && IsWalletOf(own.0.accounts[own.1], user)
            && !own.0.accounts[own.1].allowsNegative
  {
    OpenKeeps(w, NewUserAccount(user));
  }

  lemma SuspenseForKeeps(w: Wallet, mode: string, currency: Currency)
    requires Inv(w) && currency == XOF
    ensures var s := SuspenseFor(w, mode, currency);
            Inv(s.0) && Later(w, s.0, {}) && Suspense(s.0, s.1) && s.0.txs == w.txs && s.0.entries == w.entries
  {
    var s := SuspenseFor(w, mode, currency);
    if mode in w.gateways {
      assert Suspense(w, w.gateways[mode]);
    } else {
      forall m | m in s.0.gateways ensures Suspense(s.0, s.0.gateways[m]) {
        if m != mode { assert Suspense(w, w.gateways[m]); }
      }
      MoreAccountsKeep(w, s.0);
    }
  }

  /** A transaction's lines are not checked against the status of accounts. */
  lemma OtherStatusKeepsTx(w: Wallet, v: Wallet, t: nat)
    requires t < |w.txs| && TxOk(w, t) && v.txs == w.txs && v.entries == w.entries && |v.accounts| == |w.accounts|
    requires forall a :: 0 <= a < |w.accounts| ==> v.accounts[a] == w.accounts[a].(status := v.accounts[a].status)
    ensures TxOk(v, t)
  {
  }

  lemma OtherStatusKeepsLinks(w: Wallet, v: Wallet)
    requires Linked(w) && v.txs == w.txs && v.entries == w.entries && v.gateways == w.gateways
    requires |v.accounts| == |w.accounts|
    requires forall a :: 0 <= a < |w.accounts| ==> v.accounts[a] == w.accounts[a].(status := v.accounts[a].status)
    ensures Linked(v)
  {
    forall m | m in v.gateways ensures Suspense(v, v.gateways[m]) { assert Suspense(w, w.gateways[m]); }
    forall i | 0 <= i < |v.entries| ensures InAccountCurrency(v, v.entries[i].line) {
      assert InAccountCurrency(w, w.entries[i].line);
    }
  }

  lemma SetStatusKeeps(w: Wallet, a: nat, status: AccountStatus)
    requires Inv(w)
    ensures Inv(Next(w, StepSetStatus(a, status)))
  {
    var v := Next(w, StepSetStatus(a, status));
    OtherStatusKeepsLinks(w, v);
    forall t | 0 <= t < |v.txs| ensures TxOk(v, t) { OtherStatusKeepsTx(w, v, t); }
  }

  // --- Booking a pair -------------------------------------------------------------------------------------

  /** The lines debit an account that may go negative, or one that is active and covers the amount. */
  predicate MayMove(w: Wallet, lines: seq<Line>) {
    && Moves(w, lines)
    && var source := lines[0].account;
       w.accounts[source].allowsNegative
       || (w.accounts[source].status == Active && Balance(w.entries, source) >= lines[0].money.amount)
  }

  /** Balances after a permitted pair. */
  lemma PairKeepsBalances(w: Wallet, v: Wallet, t: nat, lines: seq<Line>)
    requires Covered(w) && MayMove(w, lines) && v.accounts == w.accounts && v.entries == w.entries + Under(t, lines)
    ensures Covered(v)
    ensures forall a :: 0 <= a < |w.accounts| && Inactive(w, a) ==> Balance(v.entries, a) >= Balance(w.entries, a)
    ensures forall a :: 0 <= a < |w.accounts| && a != lines[0].account && a != lines[1].account ==>
              Balance(v.entries, a) == Balance(w.entries, a)
  {
    forall a | 0 <= a < |w.accounts|
      ensures !v.accounts[a].allowsNegative ==> Balance(v.entries, a) >= 0
      ensures Inactive(w, a) ==> Balance(v.entries, a) >= Balance(w.entries, a)
      ensures a != lines[0].account && a != lines[1].account ==> Balance(v.entries, a) == Balance(w.entries, a)
    {
      BalanceUnder(w.entries, t, lines, a);
    }
  }

  lemma NoLinesYet(entries: seq<Entry>, t: nat)
    requires forall i :: 0 <= i < |entries| ==> entries[i].tx < t
    ensures LinesOf(entries, t) == []
  {
    if entries != [] {
      var n := |entries| - 1;
      forall i | 0 <= i < n ensures entries[..n][i].tx < t { assert entries[..n][i] == entries[i]; }
      NoLinesYet(entries[..n], t);
    }
  }

  /** Every older transaction keeps its lines when a new one is booked. */
  lemma BookedLines(w: Wallet, row: Tx, lines: seq<Line>, t: nat)
    requires Linked(w)
    ensures LinesOf(Booked(w, row, lines).entries, t)
            == if t < |w.txs| then LinesOf(w.entries, t)
               else if t == |w.txs| then lines else []
  {
    LinesOfUnder(w.entries, |w.txs|, lines, t);
    if t >= |w.txs| { NoLinesYet(w.entries, t); }
  }

  lemma BookedLinks(w: Wallet, row: Tx, lines: seq<Line>)
    requires Linked(w) && forall i :: 0 <= i < |lines| ==> InAccountCurrency(w, lines[i])
    ensures Linked(Booked(w, row, lines))
  {
    var v := Booked(w, row, lines);
    forall m | m in v.gateways ensures Suspense(v, v.gateways[m]) { assert Suspense(w, w.gateways[m]); }
  }

  /** A row that reverses nothing leaves the others as they were. */
  lemma OldRowsKeep(w: Wallet, row: Tx, lines: seq<Line>, t: nat)
    requires Linked(w) && TxsOk(w) && row.reverses.None? && t < |w.txs|
    ensures TxOk(Booked(w, row, lines), t) && KeepsTx(w, Booked(w, row, lines), t)
  {
    var v := Booked(w, row, lines);
    assert TxOk(w, t);
    BookedLines(w, row, lines, t);
    if w.txs[t].reverses.Some? { BookedLines(w, row, lines, w.txs[t].reverses.value); }
    if HasReversal(w.txs, t) {
      var r :| 0 <= r < |w.txs| && w.txs[r].reverses == Some(t);
      assert v.txs[r].reverses == Some(t);
    }
  }

  predicate NewRowOk(w: Wallet, row: Tx, lines: seq<Line>) {
    match row.kind
    case Deposit => row.status == Pending && DepositOk(w, row, lines)
    case Withdrawal => row.status == Pending && WithdrawalOk(w, row, lines)
    case Movement(_) => row.status == Completed && Moves(w, lines)
  }

  lemma NewRowFits(w: Wallet, row: Tx, lines: seq<Line>)
    requires Linked(w) && TxsOk(w) && row.reverses.None? && NewRowOk(w, row, lines)
    ensures TxOk(Booked(w, row, lines), |w.txs|)
  {
    var v := Booked(w, row, lines);
    BookedLines(w, row, lines, |w.txs|);
    forall r | 0 <= r < |v.txs| ensures v.txs[r].reverses != Some(|w.txs|) {
      if r < |w.txs| { assert TxOk(w, r); }
    }
  }

  /** A new row that reverses nothing: a movement, a withdrawal with its pair, or a deposit without lines. */
  lemma NewRowKeeps(w: Wallet, row: Tx, lines: seq<Line>, named: set<nat>)
    requires Inv(w) && Owner(w.txs, row.key).None? && row.reverses.None? && NewRowOk(w, row, lines)
    requires lines == [] || MayMove(w, lines)
    requires forall i :: 0 <= i < |lines| ==> Served(w, lines[i].account) || lines[i].account in named
    ensures var v := Booked(w, row, lines); Inv(v) && Later(w, v, named)
  {
    var v := Booked(w, row, lines);
    BookedLinks(w, row, lines);
    if lines == [] {
      assert v.entries == w.entries;
    } else {
      PairKeepsBalances(w, v, |w.txs|, lines);
    }
    forall t | 0 <= t < |v.txs| ensures TxOk(v, t) && (t < |w.txs| ==> KeepsTx(w, v, t)) {
      if t < |w.txs| { OldRowsKeep(w, row, lines, t); } else { NewRowFits(w, row, lines); }
    }
  }

  lemma TransferKeeps(w: Wallet, c: Call)
    requires Inv(w) && c.kind.Movement? && c.status == Completed
    ensures Inv(Transfer(w, c).wallet) && Later(w, Transfer(w, c).wallet, {c.source, c.destination})
  {
    var lines := PairOf(c.source, c.destination, c.money);
    PairBalancedIff(lines);
    if Transfer(w, c).answer == Done(|w.txs|, false) {
      NewRowKeeps(w, Header(c.kind, c.status, c.key), lines, {c.source, c.destination});
    }
  }

  // --- Changing a row --------------------------------------------------------------------------------------

  lemma ReferenceKeeps(w: Wallet, t: nat, reference: string)
    requires Inv(w) && t < |w.txs|
    ensures Inv(WithReference(w, t, reference)) && Later(w, WithReference(w, t, reference), {})
  {
    var v := WithReference(w, t, reference);
    SameRowsKeep(w, v);
  }

  /** Provider references, and the amount noted on a movement, play no part in the invariant. */
  lemma SameRowsKeep(w: Wallet, v: Wallet)
    requires Inv(w) && v.accounts == w.accounts && v.entries == w.entries && v.gateways == w.gateways
    requires |v.txs| == |w.txs|
    requires forall t :: 0 <= t < |w.txs| ==>
               && v.txs[t] == w.txs[t].(providerReference := v.txs[t].providerReference, money := v.txs[t].money)
               && (v.txs[t].money == w.txs[t].money || w.txs[t].kind.Movement?)
    ensures Inv(v) && Later(w, v, {})
  {
    forall m | m in v.gateways ensures Suspense(v, v.gateways[m]) { assert Suspense(w, w.gateways[m]); }
    forall t | 0 <= t < |w.txs| ensures TxOk(v, t) && KeepsTx(w, v, t) {
      assert TxOk(w, t);
      SameReversals(w.txs, v.txs, t);
    }
  }

  lemma SameReversals(a: seq<Tx>, b: seq<Tx>, t: nat)
    requires |a| == |b| && forall i :: 0 <= i < |a| ==> a[i].reverses == b[i].reverses
    ensures HasReversal(a, t) <==> HasReversal(b, t)
  {
    if HasReversal(a, t) {
      var r :| 0 <= r < |a| && a[r].reverses == Some(t);
      assert b[r].reverses == Some(t);
    }
  }

  /** A pending row moves to a final status that its lines already call for. */
  lemma MarkKeeps(w: Wallet, t: nat, status: TxStatus)
    requires Inv(w) && t < |w.txs| && w.txs[t].status == Pending
    requires (w.txs[t].kind == Withdrawal && status == Completed) || (w.txs[t].kind == Deposit && status == Failed)
    ensures Inv(Marked(w, t, status)) && Later(w, Marked(w, t, status), {})
  {
    var v := Marked(w, t, status);
    forall m | m in v.gateways ensures Suspense(v, v.gateways[m]) { assert Suspense(w, w.gateways[m]); }
    assert TxOk(w, t);
    forall s | 0 <= s < |w.txs| ensures TxOk(v, s) && KeepsTx(w, v, s) {
      assert TxOk(w, s);
      SameReversals(w.txs, v.txs, s);
    }
  }

  // --- Confirming and failing ---------------------------------------------------------------------------------

  predicate OpenDeposit(w: Wallet, t: nat) {
    t < |w.txs| && w.txs[t].status == Pending && w.txs[t].kind == Deposit
    && w.txs[t].account.Some? && w.txs[t].money.Some?
  }

  lemma DepositBooked(w: Wallet, t: nat, lines: seq<Line>)
    requires Linked(w) && TxsOk(w) && OpenDeposit(w, t)
    requires Moves(w, lines) && Suspense(w, lines[0].account)
    requires lines[1] == Line(w.txs[t].account.value, Credit, w.txs[t].money.value)
    ensures var v := Marked(w.(entries := w.entries + Under(t, lines)), t, Completed);
            TxOk(v, t) && KeepsTx(w, v, t)
  {
    assert TxOk(w, t);
    LinesOfUnder(w.entries, t, lines, t);
  }

  lemma DepositRowKeeps(w: Wallet, t: nat, lines: seq<Line>, s: nat)
    requires Linked(w) && TxsOk(w) && OpenDeposit(w, t) && s < |w.txs|
    requires Moves(w, lines) && Suspense(w, lines[0].account)
    requires lines[1] == Line(w.txs[t].account.value, Credit, w.txs[t].money.value)
    ensures var v := Marked(w.(entries := w.entries + Under(t, lines)), t, Completed);
            TxOk(v, s) && KeepsTx(w, v, s)
  {
    if s == t { DepositBooked(w, t, lines); } else { OtherRowKeeps(w, t, lines, s); }
  }

  lemma OtherRowKeeps(w: Wallet, t: nat, lines: seq<Line>, s: nat)
    requires Linked(w) && TxsOk(w) && OpenDeposit(w, t) && s < |w.txs| && s != t && Moves(w, lines)
    ensures var v := Marked(w.(entries := w.entries + Under(t, lines)), t, Completed);
            TxOk(v, s) && KeepsTx(w, v, s)
  {
    var v := Marked(w.(entries := w.entries + Under(t, lines)), t, Completed);
    assert TxOk(w, t) && TxOk(w, s);
    LinesOfUnder(w.entries, t, lines, s);
    if w.txs[s].reverses.Some? { LinesOfUnder(w.entries, t, lines, w.txs[s].reverses.value); }
    SameReversals(w.txs, v.txs, s);
  }

  lemma DepositLinesKeep(w: Wallet, t: nat, lines: seq<Line>)
    requires Inv(w) && OpenDeposit(w, t)
    requires MayMove(w, lines) && Suspense(w, lines[0].account)
    requires lines[1] == Line(w.txs[t].account.value, Credit, w.txs[t].money.value)
    ensures var v := Marked(w.(entries := w.entries + Under(t, lines)), t, Completed); Inv(v) && Later(w, v, {})
  {
    var v := Marked(w.(entries := w.entries + Under(t, lines)), t, Completed);
    assert TxOk(w, t);
    PairKeepsBalances(w, v, t, lines);
    forall m | m in v.gateways ensures Suspense(v, v.gateways[m]) { assert Suspense(w, w.gateways[m]); }
    forall s | 0 <= s < |w.txs| ensures TxOk(v, s) && KeepsTx(w, v, s) { DepositRowKeeps(w, t, lines, s); }
  }

  /** The pair that confirming an open deposit books, from the suspense account to the deposit's own. */
  lemma ConfirmedPair(w: Wallet, t: nat, mode: string)
    requires Inv(w) && t < |w.txs| && w.txs[t].status == Pending && w.txs[t].kind == Deposit
    ensures w.txs[t].account.Some? && w.txs[t].money.Some?
    ensures var s := SuspenseFor(w, mode, XOF);
            var lines := PairOf(s.1, w.txs[t].account.value, w.txs[t].money.value);
            && Inv(s.0) && Later(w, s.0, {}) && OpenDeposit(s.0, t) && s.0.txs == w.txs
            && MayMove(s.0, lines) && Suspense(s.0, lines[0].account)
            && Confirm(w, t, mode).wallet
               == Marked(s.0.(entries := s.0.entries + Under(t, lines)), t, Completed)
  {
    assert TxOk(w, t);
    SuspenseForKeeps(w, mode, XOF);
    PairBalancedIff(PairOf(SuspenseFor(w, mode, XOF).1, w.txs[t].account.value, w.txs[t].money.value));
  }

  lemma ConfirmDepositKeeps(w: Wallet, t: nat, mode: string)
    requires Inv(w) && t < |w.txs| && w.txs[t].status == Pending && w.txs[t].kind == Deposit
    ensures Inv(Confirm(w, t, mode).wallet) && Later(w, Confirm(w, t, mode).wallet, {})
  {
    ConfirmedPair(w, t, mode);
    var s := SuspenseFor(w, mode, XOF);
    DepositLinesKeep(s.0, t, PairOf(s.1, w.txs[t].account.value, w.txs[t].money.value));
    LaterTransitive(w, s.0, Confirm(w, t, mode).wallet);
  }

  lemma ConfirmKeeps(w: Wallet, t: nat, mode: string)
    requires Inv(w)
    ensures Inv(Confirm(w, t, mode).wallet) && Later(w, Confirm(w, t, mode).wallet, {})
  {
    SameStateIsLater(w);
    if t < |w.txs| && w.txs[t].status == Pending {
      assert TxOk(w, t);
      if w.txs[t].kind == Deposit { ConfirmDepositKeeps(w, t, mode); } else { MarkKeeps(w, t, Completed); }
    }
  }

  /** A withdrawal and its reversal, written together. */
  lemma ReversalKeeps(w: Wallet, t: nat)
    requires Inv(w) && t < |w.txs| && w.txs[t].status == Pending && w.txs[t].kind == Withdrawal
    requires Owner(w.txs, ReversalKey(t)).None?
    ensures Reverse(w, t).answer.Done?
    ensures var v := Marked(Reverse(w, t).wallet, t, Reversed); Inv(v) && Later(w, v, {})
  {
    ReversedPair(w, t);
    var opposite := OppositeOf(LinesOf(w.entries, t));
    var b := Reverse(w, t).wallet;
    var v := Marked(b, t, Reversed);
    var row := b.txs[|w.txs|];
    BackKeepsBalances(w, v, |w.txs|, opposite);
    ReversalLinks(w, row, opposite, t);
    forall s | 0 <= s < |w.txs| ensures TxOk(v, s) && KeepsTx(w, v, s) { ReversedRowKeeps(w, row, opposite, t, s); }
    BookedLines(w, row, opposite, |w.txs|);
    BookedLines(w, row, opposite, t);
  }

  /** The pair that a reversal books, and the row it books it under. */
  lemma ReversedPair(w: Wallet, t: nat)
    requires Inv(w) && t < |w.txs| && w.txs[t].status == Pending && w.txs[t].kind == Withdrawal
    requires Owner(w.txs, ReversalKey(t)).None?
    ensures var opposite, b := OppositeOf(LinesOf(w.entries, t)), Reverse(w, t).wallet;
            && Reverse(w, t).answer.Done? && |b.txs| == |w.txs| + 1
            && MayMoveBack(w, opposite) && (forall i :: 0 <= i < |opposite| ==> InAccountCurrency(w, opposite[i]))
            && b == Booked(w, b.txs[|w.txs|], opposite)
            && b.txs[|w.txs|] == Tx(Withdrawal, Completed, ReversalKey(t), w.txs[t].account, w.txs[t].money, None, None,
                                    Some(t))
            && w.txs[t].reverses.None? && WithdrawalOk(w, w.txs[t], LinesOf(w.entries, t))
  {
    assert TxOk(w, t);
    PairBalancedIff(OppositeOf(LinesOf(w.entries, t)));
  }

  lemma ReversalLinks(w: Wallet, row: Tx, opposite: seq<Line>, t: nat)
    requires Linked(w) && t < |w.txs| && forall i :: 0 <= i < |opposite| ==> InAccountCurrency(w, opposite[i])
    ensures Linked(Marked(Booked(w, row, opposite), t, Reversed))
  {
    BookedLinks(w, row, opposite);
    var v := Marked(Booked(w, row, opposite), t, Reversed);
    forall m | m in v.gateways ensures Suspense(v, v.gateways[m]) { assert Suspense(w, w.gateways[m]); }
  }

  lemma ReversedRowKeeps(w: Wallet, row: Tx, opposite: seq<Line>, t: nat, s: nat)
    requires Linked(w) && TxsOk(w) && row.reverses == Some(t)
    requires t < |w.txs| && w.txs[t].status == Pending && w.txs[t].kind == Withdrawal && s < |w.txs|
    ensures var v := Marked(Booked(w, row, opposite), t, Reversed); TxOk(v, s) && KeepsTx(w, v, s)
  {
    var v := Marked(Booked(w, row, opposite), t, Reversed);
    assert TxOk(w, s) && TxOk(w, t);
    BookedLines(w, row, opposite, s);
    if w.txs[s].reverses.Some? { BookedLines(w, row, opposite, w.txs[s].reverses.value); }
    OneMoreReversal(w.txs, v.txs, t, s);
  }

  lemma OneMoreReversal(a: seq<Tx>, b: seq<Tx>, t: nat, s: nat)
    requires |b| == |a| + 1 && b[|a|].reverses == Some(t)
    requires forall i :: 0 <= i < |a| ==> a[i].reverses == b[i].reverses
    ensures HasReversal(b, s) <==> HasReversal(a, s) || s == t
  {
    if HasReversal(a, s) {
      var r :| 0 <= r < |a| && a[r].reverses == Some(s);
      assert b[r].reverses == Some(s);
    }
  }

  /** The same pair with its lines listed the other way round: credit first. */
  predicate MayMoveBack(w: Wallet, lines: seq<Line>) {
    |lines| == 2 && MayMove(w, [lines[1], lines[0]])
  }

  lemma BackKeepsBalances(w: Wallet, v: Wallet, t: nat, lines: seq<Line>)
    requires Covered(w) && MayMoveBack(w, lines) && v.accounts == w.accounts && v.entries == w.entries + Under(t, lines)
    ensures Covered(v)
    ensures forall a :: 0 <= a < |w.accounts| && Inactive(w, a) ==> Balance(v.entries, a) >= Balance(w.entries, a)
    ensures forall a :: 0 <= a < |w.accounts| && a != lines[0].account && a != lines[1].account ==>
              Balance(v.entries, a) == Balance(w.entries, a)
  {
    forall a | 0 <= a < |w.accounts|
      ensures !v.accounts[a].allowsNegative ==> Balance(v.entries, a) >= 0
      ensures Inactive(w, a) ==> Balance(v.entries, a) >= Balance(w.entries, a)
      ensures a != lines[0].account && a != lines[1].account ==> Balance(v.entries, a) == Balance(w.entries, a)
    {
      BalanceUnder(w.entries, t, lines, a);
    }
  }

  lemma FailKeeps(w: Wallet, t: nat, mode: string)
    requires Inv(w)
    ensures Inv(Fail(w, t, mode).wallet) && Later(w, Fail(w, t, mode).wallet, {})
  {
    if t < |w.txs| && w.txs[t].status == Pending {
      assert TxOk(w, t);
      if w.txs[t].kind == Withdrawal {
        if Owner(w.txs, ReversalKey(t)).None? { ReversalKeeps(w, t); }
      } else {
        MarkKeeps(w, t, Failed);
      }
    }
  }

  lemma InitiatedKeeps(before: Wallet, w: Wallet, t: nat, mode: string, reply: GatewayReply)
    requires Inv(before) && Inv(w) && Later(before, w, {}) && t < |w.txs|
    ensures var v := Initiated(before, w, t, mode, reply).wallet; Inv(v) && Later(before, v, {})
  {
    if reply.Replied? {
      var r := WithReference(w, t, reply.reference);
      ReferenceKeeps(w, t, reply.reference);
      LaterTransitive(before, w, r);
      ConfirmKeeps(r, t, mode);
      FailKeeps(r, t, mode);
      if Settle(r, t, mode, reply.status).answer.Done? {
        LaterTransitive(before, r, Settle(r, t, mode, reply.status).wallet);
      }
    }
  }

  lemma DepositRowAddedKeeps(w: Wallet, account: nat, money: Money, mode: string, key: string)
    requires Inv(w) && Owner(w.txs, key).None? && Personal(w, account) && money.amount > 0
    requires w.accounts[account].currency == money.currency == XOF
    ensures var v := w.(txs := w.txs + [PendingDeposit(key, account, money, mode)]); Inv(v) && Later(w, v, {})
  {
    var row := PendingDeposit(key, account, money, mode);
    assert w.(txs := w.txs + [row]) == Booked(w, row, []) by { assert w.entries + Under(|w.txs|, []) == w.entries; }
    NewRowKeeps(w, row, [], {});
  }

  lemma DepositKeeps(w: Wallet, order: Order, mode: string, reply: GatewayReply)
    requires Inv(w)
    ensures var v := DepositStep(w, order, mode, reply).wallet; Inv(v) && Later(w, v, {})
  {
    if Owner(w.txs, order.key).None? && order.amount > 0 {
      var own := AccountFor(w, order.user);
      AccountForKeeps(w, order.user);
      var money := Money(order.amount, own.0.accounts[own.1].currency);
      var s := SuspenseFor(own.0, mode, money.currency);
      SuspenseForKeeps(own.0, mode, money.currency);
      LaterTransitive(w, own.0, s.0);
      DepositRowAddedKeeps(s.0, own.1, money, mode, order.key);
      var v := s.0.(txs := s.0.txs + [PendingDeposit(order.key, own.1, money, mode)]);
      LaterTransitive(w, s.0, v);
      InitiatedKeeps(w, v, |s.0.txs|, mode, reply);
    } else {
      SameStateIsLater(w);
    }
  }

  /** The withdrawal's transfer together with the fields set right after it. */
  lemma WithdrawalBookedKeeps(w: Wallet, account: nat, suspense: nat, money: Money, mode: string, key: string)
    requires Inv(w) && Owner(w.txs, key).None? && Suspense(w, suspense) && Personal(w, account)
    requires !w.accounts[account].allowsNegative
    requires Transfer(w, Call(account, suspense, money, Withdrawal, Pending, key)).answer.Done?
    ensures var moved := Transfer(w, Call(account, suspense, money, Withdrawal, Pending, key));
            && moved.answer == Done(|w.txs|, false)
            && var v := Described(moved.wallet, |w.txs|, account, money, mode); Inv(v) && Later(w, v, {})
  {
    var lines := PairOf(account, suspense, money);
    PairBalancedIff(lines);
    var row := Tx(Withdrawal, Pending, key, Some(account), Some(money), Some(mode), None, None);
    var moved := Transfer(w, Call(account, suspense, money, Withdrawal, Pending, key));
    NewRowKeeps(w, row, lines, {});
    assert Described(moved.wallet, |w.txs|, account, money, mode) == Booked(w, row, lines) by {
      assert moved.wallet.txs[|w.txs| := row] == w.txs + [row];
    }
  }

  /** The transfer, the withdrawal's fields and the gateway's answer, once both accounts are there. */
  lemma BookedAndInitiatedKeeps(w: Wallet, s: Wallet, account: nat, suspense: nat, money: Money, mode: string,
                                key: string, reply: GatewayReply)
    requires Inv(w) && Inv(s) && Later(w, s, {}) && Owner(s.txs, key).None?
    requires Suspense(s, suspense) && Personal(s, account) && !s.accounts[account].allowsNegative
    requires Transfer(s, Call(account, suspense, money, Withdrawal, Pending, key)).answer.Done?
    ensures var moved := Transfer(s, Call(account, suspense, money, Withdrawal, Pending, key));
            && moved.answer == Done(|s.txs|, false) && |s.txs| < |moved.wallet.txs|
            && var booked := Described(moved.wallet, |s.txs|, account, money, mode);
               var v := Initiated(w, booked, |s.txs|, mode, reply).wallet;
               Inv(v) && Later(w, v, {})
  {
    WithdrawalBookedKeeps(s, account, suspense, money, mode, key);
    var moved := Transfer(s, Call(account, suspense, money, Withdrawal, Pending, key));
    var booked := Described(moved.wallet, |s.txs|, account, money, mode);
    LaterTransitive(w, s, booked);
    InitiatedKeeps(w, booked, |s.txs|, mode, reply);
  }

  lemma WithdrawKeeps(w: Wallet, order: Order, mode: string, supported: bool, reply: GatewayReply)
    requires Inv(w)
    ensures var v := WithdrawStep(w, order, mode, supported, reply).wallet; Inv(v) && Later(w, v, {})
  {
    var own := AccountFor(w, order.user);
    AccountForKeeps(w, order.user);
    SameStateIsLater(w);
    if Owner(w.txs, order.key).None? && order.amount > 0 && supported {
      var money := Money(order.amount, own.0.accounts[own.1].currency);
      var s := SuspenseFor(own.0, mode, money.currency);
      SuspenseForKeeps(own.0, mode, money.currency);
      LaterTransitive(w, own.0, s.0);
      if Transfer(s.0, Call(own.1, s.1, money, Withdrawal, Pending, order.key)).answer.Done? {
        BookedAndInitiatedKeeps(w, s.0, own.1, s.1, money, mode, order.key, reply);
      }
    }
  }

  lemma ReconcileKeeps(w: Wallet, t: nat, reply: VerifierReply)
    requires Inv(w)
    ensures Inv(ReconcileStep(w, t, reply).0) && Later(w, ReconcileStep(w, t, reply).0, {})
  {
    if t < |w.txs| && reply.Verified? {
      var mode := if w.txs[t].mode.Some? then w.txs[t].mode.value else "paystack";
      match reply.status
      case GatewayCompleted => ConfirmKeeps(w, t, mode);
      case GatewayFailed => FailKeeps(w, t, mode);
      case GatewayPending =>
    }
    SameStateIsLater(w);
  }

  lemma SameStateIsLater(w: Wallet)
    ensures Later(w, w, {})
  {
  }

  /** The accounts that a transfer names. */
  function Named(step: Step): set<nat> {
    match step
    case StepTransfer(call) => {call.source, call.destination}
    case StepTransferLocked(call) => {call.source, call.destination}
    case _ => {}
  }

  lemma NextKeeps(w: Wallet, step: Step)
    requires Inv(w) && Legal(step)
    ensures Inv(Next(w, step))
    ensures !step.StepSetStatus? ==> Later(w, Next(w, step), Named(step))
  {
    match step
    case StepOpen(account) => OpenKeeps(w, account);
    case StepSetStatus(a, status) => SetStatusKeeps(w, a, status);
    case StepTransfer(call) => TransferKeeps(w, call);
    case StepTransferLocked(call) => LateKeyLookup(w, call); TransferKeeps(w, call);
    case StepDeposit(order, mode, reply) => DepositKeeps(w, order, mode, reply);
    case StepWithdraw(order, mode, supported, reply) => WithdrawKeeps(w, order, mode, supported, reply);
    case StepConfirm(t, mode) => ConfirmKeeps(w, t, mode);
    case StepFail(t, mode) => FailKeeps(w, t, mode);
    case StepReconcile(t, reply) => ReconcileKeeps(w, t, reply);
  }

  predicate AllLegal(steps: seq<Step>) { forall k :: 0 <= k < |steps| ==> Legal(steps[k]) }

  lemma {:induction false} RunKeeps(w: Wallet, steps: seq<Step>)
    requires Inv(w) && AllLegal(steps)
    ensures Inv(Run(w, steps))
    decreases |steps|
  {
    if steps != [] {
      NextKeeps(w, steps[0]);
      RunKeeps(Next(w, steps[0]), steps[1..]);
    }
  }

  lemma Reachable(steps: seq<Step>)
    requires AllLegal(steps)
    ensures Inv(Run(EMPTY, steps))
  {
    RunKeeps(EMPTY, steps);
  }
}
