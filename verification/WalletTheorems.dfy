/** What the wallet promises over whole runs. */
module WalletTheorems {
  import opened Options
  import opened Sums
  import opened WalletLedger
  import opened WalletUseCases
  import opened WalletSafety

  // --- Deposits and withdrawals ---------------------------------------------------------------------

  /** A deposit carries exactly one balanced pair, from a suspense account to its own, if and only if it is
      completed; otherwise it carries nothing. */
  lemma DepositBookedIffCompleted(steps: seq<Step>, t: nat)
    requires AllLegal(steps) && t < |Run(EMPTY, steps).txs| && Run(EMPTY, steps).txs[t].kind == Deposit
    ensures var w := Run(EMPTY, steps);
            var tx, lines := w.txs[t], LinesOf(w.entries, t);
            && tx.account.Some? && tx.money.Some? && tx.status != Reversed
            && (tx.status == Completed ==>
                  lines != [] && lines == PairOf(lines[0].account, tx.account.value, tx.money.value)
                  && Balanced(lines) && Suspense(w, lines[0].account))
            && (tx.status != Completed ==> lines == [])
  {
    Reachable(steps);
    var w := Run(EMPTY, steps);
    assert TxOk(w, t);
    if w.txs[t].status == Completed { PairBalancedIff(LinesOf(w.entries, t)); }
  }

  predicate OnlyReversal(txs: seq<Tx>, t: nat, r: nat) {
    r < |txs| && forall s :: 0 <= s < |txs| ==> (txs[s].reverses == Some(t) <==> s == r)
  }

  lemma ReversalIsOnly(w: Wallet, t: nat)
    requires Inv(w)
    ensures HasReversal(w.txs, t) <==> exists r :: OnlyReversal(w.txs, t, r)
  {
    if HasReversal(w.txs, t) {
      var r :| 0 <= r < |w.txs| && w.txs[r].reverses == Some(t);
      assert TxOk(w, r);
      forall s | 0 <= s < |w.txs| && w.txs[s].reverses == Some(t) ensures s == r { assert TxOk(w, s); }
      assert OnlyReversal(w.txs, t, r);
    }
    if r: nat :| OnlyReversal(w.txs, t, r) {
      assert w.txs[r].reverses == Some(t);
    }
  }

  /** A withdrawal always carries its pair, from its own account to a suspense account, and is reversed if
      and only if exactly one transaction reverses it. */
  lemma WithdrawalReversedIffOneReversal(steps: seq<Step>, t: nat)
    requires AllLegal(steps) && t < |Run(EMPTY, steps).txs|
    requires Run(EMPTY, steps).txs[t].kind == Withdrawal && Run(EMPTY, steps).txs[t].reverses.None?
    ensures var w := Run(EMPTY, steps);
            var tx, lines := w.txs[t], LinesOf(w.entries, t);
            && tx.account.Some? && tx.money.Some? && |lines| == 2
            && lines == PairOf(tx.account.value, lines[1].account, tx.money.value)
            && Balanced(lines) && Suspense(w, lines[1].account)
            && (tx.status == Reversed <==> exists r :: OnlyReversal(w.txs, t, r))
  {
    Reachable(steps);
    var w := Run(EMPTY, steps);
    assert TxOk(w, t);
    PairBalancedIff(LinesOf(w.entries, t));
    ReversalIsOnly(w, t);
  }

  function LineOn(account: nat): Line -> int { (l: Line) => if l.account == account then Signed(l) else 0 }

  lemma {:induction false} OppositesCancel(lines: seq<Line>, account: nat)
    ensures SumBy(OppositeOf(lines), LineOn(account)) == -SumBy(lines, LineOn(account))
  {
    if lines != [] {
      var n := |lines| - 1;
      assert OppositeOf(lines)[..n] == OppositeOf(lines[..n]);
      OppositesCancel(lines[..n], account);
      assert Signed(Opposite(lines[n])) == -Signed(lines[n]);
    }
  }

  /** A withdrawal and its reversal come to nothing on every account. */
  lemma ReversalNetsToZero(steps: seq<Step>, t: nat, r: nat, account: nat)
    requires AllLegal(steps) && t < |Run(EMPTY, steps).txs| && r < |Run(EMPTY, steps).txs|
    requires Run(EMPTY, steps).txs[r].reverses == Some(t)
    ensures var w := Run(EMPTY, steps);
            SumBy(LinesOf(w.entries, t), LineOn(account)) + SumBy(LinesOf(w.entries, r), LineOn(account)) == 0
  {
    Reachable(steps);
    assert TxOk(Run(EMPTY, steps), r);
    OppositesCancel(LinesOf(Run(EMPTY, steps).entries, t), account);
  }

  /** However a run goes on: entries are only appended, a final transaction keeps its status, and whatever is
      not an open deposit keeps its lines. */
  lemma {:induction false} FinalTransactionsStay(w: Wallet, steps: seq<Step>, t: nat)
    requires Inv(w) && AllLegal(steps) && t < |w.txs|
    ensures var v := Run(w, steps);
            && Inv(v) && w.entries <= v.entries && t < |v.txs| && KeepsTx(w, v, t)
    decreases |steps|
  {
    if steps != [] {
      var u := Next(w, steps[0]);
      StepKeepsTx(w, steps[0], t);
      FinalTransactionsStay(u, steps[1..], t);
      assert KeepsTx(u, Run(u, steps[1..]), t);
    }
  }

  lemma StepKeepsTx(w: Wallet, step: Step, t: nat)
    requires Inv(w) && Legal(step) && t < |w.txs|
    ensures var v := Next(w, step); Inv(v) && w.entries <= v.entries && t < |v.txs| && KeepsTx(w, v, t)
  {
    NextKeeps(w, step);
    if step.StepSetStatus? { assert Next(w, step).txs == w.txs && Next(w, step).entries == w.entries; }
  }

  // --- Sums -----------------------------------------------------------------------------------------------

  function InCurrency(currency: Currency): Line -> int {
    (l: Line) => if l.money.currency == currency then Signed(l) else 0
  }

  function OfTx(t: nat, f: Line -> int): Entry -> int { (e: Entry) => if e.tx == t then f(e.line) else 0 }

  function BeforeTx(t: nat, f: Line -> int): Entry -> int { (e: Entry) => if e.tx < t then f(e.line) else 0 }

  lemma {:induction false} LinesSum(entries: seq<Entry>, t: nat, f: Line -> int)
    ensures SumBy(entries, OfTx(t, f)) == SumBy(LinesOf(entries, t), f)
  {
    if entries != [] {
      var n := |entries| - 1;
      LinesSum(entries[..n], t, f);
      assert OfTx(t, f)(entries[n]) == if entries[n].tx == t then f(entries[n].line) else 0;
      if entries[n].tx == t {
        assert LinesOf(entries, t) == LinesOf(entries[..n], t) + [entries[n].line];
        SumAppend(LinesOf(entries[..n], t), entries[n].line, f);
      } else {
        assert LinesOf(entries, t) == LinesOf(entries[..n], t);
      }
    }
  }

  lemma PairSum(lines: seq<Line>, currency: Currency)
    requires |lines| == 2 && lines[0].direction != lines[1].direction && lines[0].money == lines[1].money
    ensures SumBy(lines, InCurrency(currency)) == 0
  {
    assert lines == [lines[0], lines[1]];
    SumPair(lines[0], lines[1], InCurrency(currency));
  }

  /** The entries of every transaction sum to zero in every currency. */
  lemma TransactionSumsToZero(steps: seq<Step>, t: nat, currency: Currency)
    requires AllLegal(steps)
    ensures SumBy(Run(EMPTY, steps).entries, OfTx(t, InCurrency(currency))) == 0
  {
    Reachable(steps);
    var w := Run(EMPTY, steps);
    if t < |w.txs| {
      assert TxOk(w, t);
      if w.txs[t].reverses.Some? { assert TxOk(w, w.txs[t].reverses.value); }
      LinesSum(w.entries, t, InCurrency(currency));
      if LinesOf(w.entries, t) != [] { PairSum(LinesOf(w.entries, t), currency); }
    } else {
      SumZero(w.entries, OfTx(t, InCurrency(currency)));
    }
  }

  lemma {:induction false} EarlierTransactionsSumToZero(steps: seq<Step>, t: nat, currency: Currency)
    requires AllLegal(steps)
    ensures SumBy(Run(EMPTY, steps).entries, BeforeTx(t, InCurrency(currency))) == 0
  {
    var entries, f := Run(EMPTY, steps).entries, InCurrency(currency);
    if t == 0 {
      forall i | 0 <= i < |entries| ensures BeforeTx(0, f)(entries[i]) == 0 {
        var e: Entry := entries[i];
        assert !(e.tx < 0);
      }
      SumZero(entries, BeforeTx(0, f));
    } else {
      EarlierTransactionsSumToZero(steps, t - 1, currency);
      TransactionSumsToZero(steps, t - 1, currency);
      SumSplit(entries, BeforeTx(t, f), BeforeTx(t - 1, f), OfTx(t - 1, f));
    }
  }

  /** No run creates or destroys money: all entries together sum to zero in every currency. */
  lemma MoneyIsConserved(steps: seq<Step>, currency: Currency)
    requires AllLegal(steps)
    ensures SumBy(Run(EMPTY, steps).entries, (e: Entry) => InCurrency(currency)(e.line)) == 0
  {
    Reachable(steps);
    var w := Run(EMPTY, steps);
    EarlierTransactionsSumToZero(steps, |w.txs|, currency);
    SumSame(w.entries, BeforeTx(|w.txs|, InCurrency(currency)), (e: Entry) => InCurrency(currency)(e.line));
  }

  /** Every line is on an account of its own currency, so a balance never adds up two currencies. */
  lemma LinesKeepTheirCurrency(steps: seq<Step>, i: nat)
    requires AllLegal(steps) && i < |Run(EMPTY, steps).entries|
    ensures var w := Run(EMPTY, steps);
            var line := w.entries[i].line;
            line.account < |w.accounts| && w.accounts[line.account].currency == line.money.currency
  {
    Reachable(steps);
    assert InAccountCurrency(Run(EMPTY, steps), Run(EMPTY, steps).entries[i].line);
  }

  /** No account without the right to go negative ever does. */
  lemma NeverOverdrawn(steps: seq<Step>, a: nat)
    requires AllLegal(steps) && a < |Run(EMPTY, steps).accounts|
    ensures !Run(EMPTY, steps).accounts[a].allowsNegative ==> Balance(Run(EMPTY, steps).entries, a) >= 0
  {
    Reachable(steps);
  }

  predicate LeavesStatus(steps: seq<Step>, a: nat) {
    forall k :: 0 <= k < |steps| && steps[k].StepSetStatus? ==> steps[k].account != a
  }

  /** While an account stays frozen or closed, nothing takes money out of it. */
  lemma {:induction false} InactiveNeverDebited(w: Wallet, steps: seq<Step>, a: nat)
    requires Inv(w) && AllLegal(steps) && Inactive(w, a) && LeavesStatus(steps, a)
    ensures var v := Run(w, steps);
            Inv(v) && Inactive(v, a) && Balance(v.entries, a) >= Balance(w.entries, a)
    decreases |steps|
  {
    if steps != [] {
      NextKeeps(w, steps[0]);
      InactiveNeverDebited(Next(w, steps[0]), steps[1..], a);
    }
  }

  // --- Retries ------------------------------------------------------------------------------------------------

  lemma OwnerIs(txs: seq<Tx>, t: nat)
    requires t < |txs| && forall i, j :: 0 <= i < j < |txs| ==> txs[i].key != txs[j].key
    ensures Owner(txs, txs[t].key) == Some(t)
  {
  }

  /** Once a call has succeeded, the same key returns its transaction and writes nothing, whatever the new
      arguments are and whatever happened in between. */
  lemma RepeatReturnsOriginal(w: Wallet, first: Call, between: seq<Step>, again: Call)
    requires Inv(w) && Legal(StepTransfer(first)) && AllLegal(between) && again.key == first.key
    requires Transfer(w, first).answer.Done?
    ensures var v := Run(Transfer(w, first).wallet, between);
            Transfer(v, again) == Outcome(v, Done(Transfer(w, first).answer.tx, true))
  {
    var u, t := Transfer(w, first).wallet, Transfer(w, first).answer.tx;
    TransferKeeps(w, first);
    FinalTransactionsStay(u, between, t);
    var v := Run(u, between);
    assert KeepsTx(u, v, t);
    OwnerIs(v.txs, t);
  }

  /** The steps of a run without the transfers whose key a transfer of the run has already used with success. */
  function WithoutRetries(w: Wallet, steps: seq<Step>, done: set<string>): seq<Step>
    decreases |steps|
  {
    if steps == [] then []
    else if !steps[0].StepTransfer? then [steps[0]] + WithoutRetries(Next(w, steps[0]), steps[1..], done)
    else if steps[0].call.key in done then WithoutRetries(w, steps[1..], done)
    else
      var o := Transfer(w, steps[0].call);
      [steps[0]] + WithoutRetries(o.wallet, steps[1..], if o.answer.Done? then done + {steps[0].call.key} else done)
  }

  /** Every key in the set belongs to a transaction. */
  predicate Known(w: Wallet, done: set<string>) { forall k :: k in done ==> Owner(w.txs, k).Some? }

  lemma KnownStays(w: Wallet, step: Step, done: set<string>)
    requires Inv(w) && Legal(step) && Known(w, done)
    ensures Known(Next(w, step), done)
  {
    var v := Next(w, step);
    NextKeeps(w, step);
    forall k | k in done ensures Owner(v.txs, k).Some? {
      var t := Owner(w.txs, k).value;
      if !step.StepSetStatus? { assert KeepsTx(w, v, t); }
      assert v.txs[t].key == k;
    }
  }

  /** Retries refine nothing away: a run of transfers, mixed with any other steps, leaves the same wallet as
      the run without the retries of what had already succeeded. */
  lemma {:induction false} RetriesChangeNothing(w: Wallet, steps: seq<Step>, done: set<string>)
    requires Inv(w) && AllLegal(steps) && Known(w, done)
    ensures Run(w, WithoutRetries(w, steps, done)) == Run(w, steps)
    decreases |steps|
  {
    if steps != [] {
      var step, rest := steps[0], steps[1..];
      var v := Next(w, step);
      NextKeeps(w, step);
      KnownStays(w, step, done);
      if step.StepTransfer? && step.call.key in done {
        assert v == w;
        RetriesChangeNothing(w, rest, done);
      } else {
        var after := done;
        if step.StepTransfer? && Transfer(w, step.call).answer.Done? {
          after := done + {step.call.key};
          RepeatReturnsOriginal(w, step.call, [], step.call);
        }
        var kept := WithoutRetries(v, rest, after);
        RetriesChangeNothing(v, rest, after);
        assert WithoutRetries(w, steps, done) == [step] + kept;
        assert ([step] + kept)[1..] == kept;
      }
    }
  }

  /** No key ever owns two transactions. */
  lemma OneTransactionPerKey(steps: seq<Step>, s: nat, t: nat)
    requires AllLegal(steps) && s < |Run(EMPTY, steps).txs| && t < |Run(EMPTY, steps).txs|
    ensures Run(EMPTY, steps).txs[s].key == Run(EMPTY, steps).txs[t].key ==> s == t
  {
    Reachable(steps);
  }
}
