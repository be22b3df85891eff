/** The wallet's double-entry ledger: accounts, transactions and the entries that are only ever appended.
    An account's balance is stored nowhere; it is the sum of its entries. */
module WalletLedger {
  import opened Options
  import opened Sums

  datatype Currency = XOF | XAF | EUR | USD | GBP

  /** Minor units of a currency; never negative, the direction of a line carries the sign. */
  datatype Money = Money(amount: nat, currency: Currency)

  datatype AccountKind = User | Merchant | Technical
  datatype AccountStatus = Active | Frozen | Closed

  /** The references of technical accounts; each is written as a string of its own form. */
  datatype Reference = Gateway(mode: string) | FxPosition(currency: Currency) | Other(name: string)

  datatype Account = Account(
    kind: AccountKind, currency: Currency, status: AccountStatus, allowsNegative: bool,
    reference: Option<Reference>, user: Option<int>)

  datatype Direction = Debit | Credit

  datatype Line = Line(account: nat, direction: Direction, money: Money)

  datatype Entry = Entry(tx: nat, line: Line)

  datatype Purpose = P2p | MerchantPayment | Disbursement | Repayment | Conversion
  datatype TxKind = Deposit | Withdrawal | Movement(purpose: Purpose)
  datatype TxStatus = Pending | Completed | Failed | Reversed

  datatype Tx = Tx(
    kind: TxKind, status: TxStatus, key: string, account: Option<nat>, money: Option<Money>,
    mode: Option<string>, providerReference: Option<string>, reverses: Option<nat>)

  /** Rows are identified by their position; `gateways` maps a processor to its suspense account. */
  datatype Wallet = Wallet(accounts: seq<Account>, txs: seq<Tx>, entries: seq<Entry>, gateways: map<string, nat>)

  datatype Error =
    | AccountNotFound | AccountNotActive | CurrencyMismatch | InsufficientBalance | Unbalanced | KeyTaken
    | TransactionNotFound | InvalidAmount | GatewayUnavailable | NotSupported

  datatype Answer = Done(tx: nat, replayed: bool) | Refused(error: Error)

  /** What a call leaves behind and what it returns. A refused call leaves everything as it was. */
  datatype Outcome = Outcome(wallet: Wallet, answer: Answer)

  // --- Balances ------------------------------------------------------------------------------------

  function Signed(line: Line): int {
    var amount: int := line.money.amount;
    if line.direction == Credit then amount else -amount
  }

  function OnAccount(account: nat): Entry -> int {
    (e: Entry) => if e.line.account == account then Signed(e.line) else 0
  }

  function Balance(entries: seq<Entry>, account: nat): int { SumBy(entries, OnAccount(account)) }

  function Under(tx: nat, lines: seq<Line>): seq<Entry> {
    seq(|lines|, i requires 0 <= i < |lines| => Entry(tx, lines[i]))
  }

  /** The lines booked under a transaction, oldest first. */
  function LinesOf(entries: seq<Entry>, tx: nat): seq<Line> {
    if entries == [] then [] else
      var last := entries[|entries| - 1];
      LinesOf(entries[..|entries| - 1], tx) + (if last.tx == tx then [last.line] else [])
  }

  // --- Balanced lines ---------------------------------------------------------------------------------

  /** At least two lines, one currency, positive amounts, and a sum of zero. */
  predicate Balanced(lines: seq<Line>) {
    && |lines| >= 2
    && (forall i, j :: 0 <= i < |lines| && 0 <= j < |lines| ==> lines[i].money.currency == lines[j].money.currency)
    && (forall i :: 0 <= i < |lines| ==> lines[i].money.amount > 0)
    && SumBy(lines, Signed) == 0
  }

  method AssertBalanced(lines: seq<Line>) returns (ok: bool)
    ensures ok <==> Balanced(lines)
  {
    if |lines| < 2 {
      return false;
    }
    var currencies := set i | 0 <= i < |lines| :: lines[i].money.currency;
    var first := lines[0].money.currency;
    assert first in currencies;
    if currencies != {first} {
      assert exists c :: c in currencies && c != first;
      return false;
    }
    forall i | 0 <= i < |lines| ensures lines[i].money.currency == first {
      assert lines[i].money.currency in currencies;
    }
    var total := 0;
    for i := 0 to |lines|
      invariant total == SumBy(lines[..i], Signed)
      invariant forall k :: 0 <= k < i ==> lines[k].money.amount > 0
    {
      if lines[i].money.amount <= 0 {
        return false;
      }
      assert lines[..i + 1] == lines[..i] + [lines[i]];
      SumAppend(lines[..i], lines[i], Signed);
      total := total + Signed(lines[i]);
    }
    assert lines[..|lines|] == lines;
    return total == 0;
  }

  /** Two lines balance exactly when they move one positive amount from one side to the other. */
  lemma PairBalancedIff(lines: seq<Line>)
    requires |lines| == 2
    ensures Balanced(lines) <==>
            lines[0].direction != lines[1].direction && lines[0].money == lines[1].money && lines[0].money.amount > 0
  {
    assert lines == [lines[0], lines[1]];
    SumPair(lines[0], lines[1], Signed);
  }

  // --- Writing --------------------------------------------------------------------------------------

  /** The transaction that owns an idempotency key. */
  function Owner(txs: seq<Tx>, key: string): (r: Option<nat>)
    ensures r.Some? ==> r.value < |txs| && txs[r.value].key == key
    ensures r.None? ==> forall i :: 0 <= i < |txs| ==> txs[i].key != key
  {
    Find(txs, (r: Tx) => r.key == key)
  }

  function Booked(w: Wallet, tx: Tx, lines: seq<Line>): Wallet {
    w.(txs := w.txs + [tx], entries := w.entries + Under(|w.txs|, lines))
  }

  function Header(kind: TxKind, status: TxStatus, key: string): Tx {
    Tx(kind, status, key, None, None, None, None, None)
  }

  function Post(w: Wallet, kind: TxKind, status: TxStatus, key: string, lines: seq<Line>): Outcome {
    match Owner(w.txs, key)
    case Some(t) => Outcome(w, Done(t, true))
    case None =>
      if Balanced(lines) then Outcome(Booked(w, Header(kind, status, key), lines), Done(|w.txs|, false))
      else Outcome(w, Refused(Unbalanced))
  }

  /** Further lines under a transaction that exists already. */
  function PostOn(w: Wallet, tx: nat, lines: seq<Line>): Outcome {
    if Balanced(lines) then Outcome(w.(entries := w.entries + Under(tx, lines)), Done(tx, false))
    else Outcome(w, Refused(Unbalanced))
  }

  datatype Call = Call(source: nat, destination: nat, money: Money, kind: TxKind, status: TxStatus, key: string)

  function PairOf(source: nat, destination: nat, money: Money): seq<Line> {
    [Line(source, Debit, money), Line(destination, Credit, money)]
  }

  /** Why a transfer whose key is new may not be made, in the order of the checks. */
  function Refusal(w: Wallet, c: Call): Option<Error> {
    if c.source >= |w.accounts| then Some(AccountNotFound)
    else if w.accounts[c.source].status != Active then Some(AccountNotActive)
    else if c.destination >= |w.accounts| then Some(AccountNotFound)
    else if w.accounts[c.destination].status == Closed then Some(AccountNotActive)
    else if !(w.accounts[c.source].currency == w.accounts[c.destination].currency == c.money.currency)
      then Some(CurrencyMismatch)
    else if !w.accounts[c.source].allowsNegative && Balance(w.entries, c.source) < c.money.amount
      then Some(InsufficientBalance)
    else None
  }

  /** A transfer from the moment it holds its source row: the key was looked up before, in an older state,
      and is looked up again when the transaction is written. */
  function TransferLocked(w: Wallet, c: Call): Outcome {
    match Refusal(w, c)
    case Some(error) => Outcome(w, Refused(error))
    case None => Post(w, c.kind, c.status, c.key, PairOf(c.source, c.destination, c.money))
  }

  function Transfer(w: Wallet, c: Call): Outcome {
    match Owner(w.txs, c.key)
    case Some(t) => Outcome(w, Done(t, true))
    case None => TransferLocked(w, c)
  }

  function Digits(n: nat): string {
    if n < 10 then [('0' as int + n) as char] else Digits(n / 10) + [('0' as int + n % 10) as char]
  }

  function ReversalKey(tx: nat): string { "reversal:" + Digits(tx) }

  function Opposite(line: Line): Line { line.(direction := if line.direction == Debit then Credit else Debit) }

  function OppositeOf(lines: seq<Line>): seq<Line> {
    seq(|lines|, i requires 0 <= i < |lines| => Opposite(lines[i]))
  }

  /** Book the opposite of every line of a transaction, under a transaction of its own. */
  function Reverse(w: Wallet, tx: nat): Outcome
    requires tx < |w.txs|
  {
    var lines := LinesOf(w.entries, tx);
    if lines == [] then Outcome(w, Refused(Unbalanced))
    else if Owner(w.txs, ReversalKey(tx)).Some? then Outcome(w, Refused(KeyTaken))
    else if !Balanced(OppositeOf(lines)) then Outcome(w, Refused(Unbalanced))
    else
      var original := w.txs[tx];
      var row := Tx(original.kind, Completed, ReversalKey(tx), original.account, original.money, None, None, Some(tx));
      Outcome(Booked(w, row, OppositeOf(lines)), Done(|w.txs|, false))
  }

  // --- What a transfer means ---------------------------------------------------------------------------

  lemma LinesOfUnder(entries: seq<Entry>, tx: nat, lines: seq<Line>, t: nat)
    ensures LinesOf(entries + Under(tx, lines), t) == LinesOf(entries, t) + if t == tx then lines else []
    decreases |lines|
  {
    if lines == [] {
      assert entries + Under(tx, lines) == entries;
    } else {
      var n := |lines| - 1;
      var all := entries + Under(tx, lines);
      assert all[..|all| - 1] == entries + Under(tx, lines[..n]);
      LinesOfUnder(entries, tx, lines[..n], t);
      assert lines == lines[..n] + [lines[n]];
    }
  }

  lemma BalanceUnder(entries: seq<Entry>, tx: nat, lines: seq<Line>, a: nat)
    requires |lines| == 2
    ensures Balance(entries + Under(tx, lines), a)
            == Balance(entries, a) + (if lines[0].account == a then Signed(lines[0]) else 0)
               + (if lines[1].account == a then Signed(lines[1]) else 0)
  {
    var e0, e1 := Entry(tx, lines[0]), Entry(tx, lines[1]);
    assert entries + Under(tx, lines) == (entries + [e0]) + [e1];
    SumAppend(entries, e0, OnAccount(a));
    SumAppend(entries + [e0], e1, OnAccount(a));
  }

  /** Both accounts are there and in the money's currency, the source is active and the destination not closed,
      and the source covers the amount or may go negative. */
  predicate Permitted(w: Wallet, c: Call) {
    && c.source < |w.accounts| && c.destination < |w.accounts|
    && w.accounts[c.source].currency == c.money.currency && w.accounts[c.destination].currency == c.money.currency
    && w.accounts[c.source].status == Active && w.accounts[c.destination].status != Closed
    && (w.accounts[c.source].allowsNegative || c.money.amount <= Balance(w.entries, c.source))
  }

  /** Which check refuses a transfer: the source's before the destination's, the currencies next, the balance
      last. */
  lemma RefusalIs(w: Wallet, c: Call)
    ensures var n, r := |w.accounts|, Refusal(w, c);
            var payable := c.source < n && w.accounts[c.source].status == Active;
            var open := payable && c.destination < n && w.accounts[c.destination].status != Closed;
            && (r.None? <==> Permitted(w, c))
            && (r == Some(AccountNotFound) <==> c.source >= n || (payable && c.destination >= n))
            && (r == Some(AccountNotActive) <==>
                  c.source < n && (!payable || (c.destination < n && w.accounts[c.destination].status == Closed)))
            && (r == Some(CurrencyMismatch) <==>
                  open && (w.accounts[c.source].currency != c.money.currency
                           || w.accounts[c.destination].currency != c.money.currency))
            && (r == Some(InsufficientBalance) ==> open && Balance(w.entries, c.source) < c.money.amount)
            && (r.Some? ==> r.value in {AccountNotFound, AccountNotActive, CurrencyMismatch, InsufficientBalance})
  {
  }

  /** A transfer that is made for the first time moves its amount from source to destination and changes no
      other balance; a repeated or refused one changes nothing. It is made exactly when the key is new, both
      accounts are there, the source is active, the destination not closed, all three currencies are equal, and
      the amount is positive and covered, or the source may go negative. */
  lemma TransferMoves(w: Wallet, c: Call, a: nat)
    ensures var o := Transfer(w, c);
            && (o.answer == Done(|w.txs|, false) <==>
                  && (forall t :: 0 <= t < |w.txs| ==> w.txs[t].key != c.key)
                  && c.source < |w.accounts| && w.accounts[c.source].status == Active
                  && c.destination < |w.accounts| && w.accounts[c.destination].status != Closed
                  && w.accounts[c.source].currency == w.accounts[c.destination].currency == c.money.currency
                  && (w.accounts[c.source].allowsNegative || Balance(w.entries, c.source) >= c.money.amount)
                  && c.money.amount > 0)
            && (o.answer == Done(|w.txs|, false) ==>
                  Balance(o.wallet.entries, a) == Balance(w.entries, a)
                    - (if a == c.source then c.money.amount else 0)
                    + (if a == c.destination then c.money.amount else 0))
            && (o.answer != Done(|w.txs|, false) ==> o.wallet == w)
  {
    var lines := PairOf(c.source, c.destination, c.money);
    PairBalancedIff(lines);
    BalanceUnder(w.entries, |w.txs|, lines, a);
  }

  /** Losing the race for a key costs a caller at most an error: the state is the same as if the key had
      been seen at once, and so is the answer, unless one of the checks refuses meanwhile. */
  lemma LateKeyLookup(w: Wallet, c: Call)
    ensures TransferLocked(w, c).wallet == Transfer(w, c).wallet
    ensures TransferLocked(w, c).answer == Transfer(w, c).answer
            <==> Owner(w.txs, c.key).None? || Permitted(w, c)
  {
  }

  // --- The ledger service --------------------------------------------------------------------------------

  class LedgerService {
    var accounts: seq<Account>
    var txs: seq<Tx>
    var entries: seq<Entry>
    var gateways: map<string, nat>

    constructor ()
      ensures State() == Wallet([], [], [], map[])
    {
      accounts, txs, entries, gateways := [], [], [], map[];
    }

    function State(): Wallet
      reads this
    {
      Wallet(accounts, txs, entries, gateways)
    }

    method FindByKey(key: string) returns (tx: Option<nat>)
      ensures tx == Owner(txs, key)
    {
      tx := Owner(txs, key);
    }

    method BalanceOf(account: nat) returns (total: int)
      ensures total == Balance(entries, account)
    {
      total := 0;
      for i := 0 to |entries|
        invariant total == Balance(entries[..i], account)
      {
        assert entries[..i + 1] == entries[..i] + [entries[i]];
        SumAppend(entries[..i], entries[i], OnAccount(account));
        total := total + OnAccount(account)(entries[i]);
      }
      assert entries[..|entries|] == entries;
    }

    method EntriesOf(tx: nat) returns (lines: seq<Line>)
      ensures lines == LinesOf(entries, tx)
    {
      lines := [];
      for i := 0 to |entries|
        invariant lines == LinesOf(entries[..i], tx)
      {
        assert entries[..i + 1][..i] == entries[..i];
        if entries[i].tx == tx {
          lines := lines + [entries[i].line];
        }
      }
      assert entries[..|entries|] == entries;
    }

    method AddEntries(tx: nat, lines: seq<Line>)
      modifies this`entries
      ensures entries == old(entries) + Under(tx, lines)
    {
      for i := 0 to |lines|
        invariant entries == old(entries) + Under(tx, lines[..i])
      {
        entries := entries + [Entry(tx, lines[i])];
      }
      assert lines[..|lines|] == lines;
    }

    method PostLines(kind: TxKind, status: TxStatus, key: string, lines: seq<Line>) returns (answer: Answer)
      modifies this`txs, this`entries
      ensures Outcome(State(), answer) == Post(old(State()), kind, status, key, lines)
    {
      var existing := FindByKey(key);
      if existing.Some? {
        return Done(existing.value, true);
      }
      var ok := AssertBalanced(lines);
      if !ok {
        return Refused(Unbalanced);
      }
      var id := |txs|;
      txs := txs + [Header(kind, status, key)];
      AddEntries(id, lines);
      return Done(id, false);
    }

    method PostOnTransaction(tx: nat, lines: seq<Line>) returns (answer: Answer)
      modifies this`entries
      ensures Outcome(State(), answer) == PostOn(old(State()), tx, lines)
    {
      var ok := AssertBalanced(lines);
      if !ok {
        return Refused(Unbalanced);
      }
      AddEntries(tx, lines);
      return Done(tx, false);
    }

    method ReverseTransaction(tx: nat) returns (answer: Answer)
      requires tx < |txs|
      modifies this`txs, this`entries
      ensures Outcome(State(), answer) == Reverse(old(State()), tx)
    {
      var original := EntriesOf(tx);
      if original == [] {
        return Refused(Unbalanced);
      }
      var taken := FindByKey(ReversalKey(tx));
      if taken.Some? {
        return Refused(KeyTaken);
      }
      var opposite := [];
      for i := 0 to |original|
        invariant opposite == OppositeOf(original[..i])
      {
        opposite := opposite + [Opposite(original[i])];
      }
      assert original[..|original|] == original;
      var saved, id := txs, |txs|;
      txs := txs + [Tx(txs[tx].kind, Completed, ReversalKey(tx), txs[tx].account, txs[tx].money, None, None, Some(tx))];
      answer := PostOnTransaction(id, opposite);
      if answer.Refused? {
        txs := saved;
      }
    }

    method TransferMoney(c: Call) returns (answer: Answer)
      modifies this`txs, this`entries
      ensures Outcome(State(), answer) == Transfer(old(State()), c)
    {
      var existing := FindByKey(c.key);
      if existing.Some? {
        return Done(existing.value, true);
      }
      if c.source >= |accounts| {
        return Refused(AccountNotFound);
      }
      var source := accounts[c.source];
      if source.status != Active {
        return Refused(AccountNotActive);
      }
      if c.destination >= |accounts| {
        return Refused(AccountNotFound);
      }
      var destination := accounts[c.destination];
      if destination.status == Closed {
        return Refused(AccountNotActive);
      }
      if source.currency != destination.currency || source.currency != c.money.currency {
        return Refused(CurrencyMismatch);
      }
      if !source.allowsNegative {
        var balance := BalanceOf(c.source);
        if balance < c.money.amount {
          return Refused(InsufficientBalance);
        }
      }
      answer := PostLines(c.kind, c.status, c.key,
                          [Line(c.source, Debit, c.money), Line(c.destination, Credit, c.money)]);
    }
  }
}
