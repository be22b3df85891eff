/** The daily accounting projection: journal rows grouped by service, processor and flow, and the daily
    totals that another route computes from the same rows without grouping. */
module AccountingSummary {
  import opened Sums

  datatype Event = Capture | Refund | ProcessorFee | Settlement | Payout

  /** One source row. `declared` is the flow type found in the metadata, empty when there is none. */
  datatype SourceRow = SourceRow(
    client: string, processor: string, reference: string, declared: string, event: Event, count: int, amount: int)

  datatype Key = Key(service: string, processor: string, flow: string)

  datatype Totals = Totals(count: int, capture: int, refund: int, fee: int, settlement: int, payout: int)

  datatype Entry = Entry(
    key: Key, count: int, gross: int, refunds: int, fees: int, netExpected: int, settled: int, outstanding: int)

  // --- Classifying a row -------------------------------------------------------------------------

  const SERVICES := ["diddigo", "diddisend", "diddifood", "diddifund", "diddifree"]
  const FLOW_TYPES := ["service_payment", "wallet_topup", "refund", "settlement", "payout", "wallet_deposit",
                       "wallet_withdrawal", "wallet_transfer", "adjustment", "unknown"]

  function Lower(s: string): string {
    seq(|s|, i requires 0 <= i < |s| => if 'A' <= s[i] <= 'Z' then (s[i] as int + 32) as char else s[i])
  }

  predicate Blank(c: char) { c == ' ' || c == '\t' || c == '\n' || c == '\r' }

  function Strip(s: string): string {
    if s == [] then s
    else if Blank(s[0]) then Strip(s[1..])
    else if Blank(s[|s| - 1]) then Strip(s[..|s| - 1])
    else s
  }

  predicate Contains(s: string, part: string) {
    exists i :: 0 <= i <= |s| && part <= s[i..]
  }

  function ServiceFrom(value: string, services: seq<string>): string {
    if services == [] then "unknown"
    else if services[0] + "-" <= value || services[0] + "_" <= value then services[0]
    else ServiceFrom(value, services[1..])
  }

  function NormalizeService(client: string): string {
    var value := Lower(Strip(client));
    if value in SERVICES then value else ServiceFrom(value, SERVICES)
  }

  function ClassifyFlow(reference: string, declared: string): string {
    var flow := Lower(Strip(declared));
    if flow in FLOW_TYPES then flow else
      var r := Lower(Strip(reference));
      if Contains(r, "topup") || Contains(r, "top-up") then "wallet_topup"
      else if Contains(r, "wallet_deposit") || Contains(r, "wallet-deposit") then "wallet_deposit"
      else if Contains(r, "wallet_withdrawal") || Contains(r, "wallet-withdrawal") then "wallet_withdrawal"
      else if Contains(r, "wallet_transfer") || Contains(r, "wallet-transfer") then "wallet_transfer"
      else "service_payment"
  }

  /** A payment is classified as a payout exactly when its metadata says so; no reference does that. */
  lemma PayoutFlowIff(reference: string, declared: string)
    ensures ClassifyFlow(reference, declared) == "payout" <==> Lower(Strip(declared)) == "payout"
  {
    assert "payout" == FLOW_TYPES[4];
  }

  /** Stripping takes the blanks off both ends and nothing else. */
  lemma {:induction false} StripIs(s: string) returns (i: nat, j: nat)
    ensures i <= j <= |s| && Strip(s) == s[i..j]
    ensures forall k :: 0 <= k < i || j <= k < |s| ==> Blank(s[k])
    ensures i < j ==> !Blank(s[i]) && !Blank(s[j - 1])
    decreases |s|
  {
    if s == [] {
      i, j := 0, 0;
    } else if Blank(s[0]) {
      i, j := StripIs(s[1..]);
      assert s[1..][i..j] == s[i + 1..j + 1];
      forall k | 0 <= k < i + 1 || j + 1 <= k < |s| ensures Blank(s[k]) { if k > 0 { assert Blank(s[1..][k - 1]); } }
      i, j := i + 1, j + 1;
    } else if Blank(s[|s| - 1]) {
      var n := |s| - 1;
      i, j := StripIs(s[..n]);
      assert s[..n][i..j] == s[i..j];
      forall k | 0 <= k < i || j <= k < |s| ensures Blank(s[k]) { if k < n { assert Blank(s[..n][k]); } }
    } else {
      i, j := 0, |s|;
      assert s[0..|s|] == s;
    }
  }

  /** A client belongs to the service it names, alone or before a dash or an underscore, whatever the blanks around
      it and its case; any other client is unknown. */
  lemma ServiceIff(client: string, k: nat)
    requires k < |SERVICES|
    ensures var value, name := Lower(Strip(client)), SERVICES[k];
            && (NormalizeService(client) == name <==> Names(value, name))
            && (NormalizeService(client) in SERVICES || NormalizeService(client) == "unknown")
  {
    var value := Lower(Strip(client));
    ServiceFromIs(value, SERVICES);
    if value in SERVICES {
      var i :| 0 <= i < |SERVICES| && SERVICES[i] == value;
      if Names(value, SERVICES[k]) { PrefixesDiffer(value, i, k); }
    } else if NormalizeService(client) in SERVICES {
      var i :| 0 <= i < |SERVICES| && SERVICES[i] == NormalizeService(client);
      if Names(value, SERVICES[k]) { PrefixesDiffer(value, i, k); }
    }
  }

  lemma {:induction false} ServiceFromIs(value: string, services: seq<string>)
    ensures var found := ServiceFrom(value, services);
            && (found == "unknown" || found in services)
            && ((exists i :: 0 <= i < |services| && (services[i] + "-" <= value || services[i] + "_" <= value)) ==>
                  found in services && (found + "-" <= value || found + "_" <= value))
            && (found in services && found != "unknown" ==> found + "-" <= value || found + "_" <= value)
  {
    if services != [] && !(services[0] + "-" <= value || services[0] + "_" <= value) {
      ServiceFromIs(value, services[1..]);
      assert forall i :: 1 <= i < |services| ==> services[i] == services[1..][i - 1];
    }
  }

  /** The value is the name, or goes on after it with a dash or an underscore. */
  predicate Names(value: string, name: string) { value == name || name + "-" <= value || name + "_" <= value }

  lemma NamesStart(value: string, name: string)
    requires Names(value, name)
    ensures name <= value
  {
    if name + "-" <= value {
      assert value[..|name|] == (name + "-")[..|name|] == name;
    } else if name + "_" <= value {
      assert value[..|name|] == (name + "_")[..|name|] == name;
    }
  }

  /** The services differ in their sixth and seventh letters, so no value names two of them. */
  lemma PrefixesDiffer(value: string, a: nat, b: nat)
    requires a < |SERVICES| && b < |SERVICES| && Names(value, SERVICES[a]) && Names(value, SERVICES[b])
    ensures a == b
  {
    NamesStart(value, SERVICES[a]);
    NamesStart(value, SERVICES[b]);
    assert value[5] == SERVICES[a][5] == SERVICES[b][5] && value[6] == SERVICES[a][6] == SERVICES[b][6];
  }

  predicate Mentions(reference: string, word: string, other: string) {
    var r := Lower(Strip(reference));
    (exists i :: 0 <= i <= |r| && word <= r[i..]) || (exists i :: 0 <= i <= |r| && other <= r[i..])
  }

  /** A declared flow counts if it is a known one; otherwise the reference decides: a top-up before a deposit, a
      withdrawal and a transfer, and a service payment if it mentions none. */
  lemma FlowIs(reference: string, declared: string)
    ensures var flow, d := ClassifyFlow(reference, declared), Lower(Strip(declared));
            if d in FLOW_TYPES then flow == d
            else if Mentions(reference, "topup", "top-up") then flow == "wallet_topup"
            else if Mentions(reference, "wallet_deposit", "wallet-deposit") then flow == "wallet_deposit"
            else if Mentions(reference, "wallet_withdrawal", "wallet-withdrawal") then flow == "wallet_withdrawal"
            else if Mentions(reference, "wallet_transfer", "wallet-transfer") then flow == "wallet_transfer"
            else flow == "service_payment"
  {
  }

  // --- Lines: rows under their grouping key -----------------------------------------------------------

  datatype Line = Line(key: Key, event: Event, count: int, amount: int)

  function LineOf(row: SourceRow): Line {
    Line(Key(NormalizeService(row.client), if row.processor == "" then "unknown" else row.processor,
             if row.event == Payout then "payout" else ClassifyFlow(row.reference, row.declared)),
         row.event, row.count, row.amount)
  }

  function LinesOf(rows: seq<SourceRow>): seq<Line> { seq(|rows|, i requires 0 <= i < |rows| => LineOf(rows[i])) }

  /** Payout journals are grouped under the payout flow only. */
  predicate PayoutsApart(lines: seq<Line>) {
    forall i :: 0 <= i < |lines| && lines[i].event == Payout ==> lines[i].key.flow == "payout"
  }

  /** No payment is grouped under the payout flow. */
  predicate WellDeclared(lines: seq<Line>) {
    forall i :: 0 <= i < |lines| && lines[i].event != Payout ==> lines[i].key.flow != "payout"
  }

  /** Payouts always keep apart; payments keep out of the payout flow exactly when none declares it. */
  lemma WellDeclaredIff(rows: seq<SourceRow>)
    ensures PayoutsApart(LinesOf(rows))
    ensures WellDeclared(LinesOf(rows)) <==>
            forall i :: 0 <= i < |rows| && rows[i].event != Payout ==> Lower(Strip(rows[i].declared)) != "payout"
  {
    var lines := LinesOf(rows);
    forall i | 0 <= i < |rows|
      ensures lines[i].event == rows[i].event
      ensures lines[i].event == Payout ==> lines[i].key.flow == "payout"
      ensures lines[i].event != Payout ==>
                (lines[i].key.flow == "payout" <==> Lower(Strip(rows[i].declared)) == "payout")
    {
      PayoutFlowIff(rows[i].reference, rows[i].declared);
    }
  }

  // --- Grouping ------------------------------------------------------------------------------------

  const NOTHING := Totals(0, 0, 0, 0, 0, 0)

  function WithLine(t: Totals, line: Line): Totals {
    match line.event
    case Capture => t.(capture := t.capture + line.amount, count := t.count + line.count)
    case Refund => t.(refund := t.refund + line.amount)
    case ProcessorFee => t.(fee := t.fee + line.amount)
    case Settlement => t.(settlement := t.settlement + line.amount)
    case Payout => t.(payout := t.payout + line.amount, count := t.count + line.count)
  }

  function Group(lines: seq<Line>): map<Key, Totals> {
    if lines == [] then map[] else
      var last := lines[|lines| - 1];
      var before := Group(lines[..|lines| - 1]);
      before[last.key := WithLine(if last.key in before then before[last.key] else NOTHING, last)]
  }

  function EntryOf(key: Key, t: Totals): Entry {
    var gross := if t.capture != 0 then t.capture else t.payout;
    var net := if key.flow == "payout" then 0 else gross - t.refund - t.fee;
    Entry(key, t.count, gross, t.refund, t.fee, net, t.settlement,
          if key.flow == "payout" then 0 else net - t.settlement)
  }

  /** An entry adds up: gross less refunds and fees is the net, and the net less what was settled is outstanding; a
      payout entry has neither. */
  lemma EntryAddsUp(key: Key, t: Totals)
    ensures var e := EntryOf(key, t);
            && e.key == key && e.count == t.count
            && (if key.flow == "payout" then e.netExpected == 0 == e.outstanding
                else e.gross == e.refunds + e.fees + e.netExpected && e.netExpected == e.settled + e.outstanding)
            && e.refunds == t.refund && e.fees == t.fee && e.settled == t.settlement
            && (t.payout == 0 || t.capture == 0 ==> e.gross == t.capture + t.payout)
  {
  }

  // --- Sums by event and by key ----------------------------------------------------------------------

  function EventAmount(event: Event): Line -> int {
    (r: Line) => if r.event == event then r.amount else 0
  }

  function Counted(r: Line): int { if r.event == Capture || r.event == Payout then r.count else 0 }

  function Restricted(f: Line -> int, key: Key): Line -> int {
    (r: Line) => if r.key == key then f(r) else 0
  }

  /** What the lines of one key add up to, computed without grouping. */
  function TotalsOf(lines: seq<Line>, key: Key): Totals {
    Totals(SumBy(lines, Restricted(Counted, key)),
           SumBy(lines, Restricted(EventAmount(Capture), key)), SumBy(lines, Restricted(EventAmount(Refund), key)),
           SumBy(lines, Restricted(EventAmount(ProcessorFee), key)),
           SumBy(lines, Restricted(EventAmount(Settlement), key)),
           SumBy(lines, Restricted(EventAmount(Payout), key)))
  }

  lemma RestrictedAmount(event: Event, key: Key, r: Line)
    ensures Restricted(EventAmount(event), key)(r) == if r.key == key && r.event == event then r.amount else 0
  {
  }

  lemma TotalsStep(lines: seq<Line>, last: Line, key: Key)
    ensures TotalsOf(lines + [last], key)
            == if last.key == key then WithLine(TotalsOf(lines, key), last) else TotalsOf(lines, key)
  {
    SumAppend(lines, last, Restricted(Counted, key));
    SumAppend(lines, last, Restricted(EventAmount(Capture), key));
    SumAppend(lines, last, Restricted(EventAmount(Refund), key));
    SumAppend(lines, last, Restricted(EventAmount(ProcessorFee), key));
    SumAppend(lines, last, Restricted(EventAmount(Settlement), key));
    SumAppend(lines, last, Restricted(EventAmount(Payout), key));
    forall event | true
      ensures Restricted(EventAmount(event), key)(last)
              == if last.key == key && last.event == event then last.amount else 0
    {
      RestrictedAmount(event, key, last);
    }
    assert Restricted(Counted, key)(last) == if last.key == key then Counted(last) else 0;
  }

  predicate HasKey(lines: seq<Line>, key: Key) { exists i :: 0 <= i < |lines| && lines[i].key == key }

  /** Grouping gives every key that occurs, and for each the sums over its own lines. */
  lemma {:induction false} GroupIsPerKeySums(lines: seq<Line>, key: Key)
    ensures key in Group(lines) <==> HasKey(lines, key)
    ensures key in Group(lines) ==> Group(lines)[key] == TotalsOf(lines, key)
    ensures key !in Group(lines) ==> TotalsOf(lines, key) == NOTHING
  {
    if lines != [] {
      var n := |lines| - 1;
      GroupIsPerKeySums(lines[..n], key);
      assert lines == lines[..n] + [lines[n]];
      TotalsStep(lines[..n], lines[n], key);
    }
  }

  /** A listing of the groups: every key once, in any order. */
  ghost predicate Lists(keys: seq<Key>, lines: seq<Line>) {
    && (forall i, j :: 0 <= i < j < |keys| ==> keys[i] != keys[j])
    && (forall i :: 0 <= i < |lines| ==> lines[i].key in keys)
  }

  function PerKey(lines: seq<Line>, f: Line -> int): Key -> int {
    (k: Key) => SumBy(lines, Restricted(f, k))
  }

  function OneLine(f: Line -> int, line: Line): Key -> int { (k: Key) => Restricted(f, k)(line) }

  lemma {:induction false} LineCountedOnce(keys: seq<Key>, f: Line -> int, line: Line)
    requires forall i, j :: 0 <= i < j < |keys| ==> keys[i] != keys[j]
    ensures SumBy(keys, OneLine(f, line)) == if line.key in keys then f(line) else 0
  {
    if keys != [] {
      var n := |keys| - 1;
      LineCountedOnce(keys[..n], f, line);
      assert keys == keys[..n] + [keys[n]];
      assert Restricted(f, keys[n])(line) == if keys[n] == line.key then f(line) else 0;
      if keys[n] == line.key {
        assert line.key !in keys[..n];
      }
    }
  }

  /** Adding up the groups of a listing is adding up the lines. */
  lemma {:induction false} GroupsAddUp(keys: seq<Key>, lines: seq<Line>, f: Line -> int)
    requires Lists(keys, lines)
    ensures SumBy(keys, PerKey(lines, f)) == SumBy(lines, f)
  {
    if lines == [] {
      SumZero(keys, PerKey(lines, f));
    } else {
      var n := |lines| - 1;
      GroupsAddUp(keys, lines[..n], f);
      LineCountedOnce(keys, f, lines[n]);
      SumSplit(keys, PerKey(lines, f), PerKey(lines[..n], f), OneLine(f, lines[n]));
    }
  }

  // --- Conservation ------------------------------------------------------------------------------------

  function EntryFor(lines: seq<Line>, key: Key): Entry { EntryOf(key, TotalsOf(lines, key)) }

  function Gross(lines: seq<Line>): Key -> int { (k: Key) => EntryFor(lines, k).gross }

  function Outstanding(lines: seq<Line>): Key -> int { (k: Key) => EntryFor(lines, k).outstanding }

  /** The payouts that an entry's gross amount hides behind captures of the same group. */
  function HiddenPayout(lines: seq<Line>): Key -> int {
    (k: Key) => if TotalsOf(lines, k).capture != 0 then TotalsOf(lines, k).payout else 0
  }

  /** What a line leaves owed by its processor. */
  function Signed(r: Line): int {
    match r.event
    case Capture => r.amount
    case Refund => -r.amount
    case ProcessorFee => -r.amount
    case Settlement => -r.amount
    case Payout => 0
  }

  /** The same, on the payments grouped as payouts only, and on all others. */
  function SignedMisdeclared(r: Line): int { if r.key.flow == "payout" then Signed(r) else 0 }

  function SignedDeclaredWell(r: Line): int { if r.key.flow == "payout" then 0 else Signed(r) }

  /** The outstanding amount that the daily summary route computes, event by event. */
  function DailyOutstanding(lines: seq<Line>): int {
    SumBy(lines, EventAmount(Capture)) - SumBy(lines, EventAmount(Refund))
    - SumBy(lines, EventAmount(ProcessorFee)) - SumBy(lines, EventAmount(Settlement))
  }

  lemma {:induction false} DailyIsSigned(lines: seq<Line>)
    ensures DailyOutstanding(lines) == SumBy(lines, Signed)
  {
    if lines != [] { DailyIsSigned(lines[..|lines| - 1]); }
  }

  /** Payout journals never reach another flow. */
  lemma {:induction false} PayoutsStayInTheirFlow(lines: seq<Line>, key: Key)
    requires PayoutsApart(lines) && key.flow != "payout"
    ensures TotalsOf(lines, key).payout == 0
  {
    SumZero(lines, Restricted(EventAmount(Payout), key));
  }

  function SignedTotals(t: Totals): int { t.capture - t.refund - t.fee - t.settlement }

  lemma {:induction false} SignedPerKey(lines: seq<Line>, key: Key)
    ensures SumBy(lines, Restricted(Signed, key)) == SignedTotals(TotalsOf(lines, key))
  {
    if lines != [] {
      var n := |lines| - 1;
      var last := lines[n];
      SignedPerKey(lines[..n], key);
      assert lines == lines[..n] + [last];
      TotalsStep(lines[..n], last, key);
      SumAppend(lines[..n], last, Restricted(Signed, key));
      assert Restricted(Signed, key)(last) == if last.key == key then Signed(last) else 0;
      SignedWithLine(TotalsOf(lines[..n], key), last);
    }
  }

  lemma SignedWithLine(t: Totals, line: Line)
    ensures SignedTotals(WithLine(t, line)) == SignedTotals(t) + Signed(line)
  {
  }

  lemma EntryOutstanding(key: Key, t: Totals)
    requires key.flow != "payout" && t.payout == 0
    ensures EntryOf(key, t).outstanding == SignedTotals(t)
  {
  }

  lemma WellDeclaredPerKey(lines: seq<Line>, key: Key)
    ensures SumBy(lines, Restricted(SignedDeclaredWell, key))
            == if key.flow == "payout" then 0 else SumBy(lines, Restricted(Signed, key))
  {
    forall i | 0 <= i < |lines|
      ensures Restricted(SignedDeclaredWell, key)(lines[i])
              == if key.flow == "payout" then 0 else Restricted(Signed, key)(lines[i])
    {
      assert SignedDeclaredWell(lines[i]) == if lines[i].key.flow == "payout" then 0 else Signed(lines[i]);
    }
    if key.flow == "payout" {
      SumZero(lines, Restricted(SignedDeclaredWell, key));
    } else {
      SumSame(lines, Restricted(SignedDeclaredWell, key), Restricted(Signed, key));
    }
  }

  lemma OutstandingIsSigned(lines: seq<Line>, key: Key)
    requires PayoutsApart(lines)
    ensures EntryFor(lines, key).outstanding == SumBy(lines, Restricted(SignedDeclaredWell, key))
  {
    WellDeclaredPerKey(lines, key);
    if key.flow != "payout" {
      PayoutsStayInTheirFlow(lines, key);
      SignedPerKey(lines, key);
      EntryOutstanding(key, TotalsOf(lines, key));
    }
  }

  /** For all rows: the outstanding amounts of the entries add up to the daily route's value, less what
      payments declared as payouts leave owed. So the two agree if and only if that is zero. */
  lemma OutstandingAgainstDaily(keys: seq<Key>, rows: seq<SourceRow>)
    requires Lists(keys, LinesOf(rows))
    ensures SumBy(keys, Outstanding(LinesOf(rows)))
            == DailyOutstanding(LinesOf(rows)) - SumBy(LinesOf(rows), SignedMisdeclared)
  {
    WellDeclaredIff(rows);
    OutstandingAddsUp(keys, LinesOf(rows));
    DailySplits(LinesOf(rows));
  }

  lemma OutstandingAddsUp(keys: seq<Key>, lines: seq<Line>)
    requires Lists(keys, lines) && PayoutsApart(lines)
    ensures SumBy(keys, Outstanding(lines)) == SumBy(lines, SignedDeclaredWell)
  {
    forall i | 0 <= i < |keys| ensures Outstanding(lines)(keys[i]) == PerKey(lines, SignedDeclaredWell)(keys[i]) {
      OutstandingIsSigned(lines, keys[i]);
    }
    SumSame(keys, Outstanding(lines), PerKey(lines, SignedDeclaredWell));
    GroupsAddUp(keys, lines, SignedDeclaredWell);
  }

  lemma DailySplits(lines: seq<Line>)
    ensures DailyOutstanding(lines) == SumBy(lines, SignedDeclaredWell) + SumBy(lines, SignedMisdeclared)
  {
    DailyIsSigned(lines);
    SumSplit(lines, Signed, SignedDeclaredWell, SignedMisdeclared);
  }

  function MovedIn(r: Line): int { if r.event == Capture || r.event == Payout then r.amount else 0 }

  lemma {:induction false} MovedInPerKey(lines: seq<Line>, key: Key)
    ensures PerKey(lines, MovedIn)(key) == TotalsOf(lines, key).capture + TotalsOf(lines, key).payout
  {
    forall i | 0 <= i < |lines|
      ensures Restricted(MovedIn, key)(lines[i])
              == Restricted(EventAmount(Capture), key)(lines[i]) + Restricted(EventAmount(Payout), key)(lines[i])
    {
      RestrictedAmount(Capture, key, lines[i]);
      RestrictedAmount(Payout, key, lines[i]);
      assert Restricted(MovedIn, key)(lines[i]) == if lines[i].key == key then MovedIn(lines[i]) else 0;
    }
    SumSplit(lines, Restricted(MovedIn, key), Restricted(EventAmount(Capture), key),
             Restricted(EventAmount(Payout), key));
  }

  /** For all rows: the gross amounts add up to all captures and payouts, less the payouts that share a
      group with a capture. Refunds, fees, settlements and counts are always conserved. */
  lemma TotalsAreConserved(keys: seq<Key>, lines: seq<Line>)
    requires Lists(keys, lines)
    ensures SumBy(keys, Gross(lines)) + SumBy(keys, HiddenPayout(lines))
            == SumBy(lines, EventAmount(Capture)) + SumBy(lines, EventAmount(Payout))
    ensures SumBy(keys, (k: Key) => EntryFor(lines, k).refunds) == SumBy(lines, EventAmount(Refund))
    ensures SumBy(keys, (k: Key) => EntryFor(lines, k).fees) == SumBy(lines, EventAmount(ProcessorFee))
    ensures SumBy(keys, (k: Key) => EntryFor(lines, k).settled) == SumBy(lines, EventAmount(Settlement))
    ensures SumBy(keys, (k: Key) => EntryFor(lines, k).count) == SumBy(lines, Counted)
  {
    GrossIsConserved(keys, lines);
    GroupsAddUp(keys, lines, EventAmount(Refund));
    SumSame(keys, (k: Key) => EntryFor(lines, k).refunds, PerKey(lines, EventAmount(Refund)));
    GroupsAddUp(keys, lines, EventAmount(ProcessorFee));
    SumSame(keys, (k: Key) => EntryFor(lines, k).fees, PerKey(lines, EventAmount(ProcessorFee)));
    GroupsAddUp(keys, lines, EventAmount(Settlement));
    SumSame(keys, (k: Key) => EntryFor(lines, k).settled, PerKey(lines, EventAmount(Settlement)));
    GroupsAddUp(keys, lines, Counted);
    SumSame(keys, (k: Key) => EntryFor(lines, k).count, PerKey(lines, Counted));
  }

  lemma GrossIsConserved(keys: seq<Key>, lines: seq<Line>)
    requires Lists(keys, lines)
    ensures SumBy(keys, Gross(lines)) + SumBy(keys, HiddenPayout(lines))
            == SumBy(lines, EventAmount(Capture)) + SumBy(lines, EventAmount(Payout))
  {
    forall i | 0 <= i < |keys|
      ensures PerKey(lines, MovedIn)(keys[i]) == Gross(lines)(keys[i]) + HiddenPayout(lines)(keys[i])
    {
      MovedInPerKey(lines, keys[i]);
    }
    SumSplit(keys, PerKey(lines, MovedIn), Gross(lines), HiddenPayout(lines));
    GroupsAddUp(keys, lines, MovedIn);
    SumSplit(lines, MovedIn, EventAmount(Capture), EventAmount(Payout));
  }

  lemma NothingHidden(lines: seq<Line>, key: Key)
    requires PayoutsApart(lines) && WellDeclared(lines)
    ensures HiddenPayout(lines)(key) == 0
  {
    if key.flow == "payout" {
      SumZero(lines, Restricted(EventAmount(Capture), key));
    } else {
      PayoutsStayInTheirFlow(lines, key);
    }
  }

  /** When no payment declares itself a payout, the entries conserve the gross total and their
      outstanding amounts add up to the daily route's value. */
  lemma WellDeclaredRowsAgree(keys: seq<Key>, rows: seq<SourceRow>)
    requires Lists(keys, LinesOf(rows))
    requires forall i :: 0 <= i < |rows| && rows[i].event != Payout ==> Lower(Strip(rows[i].declared)) != "payout"
    ensures SumBy(keys, Gross(LinesOf(rows)))
            == SumBy(LinesOf(rows), EventAmount(Capture)) + SumBy(LinesOf(rows), EventAmount(Payout))
    ensures SumBy(keys, Outstanding(LinesOf(rows))) == DailyOutstanding(LinesOf(rows))
  {
    var lines := LinesOf(rows);
    WellDeclaredIff(rows);
    GrossIsConserved(keys, lines);
    OutstandingAgainstDaily(keys, rows);
    forall i | 0 <= i < |keys| ensures HiddenPayout(lines)(keys[i]) == 0 { NothingHidden(lines, keys[i]); }
    SumZero(keys, HiddenPayout(lines));
    SumZero(lines, SignedMisdeclared);
  }

  /** A capture of 100 whose metadata declares a payout vanishes from the outstanding amounts. */
  lemma MisdeclaredExample()
    ensures var row := SourceRow("diddigo", "paystack", "order-1", "payout", Capture, 1, 100);
            var lines := LinesOf([row]);
            EntryFor(lines, lines[0].key).outstanding == 0 && DailyOutstanding(lines) == 100
  {
    var row := SourceRow("diddigo", "paystack", "order-1", "payout", Capture, 1, 100);
    var lines := LinesOf([row]);
    assert Strip("payout") == "payout";
    assert Lower("payout") == "payout";
    PayoutFlowIff(row.reference, row.declared);
    var line := lines[0];
    assert lines == [] + [line];
    DailyIsSigned(lines);
    SumAppend([], line, Signed);
  }

  // --- Row order -----------------------------------------------------------------------------------------

  lemma {:induction false} SumIgnoresOrder(a: seq<Line>, b: seq<Line>, f: Line -> int)
    requires multiset(a) == multiset(b)
    ensures SumBy(a, f) == SumBy(b, f)
  {
    if a == [] {
      assert |b| == |multiset(b)| == |multiset(a)|;
    } else {
      var n := |a| - 1;
      var x := a[n];
      assert a == a[..n] + [x];
      assert x in multiset(a);
      var i :| 0 <= i < |b| && b[i] == x;
      var rest := b[..i] + b[i + 1..];
      assert b == b[..i] + [x] + b[i + 1..];
      assert multiset(rest) == multiset(b) - multiset{x};
      SumIgnoresOrder(a[..n], rest, f);
      SumConcat(b[..i], b[i + 1..], f);
      SumConcat(b[..i] + [x], b[i + 1..], f);
      SumAppend(b[..i], x, f);
    }
  }

  lemma SameTotalsOf(a: seq<Line>, b: seq<Line>, key: Key)
    requires multiset(a) == multiset(b)
    ensures TotalsOf(a, key) == TotalsOf(b, key)
  {
    SumIgnoresOrder(a, b, Restricted(Counted, key));
    SumIgnoresOrder(a, b, Restricted(EventAmount(Capture), key));
    SumIgnoresOrder(a, b, Restricted(EventAmount(Refund), key));
    SumIgnoresOrder(a, b, Restricted(EventAmount(ProcessorFee), key));
    SumIgnoresOrder(a, b, Restricted(EventAmount(Settlement), key));
    SumIgnoresOrder(a, b, Restricted(EventAmount(Payout), key));
  }

  lemma SameKeys(a: seq<Line>, b: seq<Line>, key: Key)
    requires multiset(a) == multiset(b) && HasKey(a, key)
    ensures HasKey(b, key)
  {
    var i :| 0 <= i < |a| && a[i].key == key;
    assert a[i] in multiset(b);
    var j :| 0 <= j < |b| && b[j] == a[i];
  }

  /** The groups, and so the entries, do not depend on the order of the rows. */
  lemma GroupIgnoresOrder(a: seq<Line>, b: seq<Line>)
    requires multiset(a) == multiset(b)
    ensures Group(a) == Group(b)
  {
    forall key: Key
      ensures key in Group(a) <==> key in Group(b)
      ensures key in Group(a) ==> key in Group(b) && Group(a)[key] == Group(b)[key]
    {
      GroupIsPerKeySums(a, key);
      GroupIsPerKeySums(b, key);
      SameTotalsOf(a, b, key);
      if HasKey(a, key) { SameKeys(a, b, key); }
      if HasKey(b, key) { SameKeys(b, a, key); }
    }
  }

  // --- The use case ----------------------------------------------------------------------------------------

  lemma GroupStep(lines: seq<Line>, line: Line)
    ensures var before := Group(lines);
            Group(lines + [line])
            == before[line.key := WithLine(if line.key in before then before[line.key] else NOTHING, line)]
  {
    assert (lines + [line])[..|lines|] == lines;
  }

  method GroupLines(lines: seq<Line>) returns (grouped: map<Key, Totals>)
    ensures grouped == Group(lines)
  {
    grouped := map[];
    for i := 0 to |lines|
      invariant grouped == Group(lines[..i])
    {
      assert lines[..i + 1] == lines[..i] + [lines[i]];
      GroupStep(lines[..i], lines[i]);
      grouped := WithGrouped(grouped, lines[i]);
    }
    assert lines[..|lines|] == lines;
  }

  /** One turn of the loop: the group of the line is made when missing, then updated. */
  method WithGrouped(before: map<Key, Totals>, line: Line) returns (grouped: map<Key, Totals>)
    ensures grouped == before[line.key := WithLine(if line.key in before then before[line.key] else NOTHING, line)]
  {
    grouped := before;
    if line.key !in grouped {
      grouped := grouped[line.key := NOTHING];
    }
    grouped := grouped[line.key := WithLine(grouped[line.key], line)];
  }

  /** The entries of a day: each group once, as its own rows add up. */
  method Summarise(rows: seq<SourceRow>) returns (keys: seq<Key>, entries: seq<Entry>)
    ensures Lists(keys, LinesOf(rows)) && |entries| == |keys|
    ensures forall i :: 0 <= i < |keys| ==>
              HasKey(LinesOf(rows), keys[i]) && entries[i] == EntryFor(LinesOf(rows), keys[i])
  {
    var lines := LinesOf(rows);
    var grouped := GroupLines(lines);
    keys, entries := [], [];
    var left := grouped.Keys;
    while left != {}
      invariant left <= grouped.Keys && |entries| == |keys|
      invariant forall k :: k in grouped ==> k in left || k in keys
      invariant forall i :: 0 <= i < |keys| ==> keys[i] in grouped && keys[i] !in left
      invariant forall i, j :: 0 <= i < j < |keys| ==> keys[i] != keys[j]
      invariant forall i :: 0 <= i < |keys| ==> entries[i] == EntryOf(keys[i], grouped[keys[i]])
      decreases left
    {
      var key :| key in left;
      keys, entries, left := keys + [key], entries + [EntryOf(key, grouped[key])], left - {key};
    }
    forall i | 0 <= i < |keys| ensures HasKey(lines, keys[i]) && entries[i] == EntryFor(lines, keys[i]) {
      GroupIsPerKeySums(lines, keys[i]);
    }
    forall i | 0 <= i < |lines| ensures lines[i].key in keys { GroupIsPerKeySums(lines, lines[i].key); }
  }
}
