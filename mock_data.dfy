/**
 * The income-proof engine of src/utils/mockData.ts: the mock transaction feed,
 * the income aggregation, the construction of a proof record, and the constant
 * jurisdiction and network tables.
 *
 * Every draw of `Math.random()` is a parameter: a real in [0, 1) taken from a
 * sequence in the order the source draws them, except the one behind each
 * payment's `txHash`, whose text is a parameter of its own. The clock
 * (`new Date()`) is a parameter as well.
 */
module MockData {
  import opened Wrappers
  import opened Types
  import opened JsNumber

  // ----- Random draws -------------------------------------------------------

  /** Every element is a possible result of `Math.random()`. */
  predicate UnitInterval(rs: seq<real>) {
    forall i :: 0 <= i < |rs| ==> 0.0 <= rs[i] < 1.0
  }

  lemma ScaledBelow(r: real, n: nat)
    requires 0.0 <= r < 1.0 && n > 0
    ensures 0.0 <= r * n as real < n as real
  {
    assert (1.0 - r) * n as real > 0.0;
  }

  /** `Math.floor(r * n)` for a draw r: an index below n. */
  function RandomBelow(r: real, n: nat): (k: nat)
    requires 0.0 <= r < 1.0 && n > 0
    ensures k < n
  {
    ScaledBelow(r, n);
    (r * n as real).Floor
  }

  // ----- Constant tables ----------------------------------------------------

  datatype Employer = Employer(address: string, name: string)

  const Employers: seq<Employer> := [
    Employer("0x1234...5678", "NeuraTech Labs"),
    Employer("0x8765...4321", "DeFi Protocol Inc"),
    Employer("0xabcd...efgh", "Web3 Ventures"),
    Employer("0x9999...1111", "Crypto Consulting")
  ]

  const Memos: seq<string> := [
    "Monthly salary payment",
    "Project milestone completion",
    "Freelance development work",
    "Smart contract audit",
    "UI/UX design services",
    "Technical consultation",
    "Bug bounty reward",
    "Protocol integration work"
  ]

  datatype Jurisdiction = Jurisdiction(code: string, name: string, flag: string)

  const PermittedJurisdictions: seq<Jurisdiction> := [
    Jurisdiction("US", "United States", "\U{1F1FA}\U{1F1F8}"),
    Jurisdiction("UK", "United Kingdom", "\U{1F1EC}\U{1F1E7}"),
    Jurisdiction("EU", "European Union", "\U{1F1EA}\U{1F1FA}"),
    Jurisdiction("CA", "Canada", "\U{1F1E8}\U{1F1E6}"),
    Jurisdiction("AU", "Australia", "\U{1F1E6}\U{1F1FA}"),
    Jurisdiction("SG", "Singapore", "\U{1F1F8}\U{1F1EC}"),
    Jurisdiction("JP", "Japan", "\U{1F1EF}\U{1F1F5}")
  ]

  const BlockedJurisdictions: seq<Jurisdiction> := [
    Jurisdiction("KP", "North Korea", "\U{1F1F0}\U{1F1F5}"),
    Jurisdiction("IR", "Iran", "\U{1F1EE}\U{1F1F7}"),
    Jurisdiction("CU", "Cuba", "\U{1F1E8}\U{1F1FA}")
  ]

  /** No code is both permitted and blocked. */
  lemma JurisdictionTablesDisjoint()
    ensures forall i, j ::
              0 <= i < |PermittedJurisdictions| && 0 <= j < |BlockedJurisdictions| ==>
                PermittedJurisdictions[i].code != BlockedJurisdictions[j].code
  {
  }

  const NeuraTestnetChainId: nat := 267

  // ----- Calendar dates -----------------------------------------------------

  /** Months since year 0: dates in the same (year, month) have the same number. */
  function MonthNumber(d: CalendarDate): int {
    d.year * 12 + d.month
  }

  predicate IsLeapYear(year: int) {
    (year % 4 == 0 && year % 100 != 0) || year % 400 == 0
  }

  function DaysInMonth(year: int, month: MonthIndex): (n: nat)
    ensures 28 <= n <= 31
  {
    if month == 1 then (if IsLeapYear(year) then 29 else 28)
    else if month == 3 || month == 5 || month == 8 || month == 10 then 30
    else 31
  }

  /**
   * The date as the generator computes it: a copy of `now` is moved back
   * `back` months with `setMonth`, which keeps the day of the month and lets a
   * day the target month lacks run over into the next month; `setDate(day)`
   * then sets the day within whatever month that gave.
   */
  function PaymentDateAsWritten(now: CalendarDate, back: nat, day: DayOfMonth): (d: CalendarDate)
    ensures var target := MonthNumber(now) - back;
      MonthNumber(d) == target + (if now.day > DaysInMonth(target / 12, target % 12) then 1 else 0)
    ensures d.day == day
  {
    var target := MonthNumber(now) - back;
    var m := if now.day > DaysInMonth(target / 12, target % 12) then target + 1 else target;
    CalendarDate(m / 12, m % 12, day)
  }

  /**
   * On 31 March 2024 the payments of one month back land in March as well: the
   * copy moved to "31 February" runs over to 2 March. "31 November" runs over
   * to 1 December in the same way, so the six months back give March, March,
   * January, December, December and October: four calendar months, not six.
   */
  lemma MonthRolloverCollapsesMonths()
    ensures var now := CalendarDate(2024, 2, 31);
      var m := MonthNumber(now);
      && MonthNumber(PaymentDateAsWritten(now, 0, 5)) == m
      && MonthNumber(PaymentDateAsWritten(now, 1, 5)) == m
      && MonthNumber(PaymentDateAsWritten(now, 2, 5)) == m - 2
      && MonthNumber(PaymentDateAsWritten(now, 3, 5)) == m - 3
      && MonthNumber(PaymentDateAsWritten(now, 4, 5)) == m - 3
      && MonthNumber(PaymentDateAsWritten(now, 5, 5)) == m - 5
  {
  }

  /** The date `back` months before `now`, on the given day of that month. */
  function PaymentDate(now: CalendarDate, back: nat, day: DayOfMonth): (d: CalendarDate)
    ensures MonthNumber(d) == MonthNumber(now) - back && d.day == day
  {
    var m := MonthNumber(now) - back;
    CalendarDate(m / 12, m % 12, day)
  }

  /** a is strictly earlier than b. */
  predicate Before(a: CalendarDate, b: CalendarDate) {
    || a.year < b.year
    || (a.year == b.year && a.month < b.month)
    || (a.year == b.year && a.month == b.month && a.day < b.day)
  }

  // ----- The mock feed ------------------------------------------------------

  /** The id `tx-<month>-<i>` of the i-th payment `month` months back. */
  function TxId(month: nat, i: nat): string {
    "tx-" + NumberToString(month, 10) + "-" + NumberToString(i, 10)
  }

  lemma TxIdInjective(m1: nat, i1: nat, m2: nat, i2: nat)
    requires m1 < 10 && i1 < 10 && m2 < 10 && i2 < 10
    requires TxId(m1, i1) == TxId(m2, i2)
    ensures m1 == m2 && i1 == i2
  {
    assert TxId(m1, i1)[3] == DigitChar(m1) && TxId(m1, i1)[5] == DigitChar(i1);
    assert TxId(m2, i2)[3] == DigitChar(m2) && TxId(m2, i2)[5] == DigitChar(i2);
  }

  predicate DistinctIds(s: seq<Transaction>) {
    forall i, j :: 0 <= i < j < |s| ==> s[i].id != s[j].id
  }

  /** Newest first: no transaction is earlier than one after it. */
  predicate NewestFirst(s: seq<Transaction>) {
    forall i, j :: 0 <= i < j < |s| ==> !Before(s[i].timestamp, s[j].timestamp)
  }

  predicate AdjacentNewestFirst(s: seq<Transaction>) {
    forall i :: 0 <= i < |s| - 1 ==> !Before(s[i].timestamp, s[i + 1].timestamp)
  }

  lemma {:induction false} AdjacentToNewestFirst(s: seq<Transaction>)
    requires AdjacentNewestFirst(s)
    ensures NewestFirst(s)
  {
    if |s| > 1 {
      AdjacentToNewestFirst(s[1..]);
      forall j | 1 <= j < |s|
        ensures !Before(s[0].timestamp, s[j].timestamp)
      {
        if j > 1 {
          assert s[1..][0] == s[1] && s[1..][j - 1] == s[j];
        }
      }
    }
  }

  /** One step of a stable newest-first insertion: t goes before the first element not newer than it. */
  function InsertNewestFirst(t: Transaction, s: seq<Transaction>): (r: seq<Transaction>)
    ensures multiset(r) == multiset(s) + multiset{t}
    ensures r[0] == t || (s != [] && r[0] == s[0])
    ensures AdjacentNewestFirst(s) ==> AdjacentNewestFirst(r)
  {
    if s == [] then [t]
    else if !Before(t.timestamp, s[0].timestamp) then [t] + s
    else
      var rest := InsertNewestFirst(t, s[1..]);
      assert s == [s[0]] + s[1..];
      [s[0]] + rest
  }

  /** The ordering `Array.prototype.sort` gives with the comparator `b - a` on timestamps (it is stable). */
  function SortNewestFirst(s: seq<Transaction>): (r: seq<Transaction>)
    ensures multiset(r) == multiset(s) && AdjacentNewestFirst(r)
  {
    if s == [] then []
    else
      assert s == [s[0]] + s[1..];
      InsertNewestFirst(s[0], SortNewestFirst(s[1..]))
  }

  /** Every element of an insertion is the inserted one or an element of the list. */
  lemma InsertedFrom(t: Transaction, s: seq<Transaction>, u: Transaction)
    requires u in InsertNewestFirst(t, s)
    ensures u == t || u in s
  {
    assert u in multiset(InsertNewestFirst(t, s));
    if u != t {
      assert u in multiset(s);
    }
  }

  lemma {:induction false} InsertKeepsIdsDistinct(t: Transaction, s: seq<Transaction>)
    requires DistinctIds(s)
    requires forall u <- s :: u.id != t.id
    ensures DistinctIds(InsertNewestFirst(t, s))
  {
    if s != [] && Before(t.timestamp, s[0].timestamp) {
      var rest := InsertNewestFirst(t, s[1..]);
      InsertKeepsIdsDistinct(t, s[1..]);
      forall u | u in rest
        ensures u.id != s[0].id
      {
        InsertedFrom(t, s[1..], u);
      }
      var r := [s[0]] + rest;
      forall i, j | 0 <= i < j < |r|
        ensures r[i].id != r[j].id
      {
        if i > 0 {
          assert r[i] == rest[i - 1] && r[j] == rest[j - 1];
        } else {
          assert r[j] in rest;
        }
      }
    }
  }

  lemma {:induction false} SortKeepsIdsDistinct(s: seq<Transaction>)
    requires DistinctIds(s)
    ensures DistinctIds(SortNewestFirst(s))
  {
    if s != [] {
      var sorted := SortNewestFirst(s[1..]);
      SortKeepsIdsDistinct(s[1..]);
      forall u | u in sorted
        ensures u.id != s[0].id
      {
        assert u in multiset(sorted);
        assert u in s[1..];
      }
      InsertKeepsIdsDistinct(s[0], sorted);
    }
  }

  /** What the generator promises of every transaction it produces. */
  predicate Generated(t: Transaction, walletAddress: string, now: CalendarDate) {
    && 1500 <= t.amount <= 6499
    && 1 <= t.timestamp.day <= 28
    && t.to == walletAddress
    && (exists k :: 0 <= k < |Employers| && Employers[k].address == t.from)
    && t.memo in Memos
    && exists month: nat, i: nat ::
         month < 6 && i < 4 && t.id == TxId(month, i) && MonthNumber(t.timestamp) == MonthNumber(now) - month
  }

  /** Generated, with the (month, i) of the id given. */
  ghost predicate Tagged(t: Transaction, tag: (nat, nat), walletAddress: string, now: CalendarDate) {
    && 1500 <= t.amount <= 6499
    && 1 <= t.timestamp.day <= 28
    && t.to == walletAddress
    && (exists k :: 0 <= k < |Employers| && Employers[k].address == t.from)
    && t.memo in Memos
    && tag.0 < 6 && tag.1 < 4 && t.id == TxId(tag.0, tag.1)
    && MonthNumber(t.timestamp) == MonthNumber(now) - tag.0
  }

  /** Some payment of the feed falls in the month with the given number. */
  predicate HasPaymentInMonth(s: seq<Transaction>, n: int) {
    exists t <- s :: MonthNumber(t.timestamp) == n
  }

  /**
   * One payment of the feed: the employer, the amount (1500 to 6499), the day
   * (1 to 28) and the memo from four draws, in that order, and the hash text.
   */
  function Payment(walletAddress: string, now: CalendarDate, month: nat, i: nat,
                   r0: real, r1: real, r2: real, r3: real, hash: string): (tx: Transaction)
    requires month < 6 && i < 4
    requires 0.0 <= r0 < 1.0 && 0.0 <= r1 < 1.0 && 0.0 <= r2 < 1.0 && 0.0 <= r3 < 1.0
    ensures Tagged(tx, (month, i), walletAddress, now)
    ensures tx.txHash == "0x" + hash
  {
    var e := RandomBelow(r0, |Employers|);
    var amount := RandomBelow(r1, 5000) + 1500;
    var day := RandomBelow(r2, 28) + 1;
    var memo := Memos[RandomBelow(r3, |Memos|)];
    Transaction(TxId(month, i), Employers[e].address, walletAddress, amount, PaymentDate(now, month, day), memo, "0x" + hash)
  }

  /** A tag not yet used gives an id not yet used. */
  lemma FreshPaymentId(pushed: seq<Transaction>, tags: seq<(nat, nat)>, month: nat, i: nat)
    requires |tags| == |pushed|
    requires forall j :: 0 <= j < |pushed| ==> pushed[j].id == TxId(tags[j].0, tags[j].1) && tags[j].0 < 6 && tags[j].1 < 4
    requires forall j :: 0 <= j < |pushed| ==> tags[j].0 < month || (tags[j].0 == month && tags[j].1 < i)
    requires month < 6 && i < 4
    ensures forall j :: 0 <= j < |pushed| ==> pushed[j].id != TxId(month, i)
  {
    forall j | 0 <= j < |pushed|
      ensures pushed[j].id != TxId(month, i)
    {
      if pushed[j].id == TxId(month, i) {
        TxIdInjective(tags[j].0, tags[j].1, month, i);
      }
    }
  }

  /**
   * The most draws of `Math.random()` one feed takes: per month one count and
   * four per payment (employer, amount, day, memo). The fifth draw of each
   * payment, behind its `txHash`, is not taken from this sequence.
   */
  const MaxFeedDraws: nat := 6 * (1 + 4 * 4)

  /**
   * `generateMockTransactions`: six months back from `now`, two to four payments
   * each, then sorted newest first. `rand` holds the draws of `Math.random()` in
   * the order the source takes them, leaving out the hash draw, and `hashes[n]`
   * the text the n-th payment's hash gets after "0x".
   */
  method GenerateMockTransactions(walletAddress: string, now: CalendarDate, rand: seq<real>, hashes: seq<string>)
    returns (transactions: seq<Transaction>)
    requires |rand| >= MaxFeedDraws && UnitInterval(rand) && |hashes| >= 24
    ensures 12 <= |transactions| <= 24
    ensures forall t <- transactions :: Generated(t, walletAddress, now)
    ensures DistinctIds(transactions)
    ensures NewestFirst(transactions)
    ensures forall n :: MonthNumber(now) - 6 < n <= MonthNumber(now) ==> HasPaymentInMonth(transactions, n)
  {
    var pushed: seq<Transaction> := [];
    ghost var tags: seq<(nat, nat)> := [];
    ghost var firstOf: seq<nat> := [];
    var k := 0;
    for month := 0 to 6
      invariant k <= 17 * month && |tags| == |pushed|
      invariant 2 * month <= |pushed| <= 4 * month
      invariant forall j :: 0 <= j < |pushed| ==> Tagged(pushed[j], tags[j], walletAddress, now) && tags[j].0 < month
      invariant DistinctIds(pushed)
      invariant |firstOf| == month
      invariant forall b :: 0 <= b < month ==> firstOf[b] < |tags| && tags[firstOf[b]].0 == b
    {
      var paymentsThisMonth := RandomBelow(rand[k], 3) + 2;
      k := k + 1;
      ghost var before := |pushed|;
      for i := 0 to paymentsThisMonth
        invariant k <= 17 * month + 1 + 4 * i
        invariant |tags| == |pushed| == before + i
        invariant forall j :: 0 <= j < |pushed| ==>
                    Tagged(pushed[j], tags[j], walletAddress, now) && (tags[j].0 < month || (tags[j].0 == month && tags[j].1 < i))
        invariant DistinctIds(pushed)
        invariant forall b :: 0 <= b < month ==> firstOf[b] < |tags| && tags[firstOf[b]].0 == b
        invariant i > 0 ==> tags[before].0 == month
      {
        var tx := Payment(walletAddress, now, month, i, rand[k], rand[k + 1], rand[k + 2], rand[k + 3], hashes[|pushed|]);
        FreshPaymentId(pushed, tags, month, i);
        pushed := pushed + [tx];
        tags := tags + [(month, i)];
        k := k + 4;
      }
      firstOf := firstOf + [before];
    }
    transactions := SortNewestFirst(pushed);
    SortedFeed(pushed, tags, firstOf, walletAddress, now);
  }

  /** What sorting a feed of tagged payments, one tag per month at least, keeps. */
  lemma SortedFeed(pushed: seq<Transaction>, tags: seq<(nat, nat)>, firstOf: seq<nat>, walletAddress: string, now: CalendarDate)
    requires |tags| == |pushed| && DistinctIds(pushed)
    requires forall j :: 0 <= j < |pushed| ==> Tagged(pushed[j], tags[j], walletAddress, now)
    requires |firstOf| == 6 && forall b :: 0 <= b < 6 ==> firstOf[b] < |tags| && tags[firstOf[b]].0 == b
    ensures var r := SortNewestFirst(pushed);
      && |r| == |pushed| && DistinctIds(r) && NewestFirst(r)
      && (forall t <- r :: Generated(t, walletAddress, now))
      && (forall n :: MonthNumber(now) - 6 < n <= MonthNumber(now) ==> HasPaymentInMonth(r, n))
  {
    var r := SortNewestFirst(pushed);
    AdjacentToNewestFirst(r);
    SortKeepsIdsDistinct(pushed);
    assert |r| == |multiset(r)| == |multiset(pushed)| == |pushed|;
    forall t | t in r
      ensures Generated(t, walletAddress, now)
    {
      assert t in multiset(pushed);
      var j :| 0 <= j < |pushed| && pushed[j] == t;
      assert Tagged(t, tags[j], walletAddress, now);
      assert t.id == TxId(tags[j].0, tags[j].1);
    }
    forall n | MonthNumber(now) - 6 < n <= MonthNumber(now)
      ensures HasPaymentInMonth(r, n)
    {
      var back := MonthNumber(now) - n;
      var t := pushed[firstOf[back]];
      assert Tagged(t, tags[firstOf[back]], walletAddress, now);
      assert t in multiset(r);
    }
  }

  // ----- Income aggregation -------------------------------------------------

  /** The calendar month of a payment: `${getFullYear()}-${getMonth()}`. */
  function MonthKey(t: Transaction): (key: (int, int))
    ensures 0 <= key.1 < 12 && key.0 * 12 + key.1 == MonthNumber(t.timestamp)
  {
    (t.timestamp.year, t.timestamp.month)
  }

  /** The sum of all amounts, added left to right as `reduce` does. */
  function TotalAmount(s: seq<Transaction>): int {
    if s == [] then 0 else TotalAmount(s[..|s| - 1]) + s[|s| - 1].amount
  }

  /** The sum of the amounts paid in one calendar month. */
  function MonthTotal(s: seq<Transaction>, key: (int, int)): int {
    if s == [] then 0
    else MonthTotal(s[..|s| - 1], key) + (if MonthKey(s[|s| - 1]) == key then s[|s| - 1].amount else 0)
  }

  /** The distinct calendar months that hold a payment. */
  function MonthKeys(s: seq<Transaction>): set<(int, int)> {
    set i | 0 <= i < |s| :: MonthKey(s[i])
  }

  /** The distinct payers. */
  function Payers(s: seq<Transaction>): set<string> {
    set i | 0 <= i < |s| :: s[i].from
  }

  lemma MonthKeysSnoc(s: seq<Transaction>, t: Transaction)
    ensures MonthKeys(s + [t]) == MonthKeys(s) + {MonthKey(t)}
  {
    var u := s + [t];
    forall key | key in MonthKeys(u)
      ensures key in MonthKeys(s) + {MonthKey(t)}
    {
      var i :| 0 <= i < |u| && MonthKey(u[i]) == key;
      if i < |s| {
        assert u[i] == s[i];
      }
    }
    forall key | key in MonthKeys(s)
      ensures key in MonthKeys(u)
    {
      var i :| 0 <= i < |s| && MonthKey(s[i]) == key;
      assert u[i] == s[i];
    }
    assert u[|s|] == t;
  }

  lemma PayersSnoc(s: seq<Transaction>, t: Transaction)
    ensures Payers(s + [t]) == Payers(s) + {t.from}
  {
    var u := s + [t];
    forall p | p in Payers(u)
      ensures p in Payers(s) + {t.from}
    {
      var i :| 0 <= i < |u| && u[i].from == p;
      if i < |s| {
        assert u[i] == s[i];
      }
    }
    forall p | p in Payers(s)
      ensures p in Payers(u)
    {
      var i :| 0 <= i < |s| && s[i].from == p;
      assert u[i] == s[i];
    }
    assert u[|s|] == t;
  }

  lemma {:induction false} MonthTotalOfAbsentMonth(s: seq<Transaction>, key: (int, int))
    requires key !in MonthKeys(s)
    ensures MonthTotal(s, key) == 0
  {
    if s != [] {
      var p := s[..|s| - 1];
      assert s == p + [s[|s| - 1]];
      MonthKeysSnoc(p, s[|s| - 1]);
      MonthTotalOfAbsentMonth(p, key);
    }
  }

  /** One step of the `forEach`: adding a payment to the running month totals keeps them the totals of the longer prefix. */
  lemma TallyStep(p: seq<Transaction>, tx: Transaction, totals: map<(int, int), int>)
    requires totals.Keys == MonthKeys(p)
    requires forall key :: key in totals ==> totals[key] == MonthTotal(p, key)
    ensures var key := MonthKey(tx);
      var next := totals[key := (if key in totals then totals[key] else 0) + tx.amount];
      && next.Keys == MonthKeys(p + [tx])
      && forall k :: k in next ==> next[k] == MonthTotal(p + [tx], k)
  {
    MonthKeysSnoc(p, tx);
    if MonthKey(tx) !in totals {
      MonthTotalOfAbsentMonth(p, MonthKey(tx));
    }
    assert (p + [tx])[..|p + [tx]| - 1] == p;
  }

  /** Every payment lies in some month and no month is counted twice: 1 <= months <= payments for a non-empty feed. */
  lemma {:induction false} MonthCountBounds(s: seq<Transaction>)
    ensures |MonthKeys(s)| <= |s|
    ensures |MonthKeys(s)| == 0 <==> s == []
  {
    if s != [] {
      var p := s[..|s| - 1];
      assert s == p + [s[|s| - 1]];
      MonthKeysSnoc(p, s[|s| - 1]);
      MonthCountBounds(p);
      assert MonthKey(s[|s| - 1]) in MonthKeys(s);
    }
  }

  /** The if-chain on `avgPaymentsPerMonth`, first match wins. */
  function ClassifyRate(rate: real): (f: Frequency)
    ensures f == Weekly <==> 4.0 <= rate
    ensures f == BiWeekly <==> 2.0 <= rate < 4.0
    ensures f == Monthly <==> 0.8 <= rate < 2.0
    ensures f == Irregular <==> rate < 0.8
  {
    if rate >= 4.0 then Weekly
    else if rate >= 2.0 then BiWeekly
    else if rate >= 0.8 then Monthly
    else Irregular
  }

  lemma DivMul(c: real, m: real)
    requires m > 0.0
    ensures (c / m) * m == c
  {
  }

  lemma Threshold(x: real, m: real, c: real, t: real)
    requires m > 0.0 && x * m == c
    ensures x >= t <==> c >= t * m
  {
    if x >= t {
      assert (x - t) * m >= 0.0;
    } else {
      assert (t - x) * m > 0.0;
    }
  }

  /** Comparing count / months with the thresholds is comparing count with multiples of months. */
  lemma RateThresholds(count: nat, months: nat)
    requires months > 0
    ensures var rate := count as real / months as real;
      && (rate >= 4.0 <==> count >= 4 * months)
      && (rate >= 2.0 <==> count >= 2 * months)
      && (rate >= 0.8 <==> 5 * count >= 4 * months)
  {
    var rate := count as real / months as real;
    var m := months as real;
    DivMul(count as real, m);
    Threshold(rate, m, count as real, 4.0);
    Threshold(rate, m, count as real, 2.0);
    Threshold(rate, m, count as real, 0.8);
  }

  /** `months > 0 ? totalIncome / months : 0`. */
  function AverageOf(total: int, months: nat): (average: real)
    ensures months > 0 ==> average * months as real == total as real
    ensures months == 0 ==> average == 0.0
  {
    if months > 0 then total as real / months as real else 0.0
  }

  /**
   * The class of `count / months`. With no months the rate is 0 / 0, NaN, for
   * no payments, which fails every comparison, and +Infinity otherwise.
   */
  function FrequencyOf(count: nat, months: nat): (f: Frequency)
    ensures f == Weekly <==> count >= 4 * months && (months > 0 || count > 0)
    ensures f == Irregular <==> count == 0 || 5 * count < 4 * months
  {
    if months > 0 then
      RateThresholds(count, months);
      ClassifyRate(count as real / months as real)
    else if count > 0 then Weekly
    else Irregular
  }

  lemma FrequencyCrossMultiplied(count: nat, months: nat)
    ensures FrequencyOf(count, months) ==
      if (months > 0 && count >= 4 * months) || (months == 0 && count > 0) then Weekly
      else if months > 0 && count >= 2 * months then BiWeekly
      else if months > 0 && 5 * count >= 4 * months then Monthly
      else Irregular
  {
    if months > 0 {
      RateThresholds(count, months);
    }
  }

  /** `transactions.reduce((sum, tx) => sum + tx.amount, 0)`. */
  method SumAmounts(transactions: seq<Transaction>) returns (totalIncome: int)
    ensures totalIncome == TotalAmount(transactions)
  {
    totalIncome := 0;
    for k := 0 to |transactions|
      invariant totalIncome == TotalAmount(transactions[..k])
    {
      assert transactions[..k + 1][..k] == transactions[..k];
      totalIncome := totalIncome + transactions[k].amount;
    }
    assert transactions[..|transactions|] == transactions;
  }

  /**
   * The `forEach` of `calculateIncomeMetrics`: the total of each calendar
   * month that holds a payment, and the set of payers.
   */
  method TallyMonthsAndPayers(transactions: seq<Transaction>) returns (monthlyTotals: map<(int, int), int>, uniqueEmployers: set<string>)
    ensures monthlyTotals.Keys == MonthKeys(transactions)
    ensures forall key :: key in monthlyTotals ==> monthlyTotals[key] == MonthTotal(transactions, key)
    ensures uniqueEmployers == Payers(transactions)
  {
    monthlyTotals := map[];
    uniqueEmployers := {};
    for k := 0 to |transactions|
      invariant monthlyTotals.Keys == MonthKeys(transactions[..k])
      invariant forall key :: key in monthlyTotals ==> monthlyTotals[key] == MonthTotal(transactions[..k], key)
      invariant uniqueEmployers == Payers(transactions[..k])
    {
      var tx := transactions[k];
      var monthKey := MonthKey(tx);
      var p := transactions[..k];
      assert transactions[..k + 1] == p + [tx];
      TallyStep(p, tx, monthlyTotals);
      PayersSnoc(p, tx);
      monthlyTotals := monthlyTotals[monthKey := (if monthKey in monthlyTotals then monthlyTotals[monthKey] else 0) + tx.amount];
      uniqueEmployers := uniqueEmployers + {tx.from};
    }
    assert transactions[..|transactions|] == transactions;
  }

  /**
   * `calculateIncomeMetrics`. The frequency rate `transactions.length / months`
   * is compared without division; with no months it is 0 / 0, NaN, which fails
   * every comparison (a positive count over no months cannot happen).
   */
  method CalculateIncomeMetrics(transactions: seq<Transaction>, now: Millis) returns (data: IncomeData)
    ensures data.totalIncome == TotalAmount(transactions)
    ensures data.paymentCount == |transactions|
    ensures data.employerCount == |Payers(transactions)|
    ensures data.averageMonthlyIncome == AverageOf(TotalAmount(transactions), |MonthKeys(transactions)|)
    ensures data.paymentFrequency == FrequencyOf(|transactions|, |MonthKeys(transactions)|)
    ensures transactions == [] ==> data.averageMonthlyIncome == 0.0 && data.paymentFrequency == Irregular
    ensures data.transactions == transactions && data.lastUpdated == now
  {
    var totalIncome := SumAmounts(transactions);
    var monthlyTotals, uniqueEmployers := TallyMonthsAndPayers(transactions);

    var months := |monthlyTotals.Keys|;
    MonthCountBounds(transactions);
    var averageMonthlyIncome := if months > 0 then totalIncome as real / months as real else 0.0;

    var count := |transactions|;
    var paymentFrequency: Frequency;
    FrequencyCrossMultiplied(count, months);
    if (months > 0 && count >= 4 * months) || (months == 0 && count > 0) {
      paymentFrequency := Weekly;
    } else if months > 0 && count >= 2 * months {
      paymentFrequency := BiWeekly;
    } else if months > 0 && 5 * count >= 4 * months {
      paymentFrequency := Monthly;
    } else {
      paymentFrequency := Irregular;
    }

    data := IncomeData(totalIncome, averageMonthlyIncome, count, |uniqueEmployers|, paymentFrequency, transactions, now);
  }

  /**
   * Only months that hold a payment are counted, so a non-empty feed pays at
   * least once a month on average: `irregular` is the class of the empty feed alone.
   */
  lemma IrregularOnlyWhenEmpty(s: seq<Transaction>)
    requires s != []
    ensures |MonthKeys(s)| > 0
    ensures ClassifyRate(|s| as real / |MonthKeys(s)| as real) != Irregular
  {
    MonthCountBounds(s);
    RateThresholds(|s|, |MonthKeys(s)|);
  }

  /** More payments over the same months never give a less frequent class. */
  lemma ClassifyMonotone(c1: nat, c2: nat, months: nat)
    requires months > 0 && c1 <= c2
    ensures Rank(ClassifyRate(c1 as real / months as real)) <= Rank(ClassifyRate(c2 as real / months as real))
  {
    RateThresholds(c1, months);
    RateThresholds(c2, months);
  }

  function Rank(f: Frequency): nat {
    match f
    case Irregular => 0
    case Monthly => 1
    case BiWeekly => 2
    case Weekly => 3
  }

  // ----- Proof records ------------------------------------------------------

  /** A verification hash: "0x" and 64 lower-case hexadecimal digits. */
  predicate IsVerificationHash(h: string) {
    && |h| == 66 && h[0] == '0' && h[1] == 'x'
    && forall i :: 2 <= i < 66 ==> IsDigit(h[i], 16) && !('A' <= h[i] <= 'Z')
  }

  /** One hexadecimal digit per draw: `Math.floor(Math.random() * 16).toString(16)`. */
  function HexDigitsOf(draws: seq<real>): (s: string)
    requires UnitInterval(draws)
    ensures |s| == |draws|
    ensures forall i :: 0 <= i < |s| ==> s[i] == DigitChar(RandomBelow(draws[i], 16))
  {
    if draws == [] then "" else [DigitChar(RandomBelow(draws[0], 16))] + HexDigitsOf(draws[1..])
  }

  /** Digit i of the hash (after "0x") is the value of draw i. */
  predicate HashOfDraws(h: string, draws: seq<real>)
    requires UnitInterval(draws)
  {
    |h| == |draws| + 2 && forall i :: 0 <= i < |draws| ==> DigitValue(h[2 + i]) == RandomBelow(draws[i], 16)
  }

  const TokenURIPrefix := "ipfs://QmNeuraProof"

  function TokenURI(tokenId: int): (uri: string)
    ensures |uri| > |TokenURIPrefix| && uri[..|TokenURIPrefix|] == TokenURIPrefix
    ensures tokenId >= 0 ==> AllDigits(uri[|TokenURIPrefix|..], 10)
  {
    NumberToStringDigits(tokenId, 10);
    var uri := TokenURIPrefix + NumberToString(tokenId, 10);
    assert uri[|TokenURIPrefix|..] == NumberToString(tokenId, 10);
    uri
  }

  /** The token id can be read back from the end of its URI, so distinct ids have distinct URIs. */
  lemma TokenURINamesToken(tokenId: int)
    ensures |TokenURI(tokenId)| > |TokenURIPrefix| && TokenURI(tokenId)[..|TokenURIPrefix|] == TokenURIPrefix
    ensures ParseInt(TokenURI(tokenId)[|TokenURIPrefix|..], 0) == Some(tokenId)
  {
    assert TokenURI(tokenId)[|TokenURIPrefix|..] == NumberToString(tokenId, 10);
    DecimalRoundTrip(tokenId);
  }

  /**
   * `generateMockNFT`: a proof record for the given token id and wallet that
   * copies the income figures; `hashDraws` are the 64 draws behind its hash.
   */
  function GenerateMockNFT(tokenId: int, walletAddress: string, incomeData: IncomeData, hashDraws: seq<real>, now: Millis)
    : (nft: ProofRecord)
    requires |hashDraws| == 64 && UnitInterval(hashDraws)
    ensures nft.tokenId == tokenId && nft.walletAddress == walletAddress && nft.verificationTimestamp == now
    ensures nft.averageMonthlyIncome == incomeData.averageMonthlyIncome
    ensures nft.paymentFrequency == incomeData.paymentFrequency
    ensures nft.employerCount == incomeData.employerCount
    ensures nft.isValid && nft.tokenURI == TokenURI(tokenId)
    ensures IsVerificationHash(nft.verificationHash) && HashOfDraws(nft.verificationHash, hashDraws)
  {
    var verificationHash := "0x" + HexDigitsOf(hashDraws);
    ProofRecord(
      tokenId, walletAddress, now,
      incomeData.averageMonthlyIncome, incomeData.paymentFrequency, incomeData.employerCount,
      verificationHash, true, TokenURI(tokenId))
  }
}
