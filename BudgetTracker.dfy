/**
 * The personal budget tracker (exercise_5/budget_tracker.py): a ledger from
 * month key to a month record holding income, expenses and budget limits,
 * each a dictionary from category to amount; recording entries, setting
 * limits, the monthly summary with its overrun alerts, and the comparison of
 * spending between two months.
 *
 * Amounts are exact reals, not floats.
 */
module BudgetTracker {
  import opened Wrappers
  import opened Dicts
  import Text

  // ---------------------------------------------------------------- month keys

  predicate IsDigit(c: char) {
    '0' <= c && c <= '9'
  }

  /** The month part `strptime` accepts for `%m`: `1[0-2]`, `0[1-9]` or `[1-9]`. */
  predicate IsMonthPart(m: string) {
    (|m| == 1 && '1' <= m[0] && m[0] <= '9')
    || (|m| == 2 && ((m[0] == '0' && '1' <= m[1] && m[1] <= '9') || (m[0] == '1' && '0' <= m[1] && m[1] <= '2')))
  }

  /**
   * The strings `datetime.strptime(s, "%Y-%m")` accepts: exactly four digits
   * of year (year 0 is below the smallest year a `datetime` can hold), a dash,
   * a month from 1 to 12 with or without a leading zero, and nothing more.
   */
  predicate IsMonthKey(s: string)
    ensures IsMonthKey(s) ==> (|s| == 6 || |s| == 7) && Text.Trimmed(s)
  {
    |s| >= 6 && IsDigit(s[0]) && IsDigit(s[1]) && IsDigit(s[2]) && IsDigit(s[3])
    && s[..4] != "0000" && s[4] == '-' && IsMonthPart(s[5..])
  }

  function DigitValue(c: char): int {
    c as int - '0' as int
  }

  /** The month number a month key names. */
  function MonthNumber(s: string): (n: int)
    requires IsMonthKey(s)
    ensures 1 <= n <= 12
  {
    if |s| == 6 then DigitValue(s[5]) else 10 * DigitValue(s[5]) + DigitValue(s[6])
  }

  /**
   * One pass of the month prompt: the input is stripped, and the stripped
   * text itself (not a normalised form of it) becomes the month key.
   */
  function ReadMonth(input: string): (r: Option<string>)
    ensures r.Some? ==> r.value == Text.Strip(input)
    ensures r.Some? ==> IsMonthKey(r.value) && Text.Trimmed(r.value)
    ensures r.Some? <==> IsMonthKey(Text.Strip(input))
  {
    var s := Text.Strip(input);
    if IsMonthKey(s) then Some(s) else None
  }

  /** A key the prompt accepted is accepted again, unchanged. */
  lemma ReadMonthStable(input: string)
    requires ReadMonth(input).Some?
    ensures ReadMonth(ReadMonth(input).value) == ReadMonth(input)
  {
    Text.StripIdempotent(input);
  }

  /**
   * "2024-1" and "2024-01" are both accepted and are two different months;
   * a thirteenth month, month zero, year zero and a two-digit year are not.
   */
  lemma MonthKeyExamples()
    ensures IsMonthKey("2024-1") && IsMonthKey("2024-01") && "2024-1" != "2024-01"
    ensures MonthNumber("2024-1") == MonthNumber("2024-01") == 1
    ensures !IsMonthKey("2024-13") && !IsMonthKey("2024-00") && !IsMonthKey("0000-05") && !IsMonthKey("24-05")
  {
    assert "2024-1"[5..] == "1";
    assert "2024-01"[5..] == "01";
    assert "2024-13"[5..] == "13";
    assert "2024-00"[5..] == "00";
    assert "0000-05"[..4] == "0000";
  }

  // ---------------------------------------------------------------- the ledger

  /** The two kinds of entry `add_entry` records. */
  datatype Kind = Income | Expenses

  /** A month's record: three dictionaries from category to amount. */
  datatype MonthRecord = MonthRecord(income: Dict<real>, expenses: Dict<real>, limits: Dict<real>)

  /** The record a month gets on its first entry or limit: three empty dictionaries. */
  function NewRecord(): MonthRecord {
    MonthRecord(Empty(), Empty(), Empty())
  }

  function Entries(r: MonthRecord, kind: Kind): Dict<real> {
    match kind
    case Income => r.income
    case Expenses => r.expenses
  }

  function WithEntries(r: MonthRecord, kind: Kind, d: Dict<real>): MonthRecord {
    match kind
    case Income => r.(income := d)
    case Expenses => r.(expenses := d)
  }

  ghost predicate RecordValid(r: MonthRecord) {
    Valid(r.income) && Valid(r.expenses) && Valid(r.limits)
  }

  /** Every month record is three well-formed dictionaries. */
  ghost predicate WellFormed(data: map<string, MonthRecord>) {
    forall m :: m in data ==> RecordValid(data[m])
  }

  ghost predicate NonNegative(d: Dict<real>) {
    forall k :: k in d.vals ==> d.vals[k] >= 0.0
  }

  /** Well-formed, and every amount and limit stored is at least zero. */
  ghost predicate Consistent(data: map<string, MonthRecord>) {
    WellFormed(data)
    && forall m :: m in data ==> NonNegative(data[m].income) && NonNegative(data[m].expenses) && NonNegative(data[m].limits)
  }

  /** `data[month][kind].get(category, 0)`, with a missing month counting as 0 too. */
  function Amount(data: map<string, MonthRecord>, month: string, kind: Kind, category: string): real {
    if month in data then Get(Entries(data[month], kind), category, 0.0) else 0.0
  }

  /** The limit set for a category in a month, if any. */
  function LimitOf(data: map<string, MonthRecord>, month: string, category: string): Option<real> {
    if month in data && category in data[month].limits.vals then Some(data[month].limits.vals[category]) else None
  }

  /** The month's record, or the new empty one it gets on first use. */
  function RecordFor(data: map<string, MonthRecord>, month: string): MonthRecord {
    if month in data then data[month] else NewRecord()
  }

  /** A month record after an accepted `add_entry`: the amount is added to the category's running total. */
  function CreditRecord(rec: MonthRecord, kind: Kind, category: string, amount: real): (r: MonthRecord)
    requires RecordValid(rec)
    ensures RecordValid(r)
  {
    var d := Entries(rec, kind);
    WithEntries(rec, kind, Put(d, category, Get(d, category, 0.0) + amount))
  }

  /** A month record after an accepted `set_budget_limit`: the category's limit is replaced. */
  function CapRecord(rec: MonthRecord, category: string, limit: real): (r: MonthRecord)
    requires RecordValid(rec)
    ensures RecordValid(r)
  {
    rec.(limits := Put(rec.limits, category, limit))
  }

  /** What crediting changes in a record: one category of one kind, and nothing else. */
  lemma CreditRecordEntries(rec: MonthRecord, kind: Kind, category: string, amount: real)
    requires RecordValid(rec)
    ensures var d := Entries(rec, kind);
      var r := CreditRecord(rec, kind, category, amount);
      && Entries(r, kind) == Put(d, category, Get(d, category, 0.0) + amount)
      && (forall k :: k != kind ==> Entries(r, k) == Entries(rec, k))
      && r.limits == rec.limits
  {
    match kind
    case Income =>
    case Expenses =>
  }

  /** The ledger after an accepted `add_entry`: the month's record, new or not, is credited. */
  function Credit(data: map<string, MonthRecord>, month: string, kind: Kind, category: string, amount: real): (r: map<string, MonthRecord>)
    requires WellFormed(data)
    ensures WellFormed(r)
  {
    data[month := CreditRecord(RecordFor(data, month), kind, category, amount)]
  }

  /** The ledger after an accepted `set_budget_limit`: the month's record, new or not, gets the limit. */
  function Cap(data: map<string, MonthRecord>, month: string, category: string, limit: real): (r: map<string, MonthRecord>)
    requires WellFormed(data)
    ensures WellFormed(r)
  {
    data[month := CapRecord(RecordFor(data, month), category, limit)]
  }

  /**
   * Recording adds to the running total of that one month, kind and category
   * (a new category starts from 0); every other amount, every limit and
   * every other month stays as it was.
   */
  lemma CreditAccumulates(data: map<string, MonthRecord>, month: string, kind: Kind, category: string, amount: real)
    requires WellFormed(data)
    ensures var r := Credit(data, month, kind, category, amount);
      && r.Keys == data.Keys + {month}
      && Amount(r, month, kind, category) == Amount(data, month, kind, category) + amount
      && (forall m, k, c :: (m, k, c) != (month, kind, category) ==> Amount(r, m, k, c) == Amount(data, m, k, c))
      && (forall m, c :: LimitOf(r, m, c) == LimitOf(data, m, c))
      && (forall m :: m in data && m != month ==> r[m] == data[m])
  {
    var rec := RecordFor(data, month);
    CreditRecordEntries(rec, kind, category, amount);
    var r := Credit(data, month, kind, category, amount);
    assert r[month] == CreditRecord(rec, kind, category, amount);
    forall m, k, c | (m, k, c) != (month, kind, category)
      ensures Amount(r, m, k, c) == Amount(data, m, k, c)
    {
      if m == month && k != kind {
        assert Entries(r[m], k) == Entries(rec, k);
      }
    }
  }

  /**
   * The first entry for a month creates its record: limits and the other
   * kind empty, and the category holding just the amount.
   */
  lemma CreditCreatesRecord(data: map<string, MonthRecord>, month: string, kind: Kind, category: string, amount: real)
    requires WellFormed(data) && month !in data
    ensures var r := Credit(data, month, kind, category, amount)[month];
      && Entries(r, kind) == Dict([category], map[category := amount])
      && Entries(r, if kind == Income then Expenses else Income) == Empty()
      && r.limits == Empty()
  {
  }

  /**
   * Setting a limit replaces it (it is not added to the old one) and changes
   * no amount and no other limit or month.
   */
  lemma CapReplaces(data: map<string, MonthRecord>, month: string, category: string, limit: real)
    requires WellFormed(data)
    ensures var r := Cap(data, month, category, limit);
      && r.Keys == data.Keys + {month}
      && LimitOf(r, month, category) == Some(limit)
      && (forall m, c :: (m, c) != (month, category) ==> LimitOf(r, m, c) == LimitOf(data, m, c))
      && (forall m, k, c :: Amount(r, m, k, c) == Amount(data, m, k, c))
      && (forall m :: m in data && m != month ==> r[m] == data[m])
  {
    var rec := RecordFor(data, month);
    var r := Cap(data, month, category, limit);
    CapRecordParts(rec, category, limit);
    assert r[month] == CapRecord(rec, category, limit);
    forall m, k, c
      ensures Amount(r, m, k, c) == Amount(data, m, k, c)
    {
      if m == month {
        assert Entries(r[m], k) == Entries(rec, k);
      }
    }
  }

  /** What capping changes in a record: one limit, and nothing else. */
  lemma CapRecordParts(rec: MonthRecord, category: string, limit: real)
    requires RecordValid(rec)
    ensures var r := CapRecord(rec, category, limit);
      && r.income == rec.income && r.expenses == rec.expenses
      && r.limits.vals == rec.limits.vals[category := limit]
  {
  }

  /** Setting the same limit twice is setting it once; a second value overwrites the first. */
  lemma CapOverwrites(data: map<string, MonthRecord>, month: string, category: string, a: real, b: real)
    requires WellFormed(data)
    ensures Cap(Cap(data, month, category, a), month, category, b) == Cap(data, month, category, b)
    ensures Cap(Cap(data, month, category, a), month, category, a) == Cap(data, month, category, a)
  {
    var rec := RecordFor(data, month);
    var once := CapRecord(rec, category, a);
    assert RecordFor(Cap(data, month, category, a), month) == once;
    PutPut(rec.limits, category, a, b);
    PutPut(rec.limits, category, a, a);
    assert CapRecord(once, category, b) == CapRecord(rec, category, b);
    assert CapRecord(once, category, a) == once;
    StoreTwice(data, month, once, CapRecord(rec, category, b));
    StoreTwice(data, month, once, once);
  }

  /** The first limit for a month creates its record with no income and no expenses. */
  lemma CapCreatesRecord(data: map<string, MonthRecord>, month: string, category: string, limit: real)
    requires WellFormed(data) && month !in data
    ensures var r := Cap(data, month, category, limit)[month];
      && r.income == Empty() && r.expenses == Empty()
      && r.limits == Dict([category], map[category := limit])
  {
  }

  /** Accepted (never negative) entries keep every stored amount and limit at least zero. */
  lemma CreditKeepsConsistent(data: map<string, MonthRecord>, month: string, kind: Kind, category: string, amount: real)
    requires Consistent(data) && amount >= 0.0
    ensures Consistent(Credit(data, month, kind, category, amount))
  {
    var rec := RecordFor(data, month);
    CreditRecordEntries(rec, kind, category, amount);
    var d := Entries(rec, kind);
    assert NonNegative(Put(d, category, Get(d, category, 0.0) + amount));
    var r := CreditRecord(rec, kind, category, amount);
    assert NonNegative(Entries(r, Income)) && NonNegative(Entries(r, Expenses));
  }

  /** Accepted (never negative) limits keep every stored amount and limit at least zero. */
  lemma CapKeepsConsistent(data: map<string, MonthRecord>, month: string, category: string, limit: real)
    requires Consistent(data) && limit >= 0.0
    ensures Consistent(Cap(data, month, category, limit))
  {
    var rec := RecordFor(data, month);
    assert NonNegative(Put(rec.limits, category, limit));
  }

  /** The outcome `add_entry` or `set_budget_limit` reports. */
  datatype Status = Recorded | NegativeRejected | NotANumber

  /** One call of `add_entry` as a ledger value: rejected amounts change nothing. */
  function AfterEntry(data: map<string, MonthRecord>, e: Entry): map<string, MonthRecord>
    requires WellFormed(data)
  {
    if e.amount < 0.0 then data else Credit(data, e.month, e.kind, e.category, e.amount)
  }

  /** The already-parsed arguments of one `add_entry` call. */
  datatype Entry = Entry(month: string, kind: Kind, category: string, amount: real)

  /** A session of `add_entry` calls, applied in order. */
  function Replay(data: map<string, MonthRecord>, entries: seq<Entry>): (r: map<string, MonthRecord>)
    requires WellFormed(data)
    ensures WellFormed(r)
    decreases |entries|
  {
    if entries == [] then data else Replay(AfterEntry(data, entries[0]), entries[1..])
  }

  /** The accepted amounts among `entries` for one month, kind and category. */
  function AcceptedFor(entries: seq<Entry>, month: string, kind: Kind, category: string): real {
    if entries == [] then 0.0
    else
      var e := entries[0];
      (if e.month == month && e.kind == kind && e.category == category && e.amount >= 0.0 then e.amount else 0.0)
      + AcceptedFor(entries[1..], month, kind, category)
  }

  /**
   * Whatever the interleaving with entries for other months, kinds and
   * categories, a category's stored amount grows by exactly the sum of the
   * non-negative amounts recorded for it.
   */
  lemma {:induction false} ReplaySums(data: map<string, MonthRecord>, entries: seq<Entry>, month: string, kind: Kind, category: string)
    requires WellFormed(data)
    ensures Amount(Replay(data, entries), month, kind, category)
         == Amount(data, month, kind, category) + AcceptedFor(entries, month, kind, category)
    decreases |entries|
  {
    if entries != [] {
      var e := entries[0];
      if e.amount >= 0.0 {
        CreditAccumulates(data, e.month, e.kind, e.category, e.amount);
      }
      ReplaySums(AfterEntry(data, e), entries[1..], month, kind, category);
    }
  }

  /** Crediting a record is replacing its entries of that kind by the credited ones. */
  lemma CreditRecordIs(rec: MonthRecord, kind: Kind, category: string, amount: real, entries: Dict<real>)
    requires RecordValid(rec)
    requires var d := Entries(rec, kind); entries == Put(d, category, Get(d, category, 0.0) + amount)
    ensures CreditRecord(rec, kind, category, amount) == WithEntries(rec, kind, entries)
  {
    if kind == Income {
      assert CreditRecord(rec, Income, category, amount) == WithEntries(rec, Income, entries);
    } else {
      assert CreditRecord(rec, Expenses, category, amount) == WithEntries(rec, Expenses, entries);
    }
  }

  /** Storing a month record twice is storing the second one. */
  lemma StoreTwice(data: map<string, MonthRecord>, month: string, first: MonthRecord, second: MonthRecord)
    ensures data[month := first][month := second] == data[month := second]
  {
  }

  /** The ledger object of the tracker's main loop; `data` is the dictionary `load_data` returned. */
  class Ledger {
    var data: map<string, MonthRecord>

    ghost predicate Valid()
      reads this
    {
      WellFormed(data)
    }

    constructor (initial: map<string, MonthRecord>)
      requires WellFormed(initial)
      ensures Valid() && data == initial
    {
      data := initial;
    }

    /**
     * `add_entry`: an unparsable or negative amount is rejected and nothing
     * changes, not even the month record is created; otherwise the month
     * record is created if new, the category starts at 0 if new, and the
     * amount is added to it.
     */
    method AddEntry(month: string, kind: Kind, category: string, amount: Option<real>) returns (status: Status)
      requires Valid()
      modifies this
      ensures Valid()
      ensures status == (if amount.None? then NotANumber else if amount.value < 0.0 then NegativeRejected else Recorded)
      ensures status != Recorded ==> data == old(data)
      ensures status == Recorded ==> data == Credit(old(data), month, kind, category, amount.value)
    {
      if amount.None? {
        return NotANumber;
      }
      var a := amount.value;
      if a < 0.0 {
        return NegativeRejected;
      }
      ghost var before := data;
      if month !in data {
        data := data[month := NewRecord()];
        StoreTwice(before, month, NewRecord(), CreditRecord(NewRecord(), kind, category, a));
      }
      var rec := data[month];
      assert rec == RecordFor(before, month);
      var entries := Entries(rec, kind);
      ghost var d := entries;
      if category !in entries.vals {
        entries := Put(entries, category, 0.0);
      }
      var total := entries.vals[category] + a;
      if category !in d.vals {
        PutPut(d, category, 0.0, total);
      }
      entries := Put(entries, category, total);
      CreditRecordIs(rec, kind, category, a, entries);
      data := data[month := WithEntries(rec, kind, entries)];
      status := Recorded;
    }

    /**
     * `set_budget_limit`: an unparsable or negative limit is rejected and
     * nothing changes; a limit of 0 is accepted. Otherwise the month record
     * is created if new and the category's limit is replaced.
     */
    method SetBudgetLimit(month: string, category: string, limit: Option<real>) returns (status: Status)
      requires Valid()
      modifies this
      ensures Valid()
      ensures status == (if limit.None? then NotANumber else if limit.value < 0.0 then NegativeRejected else Recorded)
      ensures status != Recorded ==> data == old(data)
      ensures status == Recorded ==> data == Cap(old(data), month, category, limit.value)
    {
      if limit.None? {
        return NotANumber;
      }
      var l := limit.value;
      if l < 0.0 {
        return NegativeRejected;
      }
      if month !in data {
        data := data[month := NewRecord()];
      }
      var rec := data[month];
      data := data[month := rec.(limits := Put(rec.limits, category, l))];
      status := Recorded;
    }
  }

  // ---------------------------------------------------------------- the summary

  function Id(x: real): real {
    x
  }

  /** `sum(d.values())` */
  function Total(d: Dict<real>): real {
    Sum(d, Id)
  }

  /** `(part / whole * 100) if whole else 0` */
  function Percent(part: real, whole: real): (p: real)
    ensures whole == 0.0 ==> p == 0.0
    ensures whole != 0.0 ==> p * whole == part * 100.0
  {
    if whole != 0.0 then part / whole * 100.0 else 0.0
  }

  /** One line of the expense breakdown. */
  datatype Share = Share(category: string, amount: real, percent: real)

  /** A budget alert: how far spending is over the limit, and what percentage of the limit it is. */
  datatype Alert = Alert(category: string, over: real, percentOfLimit: Option<real>)

  datatype Summary = Summary(
    incomeTotal: real,
    expenseTotal: real,
    netSavings: real,
    savingsPercent: real,
    breakdown: seq<Share>,
    alerts: seq<Alert>)

  /** The breakdown loop: each expense category, in order, with its share of the total. */
  function Breakdown(keys: seq<string>, amounts: map<string, real>, total: real): (b: seq<Share>)
    requires forall k :: k in keys ==> k in amounts
    ensures |b| == |keys|
  {
    if keys == [] then []
    else [Share(keys[0], amounts[keys[0]], Percent(amounts[keys[0]], total))] + Breakdown(keys[1..], amounts, total)
  }

  /**
   * What `(spent / limit) * 100` yields in the source: a quotient, or the
   * `ZeroDivisionError` Python raises for a zero limit.
   */
  datatype Quotient = Quotient(value: real) | ZeroDivisionError

  /** The percentage of the limit as the source computes it. */
  function PercentOfLimitAsWritten(spent: real, limit: real): (q: Quotient)
    ensures q.ZeroDivisionError? <==> limit == 0.0
    ensures q.Quotient? ==> q.value * limit == spent * 100.0
  {
    if limit == 0.0 then ZeroDivisionError else Quotient(spent / limit * 100.0)
  }

  /**
   * The percentage of the limit with the zero limit guarded: no percentage
   * at all for a zero limit, and over 100 whenever spending is over a
   * positive limit.
   */
  function PercentOfLimit(spent: real, limit: real): (p: Option<real>)
    ensures p.None? <==> limit == 0.0
    ensures p.Some? ==> p.value * limit == spent * 100.0
    ensures p.Some? && 0.0 < limit < spent ==> p.value > 100.0
  {
    if limit == 0.0 then None else Some(spent / limit * 100.0)
  }

  /**
   * The alert loop over the categories that have a limit: an alert exactly
   * for each such category whose spending (0 if none) is over its limit,
   * carrying the amount over and the guarded percentage.
   */
  function Overruns(keys: seq<string>, limits: map<string, real>, expenses: Dict<real>): (r: seq<Alert>)
    ensures forall a :: a in r ==>
      && a.category in keys && a.category in limits
      && Get(expenses, a.category, 0.0) > limits[a.category]
      && a.over == Get(expenses, a.category, 0.0) - limits[a.category]
      && a.percentOfLimit == PercentOfLimit(Get(expenses, a.category, 0.0), limits[a.category])
    ensures forall c :: c in keys && c in limits && Get(expenses, c, 0.0) > limits[c] ==>
      exists a :: a in r && a.category == c
    ensures Subsequence(Categories(r), keys)
  {
    if keys == [] then []
    else
      var c := keys[0];
      var rest := Overruns(keys[1..], limits, expenses);
      if c in limits && Get(expenses, c, 0.0) > limits[c] then
        var spent := Get(expenses, c, 0.0);
        [Alert(c, spent - limits[c], PercentOfLimit(spent, limits[c]))] + rest
      else rest
  }

  /** The categories of a list of alerts, in order. */
  function Categories(alerts: seq<Alert>): seq<string> {
    if alerts == [] then [] else [alerts[0].category] + Categories(alerts[1..])
  }

  /**
   * The alerts follow the order of the limits and, since a dictionary lists
   * each category once, name each category at most once.
   */
  lemma AlertsOncePerCategory(keys: seq<string>, limits: map<string, real>, expenses: Dict<real>)
    requires Distinct(keys)
    ensures Distinct(Categories(Overruns(keys, limits, expenses)))
  {
    SubsequenceDistinct(Categories(Overruns(keys, limits, expenses)), keys);
  }

  /** `show_summary` for one month of the ledger; `None` is "No data found for this month." */
  function Summarize(data: map<string, MonthRecord>, month: string): (r: Option<Summary>)
    requires WellFormed(data)
    ensures r.None? <==> month !in data
  {
    if month !in data then None
    else
      var rec := data[month];
      var incomeTotal := Total(rec.income);
      var expenseTotal := Total(rec.expenses);
      var net := incomeTotal - expenseTotal;
      Some(Summary(
        incomeTotal,
        expenseTotal,
        net,
        Percent(net, incomeTotal),
        Breakdown(rec.expenses.keys, rec.expenses.vals, expenseTotal),
        Overruns(rec.limits.keys, rec.limits.vals, rec.expenses)))
  }

  /**
   * A month with a record has totals over its own income and expenses, net
   * savings their difference, savings as a percentage of income (0 when
   * there is no income), and one breakdown line per expense category in
   * order; a category with a limit alerts exactly when its spending is over
   * the limit, and a category without one never alerts.
   */
  lemma SummaryContents(data: map<string, MonthRecord>, month: string)
    requires WellFormed(data) && month in data
    ensures var s := Summarize(data, month).value;
      var rec := data[month];
      && s.incomeTotal == Total(rec.income)
      && s.expenseTotal == Total(rec.expenses)
      && s.netSavings == s.incomeTotal - s.expenseTotal
      && (s.incomeTotal == 0.0 ==> s.savingsPercent == 0.0)
      && (s.incomeTotal != 0.0 ==> s.savingsPercent * s.incomeTotal == s.netSavings * 100.0)
      && |s.breakdown| == |rec.expenses.keys|
      && (forall i :: 0 <= i < |s.breakdown| ==>
            s.breakdown[i].category == rec.expenses.keys[i] && s.breakdown[i].amount == rec.expenses.vals[rec.expenses.keys[i]])
      && (forall c :: (exists a :: a in s.alerts && a.category == c)
            <==> c in rec.limits.vals && Amount(data, month, Expenses, c) > rec.limits.vals[c])
  {
    var rec := data[month];
    BreakdownLines(rec.expenses.keys, rec.expenses.vals, Total(rec.expenses));
  }

  lemma {:induction false} BreakdownLines(keys: seq<string>, amounts: map<string, real>, total: real)
    requires forall k :: k in keys ==> k in amounts
    ensures var b := Breakdown(keys, amounts, total);
      |b| == |keys| && forall i :: 0 <= i < |b| ==> b[i] == Share(keys[i], amounts[keys[i]], Percent(amounts[keys[i]], total))
  {
    if keys != [] {
      BreakdownLines(keys[1..], amounts, total);
    }
  }

  function SumPercents(shares: seq<Share>): real {
    if shares == [] then 0.0 else shares[0].percent + SumPercents(shares[1..])
  }

  lemma {:induction false} BreakdownSum(keys: seq<string>, amounts: map<string, real>, total: real)
    requires forall k :: k in keys ==> k in amounts
    ensures SumPercents(Breakdown(keys, amounts, total)) == Percent(SumOver(keys, amounts, Id), total)
  {
    if keys != [] {
      BreakdownSum(keys[1..], amounts, total);
      var a, rest := amounts[keys[0]], SumOver(keys[1..], amounts, Id);
      if total != 0.0 {
        assert a / total * 100.0 + rest / total * 100.0 == (a + rest) / total * 100.0;
      }
    }
  }

  /** When anything was spent, the breakdown's percentages add up to exactly 100. */
  lemma SharesAddUpTo100(data: map<string, MonthRecord>, month: string)
    requires WellFormed(data) && month in data
    requires Summarize(data, month).value.expenseTotal != 0.0
    ensures SumPercents(Summarize(data, month).value.breakdown) == 100.0
  {
    var e := data[month].expenses;
    var t := Total(e);
    assert Summarize(data, month).value.breakdown == Breakdown(e.keys, e.vals, t);
    BreakdownSum(e.keys, e.vals, t);
    assert SumOver(e.keys, e.vals, Id) == t;
    assert Summarize(data, month).value.expenseTotal == t;
    assert t != 0.0;
    assert t / t == 1.0;
    assert Percent(t, t) == 100.0;
  }

  /** With no negative amounts, savings never exceed 100 percent of income. */
  lemma SavingsPercentAtMost100(data: map<string, MonthRecord>, month: string)
    requires Consistent(data) && month in data
    ensures Summarize(data, month).value.savingsPercent <= 100.0
  {
    var rec := data[month];
    SumOverNonNegative(rec.income.keys, rec.income.vals, Id);
    SumOverNonNegative(rec.expenses.keys, rec.expenses.vals, Id);
    var i, e := Total(rec.income), Total(rec.expenses);
    if i != 0.0 {
      QuotientAtMostOne(i - e, i);
    }
  }

  lemma QuotientAtMostOne(a: real, b: real)
    requires b > 0.0 && a <= b
    ensures a / b <= 1.0
  {
    var q := a / b;
    assert q * b == a;
  }

  /** A month whose record is still empty summarises to zeros, no breakdown and no alerts. */
  lemma EmptyRecordSummary(data: map<string, MonthRecord>, month: string)
    requires WellFormed(data) && month in data && data[month] == NewRecord()
    ensures Summarize(data, month) == Some(Summary(0.0, 0.0, 0.0, 0.0, [], []))
  {
  }

  /** Recording an amount raises that kind's total for the month by exactly that amount. */
  lemma TotalAfterCredit(data: map<string, MonthRecord>, month: string, kind: Kind, category: string, amount: real)
    requires WellFormed(data)
    ensures Total(Entries(Credit(data, month, kind, category, amount)[month], kind))
         == Total(Entries(RecordFor(data, month), kind)) + amount
  {
    var rec := RecordFor(data, month);
    var d := Entries(rec, kind);
    CreditRecordEntries(rec, kind, category, amount);
    PutSum(d, category, Get(d, category, 0.0) + amount, Id);
  }

  /** Food spent 100 against a limit of 80: one alert, 20 over, at 125 percent of the limit. */
  lemma AlertExample()
    ensures var data := Credit(Cap(map[], "2024-01", "Food", 80.0), "2024-01", Expenses, "Food", 100.0);
      Summarize(data, "2024-01").value.alerts == [Alert("Food", 20.0, Some(125.0))]
  {
    var data := Credit(Cap(map[], "2024-01", "Food", 80.0), "2024-01", Expenses, "Food", 100.0);
    var rec := data["2024-01"];
    assert rec.limits == Dict(["Food"], map["Food" := 80.0]);
    assert rec.expenses == Dict(["Food"], map["Food" := 100.0]);
    assert Overruns([], rec.limits.vals, rec.expenses) == [];
  }

  /**
   * As written, a limit of 0 is accepted and any spending against it takes
   * the alert branch, where the percentage divides by the zero limit.
   */
  lemma ZeroLimitDividesByZero()
    ensures var data := Credit(Cap(map[], "2024-01", "Food", 0.0), "2024-01", Expenses, "Food", 5.0);
      var rec := data["2024-01"];
      && "Food" in rec.limits.vals
      && Amount(data, "2024-01", Expenses, "Food") > rec.limits.vals["Food"]
      && PercentOfLimitAsWritten(Amount(data, "2024-01", Expenses, "Food"), rec.limits.vals["Food"]) == ZeroDivisionError
  {
  }

  /** With the guard, the same ledger summarises to an alert 5 over, without a percentage. */
  lemma ZeroLimitAlertReported()
    ensures var data := Credit(Cap(map[], "2024-01", "Food", 0.0), "2024-01", Expenses, "Food", 5.0);
      Summarize(data, "2024-01").value.alerts == [Alert("Food", 5.0, None)]
  {
    var data := Credit(Cap(map[], "2024-01", "Food", 0.0), "2024-01", Expenses, "Food", 5.0);
    var rec := data["2024-01"];
    assert rec.limits == Dict(["Food"], map["Food" := 0.0]);
    assert rec.expenses == Dict(["Food"], map["Food" := 5.0]);
    assert Overruns([], rec.limits.vals, rec.expenses) == [];
  }

  // ---------------------------------------------------------------- trends

  datatype Direction = Increased | Decreased | NoChange

  /** A category's change of spending from one month to the next: its direction and size. */
  datatype Trend = Trend(direction: Direction, diff: real)

  function Compare(spent1: real, spent2: real): (t: Trend)
    ensures t.diff >= 0.0
    ensures t.direction == NoChange <==> t.diff == 0.0
  {
    if spent2 > spent1 then Trend(Increased, spent2 - spent1)
    else if spent2 < spent1 then Trend(Decreased, spent1 - spent2)
    else Trend(NoChange, 0.0)
  }

  /** The change a trend describes, with its sign. */
  function Signed(t: Trend): real {
    match t.direction
    case Increased => t.diff
    case Decreased => -t.diff
    case NoChange => 0.0
  }

  /** From the first month's spending and the trend, the second month's spending is recovered. */
  lemma CompareRoundTrip(spent1: real, spent2: real)
    ensures spent1 + Signed(Compare(spent1, spent2)) == spent2
  {
  }

  /** Comparing the months the other way round reverses the direction and keeps the size. */
  lemma CompareSwapped(spent1: real, spent2: real)
    ensures Compare(spent2, spent1).diff == Compare(spent1, spent2).diff
    ensures Signed(Compare(spent2, spent1)) == -Signed(Compare(spent1, spent2))
  {
  }

  /**
   * `analyze_trends`: nothing when either month has no record; otherwise a
   * trend for every category spent on in either month, a missing side
   * counting as 0.
   */
  function AnalyzeTrends(data: map<string, MonthRecord>, month1: string, month2: string): (r: Option<map<string, Trend>>)
    ensures r.None? <==> month1 !in data || month2 !in data
    ensures r.Some? ==> r.value.Keys == data[month1].expenses.vals.Keys + data[month2].expenses.vals.Keys
    ensures r.Some? ==> forall c :: c in r.value ==>
      r.value[c] == Compare(Spent(data, month1, c), Spent(data, month2, c))
    ensures r.Some? ==> forall c :: c in r.value ==>
      Spent(data, month1, c) + Signed(r.value[c]) == Spent(data, month2, c)
  {
    if month1 !in data || month2 !in data then None
    else
      var e1, e2 := data[month1].expenses, data[month2].expenses;
      Some(map c | c in e1.vals.Keys + e2.vals.Keys :: Compare(Get(e1, c, 0.0), Get(e2, c, 0.0)))
  }

  /** Money spent on a category in a month; 0 when there is none. */
  function Spent(data: map<string, MonthRecord>, month: string, c: string): real {
    Amount(data, month, Expenses, c)
  }

  /** Food 50 then 80, Transport only in the second month at 20: both increased, by 30 and 20. */
  lemma TrendExample()
    ensures var data := map[
        "2024-01" := MonthRecord(Empty(), Dict(["Food"], map["Food" := 50.0]), Empty()),
        "2024-02" := MonthRecord(Empty(), Dict(["Food", "Transport"], map["Food" := 80.0, "Transport" := 20.0]), Empty())];
      AnalyzeTrends(data, "2024-01", "2024-02") == Some(map["Food" := Trend(Increased, 30.0), "Transport" := Trend(Increased, 20.0)])
  {
    var data := map[
        "2024-01" := MonthRecord(Empty(), Dict(["Food"], map["Food" := 50.0]), Empty()),
        "2024-02" := MonthRecord(Empty(), Dict(["Food", "Transport"], map["Food" := 80.0, "Transport" := 20.0]), Empty())];
    var r := AnalyzeTrends(data, "2024-01", "2024-02").value;
    assert r.Keys == {"Food", "Transport"};
    assert r["Food"] == Compare(50.0, 80.0);
    assert r["Transport"] == Compare(0.0, 20.0);
    assert r == map["Food" := Trend(Increased, 30.0), "Transport" := Trend(Increased, 20.0)];
  }
}
