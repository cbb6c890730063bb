/**
 * The analytics screen: a date range chosen from presets or picked by hand, the
 * income, expense and net totals of the transactions inside it, and four
 * charts built on demand: expenses by category, monthly trends, the last six
 * months of income against expenses, and the largest expense categories.
 * The current time is a parameter, `now`.
 */
module Analytics {
  import opened Calendar
  import opened Seqs
  import opened Records
  import opened Ranking
  import opened Colors
  import opened Buckets

  /** `{ start: Date | null, end: Date | null }`. */
  datatype DateRange = DateRange(start: Option<Date>, end: Option<Date>)

  /** The keys of `datePresets`. */
  const PresetKeys: seq<string> := ["last7Days", "lastMonth", "last3Months", "lastYear", "allTime"]

  datatype Preset = Last7Days | LastMonth | Last3Months | LastYear | AllTime

  /** The `switch` of `setDateRange` on its key; None is its `default: return`. */
  function PresetOf(key: string): (p: Option<Preset>)
    ensures p.None? <==> key !in PresetKeys
    ensures p == Some(Last7Days) <==> key == "last7Days"
    ensures p == Some(LastMonth) <==> key == "lastMonth"
  {
    if key == "last7Days" then Some(Last7Days)
    else if key == "lastMonth" then Some(LastMonth)
    else if key == "last3Months" then Some(Last3Months)
    else if key == "lastYear" then Some(LastYear)
    else if key == "allTime" then Some(AllTime)
    else None
  }

  /** `new Date(now.getFullYear() - 1, now.getMonth(), now.getDate())`. */
  function YearBack(now: Date): (r: Date)
    ensures DayNumber(r) == MonthStart(MonthIndex(now) - 12) + now.day - 1
  {
    DateInMonth(MonthIndex(now) - 12, now.day, 0)
  }

  /** The range `setDateRange` selects for a preset: the bounds of its case, then
      `end.setHours(23, 59, 59, 999)` and `start.setHours(0, 0, 0, 0)`. */
  function PresetRange(p: Preset, now: Date): (r: (Date, Date))
    ensures r.0.ms == 0 && r.1.ms == EndOfDayMs
    ensures p != LastMonth ==> DayNumber(r.1) == DayNumber(now)
  {
    match p
    case Last7Days => (StartOfDay(MonthsBack(now, 0, now.day - 6)), EndOfDay(now))
    case LastMonth => (StartOfDay(MonthsBack(now, 1, 1)), EndOfDay(MonthsBack(now, 0, 0)))
    case Last3Months => (StartOfDay(MonthsBack(now, 3, now.day)), EndOfDay(now))
    case LastYear => (StartOfDay(YearBack(now)), EndOfDay(now))
    case AllTime => (StartOfDay(MakeDate(2020, 0, 1, 0)), EndOfDay(now))
  }

  /** `last7Days` starts six days before today. */
  lemma Last7DaysStart(now: Date)
    ensures DayNumber(PresetRange(Last7Days, now).0) == DayNumber(now) - 6
  {
    var s := MonthsBack(now, 0, now.day - 6);
    assert PresetRange(Last7Days, now).0 == StartOfDay(s);
    Congruent(MonthStart, MonthIndex(now) - 0, MonthIndex(now));
  }

  /** `lastMonth` runs from the first day of the previous month to the day before
      the first of this one. */
  lemma LastMonthBounds(now: Date)
    ensures DayNumber(PresetRange(LastMonth, now).0) == MonthStart(MonthIndex(now) - 1)
    ensures DayNumber(PresetRange(LastMonth, now).1) == MonthStart(MonthIndex(now)) - 1
  {
    var s, e := MonthsBack(now, 1, 1), MonthsBack(now, 0, 0);
    assert PresetRange(LastMonth, now) == (StartOfDay(s), EndOfDay(e));
    Congruent(MonthStart, MonthIndex(now) - 0, MonthIndex(now));
  }

  /** `last3Months` starts on today's day of the month three months back. */
  lemma Last3MonthsStart(now: Date)
    ensures DayNumber(PresetRange(Last3Months, now).0) == MonthStart(MonthIndex(now) - 3) + now.day - 1
  {
    var s := MonthsBack(now, 3, now.day);
    assert PresetRange(Last3Months, now).0 == StartOfDay(s);
  }

  /** `lastYear` starts on today's date a year back. */
  lemma LastYearStart(now: Date)
    ensures DayNumber(PresetRange(LastYear, now).0) == MonthStart(MonthIndex(now) - 12) + now.day - 1
  {
    var s := YearBack(now);
    assert PresetRange(LastYear, now).0 == StartOfDay(s);
  }

  /** `allTime` starts on 2020-01-01. */
  lemma AllTimeStart(now: Date)
    ensures PresetRange(AllTime, now).0 == DateTime(2020, 0, 1, 0)
  {
    var s := MakeDate(2020, 0, 1, 0);
    MakeDateCivil(2020, 0, 1, 0);
    assert PresetRange(AllTime, now).0 == StartOfDay(s);
  }

  /** The civil shape of the presets: `lastMonth` is the first to the last day of the
      previous month and ends the instant before this month begins; `last7Days` is the
      seven calendar days ending today. */
  lemma PresetCalendar(now: Date)
    ensures var (s, e) := PresetRange(LastMonth, now);
      MonthIndex(s) == MonthIndex(now) - 1 && s.day == 1
      && MonthIndex(e) == MonthIndex(now) - 1 && e.day == MonthLength(MonthIndex(now) - 1)
      && Time(e) + 1 == MonthStart(MonthIndex(now)) * MsPerDay
    ensures var (s, e) := PresetRange(Last7Days, now);
      Time(e) - Time(s) == 7 * MsPerDay - 1
  {
    LastMonthCivil(now);
    Last7DaysSpan(now);
  }

  lemma LastMonthCivil(now: Date)
    ensures var (s, e) := PresetRange(LastMonth, now);
      MonthIndex(s) == MonthIndex(now) - 1 && s.day == 1
      && MonthIndex(e) == MonthIndex(now) - 1 && e.day == MonthLength(MonthIndex(now) - 1)
      && Time(e) + 1 == MonthStart(MonthIndex(now)) * MsPerDay
  {
    var (s, e) := PresetRange(LastMonth, now);
    LastMonthBounds(now);
    PreviousMonthStep(MonthIndex(now));
    DayNumberCivil(s, MonthIndex(now) - 1);
    DayNumberCivil(e, MonthIndex(now) - 1);
    assert DayNumber(e) == MonthStart(MonthIndex(now)) - 1;
    assert e.day == MonthStart(MonthIndex(now)) - MonthStart(MonthIndex(now) - 1);
    assert MonthStart(MonthIndex(now) - 1) + MonthLength(MonthIndex(now) - 1) == MonthStart(MonthIndex(now));
  }

  /** The month before month k ends the day before k begins. */
  lemma PreviousMonthStep(k: int)
    ensures MonthStart(k - 1) + MonthLength(k - 1) == MonthStart(k)
  {
    MonthStartStep(k - 1);
  }

  lemma Last7DaysSpan(now: Date)
    ensures var (s, e) := PresetRange(Last7Days, now);
      Time(e) - Time(s) == 7 * MsPerDay - 1
  {
    Last7DaysStart(now);
  }

  /** Every preset starts no later than it ends, except `allTime` before 2020. */
  lemma PresetOrdered(p: Preset, now: Date)
    requires p != AllTime || now.year >= 2020
    ensures Time(PresetRange(p, now).0) <= Time(PresetRange(p, now).1)
  {
    var (s, e) := PresetRange(p, now);
    PresetDaysOrdered(p, now);
    assert Time(s) == DayNumber(s) * MsPerDay + s.ms;
    assert Time(e) == DayNumber(e) * MsPerDay + e.ms;
  }

  lemma PresetDaysOrdered(p: Preset, now: Date)
    requires p != AllTime || now.year >= 2020
    ensures DayNumber(PresetRange(p, now).0) <= DayNumber(PresetRange(p, now).1)
  {
    match p
    case Last7Days => Last7DaysStart(now);
    case LastMonth => LastMonthOrdered(now);
    case Last3Months => Last3MonthsOrdered(now);
    case LastYear => LastYearOrdered(now);
    case AllTime => AllTimeOrdered(now);
  }

  lemma LastMonthOrdered(now: Date)
    ensures DayNumber(PresetRange(LastMonth, now).0) < DayNumber(PresetRange(LastMonth, now).1)
  {
    MonthStartMonotone(MonthIndex(now) - 1, MonthIndex(now));
    var (s, e) := PresetRange(LastMonth, now);
    LastMonthBounds(now);
    assert DayNumber(s) == MonthStart(MonthIndex(now) - 1);
    assert DayNumber(e) == MonthStart(MonthIndex(now)) - 1;
  }

  lemma Last3MonthsOrdered(now: Date)
    ensures DayNumber(PresetRange(Last3Months, now).0) <= DayNumber(PresetRange(Last3Months, now).1)
  {
    MonthStartMonotone(MonthIndex(now) - 3, MonthIndex(now));
    var (s, e) := PresetRange(Last3Months, now);
    Last3MonthsStart(now);
    assert DayNumber(s) == MonthStart(MonthIndex(now) - 3) + now.day - 1;
    assert DayNumber(e) == MonthStart(MonthIndex(now)) + now.day - 1;
  }

  lemma LastYearOrdered(now: Date)
    ensures DayNumber(PresetRange(LastYear, now).0) <= DayNumber(PresetRange(LastYear, now).1)
  {
    MonthStartMonotone(MonthIndex(now) - 12, MonthIndex(now));
    var (s, e) := PresetRange(LastYear, now);
    LastYearStart(now);
    assert DayNumber(s) == MonthStart(MonthIndex(now) - 12) + now.day - 1;
    assert DayNumber(e) == MonthStart(MonthIndex(now)) + now.day - 1;
  }

  lemma AllTimeOrdered(now: Date)
    requires now.year >= 2020
    ensures DayNumber(PresetRange(AllTime, now).0) <= DayNumber(PresetRange(AllTime, now).1)
  {
    MonthStartOrder(12 * 2020, MonthIndex(now));
    var (s, e) := PresetRange(AllTime, now);
    AllTimeStart(now);
    assert s == DateTime(2020, 0, 1, 0);
    assert DayNumber(e) == MonthStart(MonthIndex(now)) + now.day - 1;
  }

  /** `filterTransactionsByDateRange`: everything when a bound is missing, else the
      transactions dated within the bounds, both included, in their original order. */
  function FilterByRange(ts: seq<Transaction>, range: DateRange): (r: seq<Transaction>)
    ensures range.start.None? || range.end.None? ==> r == ts
    ensures range.start.Some? && range.end.Some? ==>
      (forall t <- r :: t in ts && Time(range.start.value) <= Time(t.date) <= Time(range.end.value))
      && (forall t <- ts :: Time(range.start.value) <= Time(t.date) <= Time(range.end.value) ==> t in r)
    ensures IsSubsequence(r, ts)
  {
    if range.start.None? || range.end.None? then
      IsSubsequenceRefl(ts);
      ts
    else Between(ts, range.start.value, range.end.value)
  }

  lemma {:induction false} IsSubsequenceRefl<T>(s: seq<T>)
    ensures IsSubsequence(s, s)
  {
    if s != [] {
      IsSubsequenceRefl(s[1..]);
    }
  }

  function Abs(x: int): nat {
    if x < 0 then -x else x
  }

  /** `Math.ceil(x / d)` for a whole number of milliseconds. */
  function CeilDiv(x: nat, d: nat): (q: nat)
    requires d > 0
    ensures (q - 1) * d < x <= q * d || (x == 0 && q == 0)
  {
    (x + d - 1) / d
  }

  /** `getDateRangeDays()` as written: 0 without both bounds, else the whole days
      between the bounds rounded up, plus one. */
  function DateRangeDaysAsWritten(range: DateRange): (n: int)
    ensures range.start.None? || range.end.None? ==> n == 0
    ensures range.start.Some? && range.end.Some? ==> n >= 1
  {
    if range.start.None? || range.end.None? then 0
    else CeilDiv(Abs(Time(range.end.value) - Time(range.start.value)), MsPerDay) + 1
  }

  /** The number of calendar days from the start's day to the end's day, both
      counted. */
  function DateRangeDays(range: DateRange): (n: int)
    ensures range.start.None? || range.end.None? ==> n == 0
    ensures range.start.Some? && range.end.Some? ==> n >= 1
  {
    if range.start.None? || range.end.None? then 0
    else Abs(DayNumber(range.end.value) - DayNumber(range.start.value)) + 1
  }

  function RangeOf(bounds: (Date, Date)): DateRange {
    DateRange(Some(bounds.0), Some(bounds.1))
  }

  /** As written, the seven days of `last7Days` are shown as 8, because the end is at
      23:59:59.999 and the rounded-up difference already counts the last day. */
  lemma DayCountOfLast7Days(now: Date)
    ensures DateRangeDaysAsWritten(RangeOf(PresetRange(Last7Days, now))) == 8
    ensures DateRangeDays(RangeOf(PresetRange(Last7Days, now))) == 7
  {
    PresetCalendar(now);
  }

  /** For a range picked by hand (both bounds at 00:00) the two counts agree. */
  lemma DayCountsAgreeAtMidnight(range: DateRange)
    requires range.start.Some? && range.end.Some?
    requires range.start.value.ms == 0 && range.end.value.ms == 0
    ensures DateRangeDaysAsWritten(range) == DateRangeDays(range)
  {
    var a, b := DayNumber(range.start.value), DayNumber(range.end.value);
    assert Abs(b * MsPerDay - a * MsPerDay) == Abs(b - a) * MsPerDay;
    assert CeilDiv(Abs(b - a) * MsPerDay, MsPerDay) == Abs(b - a);
  }

  /** The counted days of `lastMonth` are the days of that month. */
  lemma DayCountOfLastMonth(now: Date)
    ensures DateRangeDays(RangeOf(PresetRange(LastMonth, now))) == MonthLength(MonthIndex(now) - 1)
  {
    var (s, e) := PresetRange(LastMonth, now);
    LastMonthDaySpan(now);
    RangeDaysOf(s, e);
  }

  lemma LastMonthDaySpan(now: Date)
    ensures DayNumber(PresetRange(LastMonth, now).1) - DayNumber(PresetRange(LastMonth, now).0)
      == MonthLength(MonthIndex(now) - 1) - 1
  {
    PreviousMonthStep(MonthIndex(now));
    LastMonthBounds(now);
  }

  /** The day count of a range between two dates, from their day numbers. */
  lemma RangeDaysOf(s: Date, e: Date)
    ensures DateRangeDays(RangeOf((s, e))) == Abs(DayNumber(e) - DayNumber(s)) + 1
  {
  }

  datatype CategorySummary = CategorySummary(name: string, amount: real, color: string)

  function SummaryAmount(c: CategorySummary): real {
    c.amount
  }

  /** `({ name, amount, color: categories.find(c => c.name === name)?.color || '#e0e0e0' })`. */
  function WithFirstColor(cats: seq<Category>): CategoryTotal -> CategorySummary {
    (e: CategoryTotal) => CategorySummary(e.name, e.amount, CategoryColor(cats, e.name))
  }

  /** A pie slice: a label, its amount and `categoryColors[name] || '#e0e0e0'`. */
  function WithRecordColor(cats: seq<Category>): CategoryTotal -> CategorySummary {
    (e: CategoryTotal) => CategorySummary(e.name, e.amount, RecordColor(cats, e.name))
  }

  /** `generateCategoryChart`: the eight largest expense categories, largest first. */
  function PieSlices(ts: seq<Transaction>, cats: seq<Category>): seq<CategorySummary> {
    MapSeq(Take(Ranked(ts), 8), WithRecordColor(cats))
  }

  /** `calculateTopCategories`: entries with their colours, sorted, the first five. */
  function TopCategories(ts: seq<Transaction>, cats: seq<Category>): seq<CategorySummary> {
    Take(SortDesc(MapSeq(ExpenseTotals(ts), WithFirstColor(cats)), SummaryAmount), 5)
  }

  /** The pie chart shows at most eight expense categories, largest first, each with
      its summed amount and the colour of the last category of that name. */
  lemma PieSlicesSpec(ts: seq<Transaction>, cats: seq<Category>)
    ensures |PieSlices(ts, cats)| <= 8
    ensures SortedDesc(PieSlices(ts, cats), SummaryAmount)
    ensures forall s <- PieSlices(ts, cats) ::
      s.amount == CategorySum(OfKind(ts, Expense), s.name) && s.color == RecordColor(cats, s.name)
  {
    RankedTop(ts, 8);
    ColouredRows(ts, Take(Ranked(ts), 8), WithRecordColor(cats), n => RecordColor(cats, n));
  }

  /** Colouring sorted totals keeps them sorted, and each row keeps the amount of
      its total. */
  lemma ColouredRows(ts: seq<Transaction>, top: seq<CategoryTotal>, f: CategoryTotal -> CategorySummary, color: string -> string)
    requires SortedDesc(top, TotalAmount)
    requires forall e <- top :: e.amount == CategorySum(OfKind(ts, Expense), e.name)
    requires forall e :: f(e) == CategorySummary(e.name, e.amount, color(e.name))
    ensures SortedDesc(MapSeq(top, f), SummaryAmount)
    ensures forall s <- MapSeq(top, f) :: s.amount == CategorySum(OfKind(ts, Expense), s.name) && s.color == color(s.name)
  {
    MapSorted(top, f, TotalAmount, SummaryAmount);
    var p := MapSeq(top, f);
    forall s <- p ensures s.amount == CategorySum(OfKind(ts, Expense), s.name) && s.color == color(s.name) {
      var i :| 0 <= i < |p| && p[i] == s;
      assert top[i] in top;
    }
  }

  /** Sorting after attaching the colours is sorting the totals and attaching the
      colours after; so the top list is the five largest expense categories, largest
      first, each with its summed amount and the colour of the first category of that
      name. */
  lemma TopCategoriesSpec(ts: seq<Transaction>, cats: seq<Category>)
    ensures TopCategories(ts, cats) == MapSeq(Take(Ranked(ts), 5), WithFirstColor(cats))
    ensures |TopCategories(ts, cats)| <= 5
    ensures SortedDesc(TopCategories(ts, cats), SummaryAmount)
    ensures forall s <- TopCategories(ts, cats) ::
      s.amount == CategorySum(OfKind(ts, Expense), s.name) && s.color == CategoryColor(cats, s.name)
  {
    TopCategoriesRanked(ts, cats);
    RankedTop(ts, 5);
    ColouredRows(ts, Take(Ranked(ts), 5), WithFirstColor(cats), n => CategoryColor(cats, n));
  }

  lemma TopCategoriesRanked(ts: seq<Transaction>, cats: seq<Category>)
    ensures TopCategories(ts, cats) == MapSeq(Take(Ranked(ts), 5), WithFirstColor(cats))
  {
    SortMapCommute(ExpenseTotals(ts), WithFirstColor(cats), TotalAmount, SummaryAmount);
    TakeMapCommute(Ranked(ts), 5, WithFirstColor(cats));
  }

  /** `generateMonthlyTrendsChart`: one bucket per month of the range. */
  function TrendChart(start: Date, end: Date, ts: seq<Transaction>): seq<Bucket> {
    FilledBuckets(MonthIndex(start), MonthCount(start, end), ts, ByYearAndMonth)
  }

  /** The trend chart has a bucket for every month from the start's to the end's, in
      order and with none missing; every transaction of the range is counted once, so
      its buckets add up to the income and expense totals. */
  lemma TrendChartSpec(start: Date, end: Date, ts: seq<Transaction>, kind: TxType)
    requires forall t <- ts :: Time(start) <= Time(t.date) <= Time(end)
    ensures |TrendChart(start, end, ts)| == MonthCount(start, end)
    ensures forall i :: 0 <= i < MonthCount(start, end) ==>
      TrendChart(start, end, ts)[i].key == YearMonth((MonthIndex(start) + i) / 12, (MonthIndex(start) + i) % 12)
    ensures Sum(TrendChart(start, end, ts), BucketAmount(kind)) == Total(ts, kind)
  {
    TrendChartKeys(start, end, ts);
    TrendChartSum(start, end, ts, kind);
  }

  lemma TrendChartKeys(start: Date, end: Date, ts: seq<Transaction>)
    ensures |TrendChart(start, end, ts)| == MonthCount(start, end)
    ensures forall i :: 0 <= i < MonthCount(start, end) ==>
      TrendChart(start, end, ts)[i].key == YearMonth((MonthIndex(start) + i) / 12, (MonthIndex(start) + i) % 12)
  {
    var r := TrendChart(start, end, ts);
    assert r == FilledBuckets(MonthIndex(start), MonthCount(start, end), ts, ByYearAndMonth);
    forall i | 0 <= i < MonthCount(start, end)
      ensures r[i].key == YearMonth((MonthIndex(start) + i) / 12, (MonthIndex(start) + i) % 12)
    {
      assert r[i].key == KeyOfIndex(MonthIndex(start) + i, ByYearAndMonth);
    }
  }

  lemma TrendChartSum(start: Date, end: Date, ts: seq<Transaction>, kind: TxType)
    requires forall t <- ts :: Time(start) <= Time(t.date) <= Time(end)
    ensures Sum(TrendChart(start, end, ts), BucketAmount(kind)) == Total(ts, kind)
  {
    RangeMonths(start, end, ts);
    FilledConservation(MonthIndex(start), MonthCount(start, end), ts, kind);
  }

  /** The transactions of a range fall in the months from the start's to the end's. */
  lemma RangeMonths(start: Date, end: Date, ts: seq<Transaction>)
    requires forall t <- ts :: Time(start) <= Time(t.date) <= Time(end)
    ensures forall t <- ts :: MonthIndex(start) <= MonthIndex(t.date) < MonthIndex(start) + MonthCount(start, end)
  {
    forall t <- ts ensures MonthIndex(start) <= MonthIndex(t.date) < MonthIndex(start) + MonthCount(start, end) {
      MonthIndexMonotone(start, t.date);
      MonthIndexMonotone(t.date, end);
    }
  }

  /** The first bar of the income-versus-expenses chart: the later of the range's start
      and the first of the month five months before the end's, at 00:00
      (`new Date(Math.max(...))`). */
  function WindowStart(start: Date, end: Date): (r: Date)
    ensures Time(r) >= Time(start)
    ensures MonthIndex(r) >= MonthIndex(end) - 5
    ensures r == start || (MonthIndex(r) == MonthIndex(end) - 5 && r.day == 1 && r.ms == 0)
  {
    var sixBack := MakeDate(end.year, end.month - 5, 1, 0);
    MakeDateCivil(end.year, end.month - 5, 1, 0);
    if Time(start) >= Time(sixBack) then
      MonthIndexMonotone(sixBack, start);
      start
    else sixBack
  }

  /** The comparison never covers more than six months, nor anything before the range. */
  lemma WindowAtMostSix(start: Date, end: Date)
    ensures MonthCount(WindowStart(start, end), end) <= 6
    ensures Time(WindowStart(start, end)) >= Time(start)
  {
  }

  /** `generateIncomeVsExpensesChart` as written: months labelled by name only. */
  function ComparisonChartAsWritten(start: Date, end: Date, ts: seq<Transaction>): seq<Bucket> {
    var ws := WindowStart(start, end);
    FilledBuckets(MonthIndex(ws), LabelCount(MonthCount(ws, end), ByMonthName), ts, ByMonthName)
  }

  /** The comparison with months labelled by name and year. */
  function ComparisonChart(start: Date, end: Date, ts: seq<Transaction>): seq<Bucket> {
    var ws := WindowStart(start, end);
    FilledBuckets(MonthIndex(ws), MonthCount(ws, end), ts, ByYearAndMonth)
  }

  /** The as-written chart, by its two loops. */
  method ComparisonBucketsAsWritten(start: Date, end: Date, ts: seq<Transaction>) returns (r: seq<Bucket>)
    ensures r == ComparisonChartAsWritten(start, end, ts)
  {
    r := MonthSeries(WindowStart(start, end), end, ts, ByMonthName);
  }

  /** With name-only labels, an expense of the end's month one year earlier lies
      before the window but is added to the window's last bar, which carries the same
      month name; with year-and-month labels that bar leaves it out. */
  lemma NameLabelsMixYears(start: Date, end: Date, t: Transaction)
    requires Time(start) <= Time(t.date)
    requires MonthIndex(t.date) == MonthIndex(end) - 12 && t.kind == Expense
    ensures Time(t.date) < Time(WindowStart(start, end))
    ensures MonthCount(WindowStart(start, end), end) == 6
    ensures ComparisonChartAsWritten(start, end, [t])[5].expenses == t.amount
    ensures ComparisonChart(start, end, [t])[5].expenses == 0.0
  {
    var ws := WindowStart(start, end);
    var k := MonthIndex(end);
    MonthIndexMonotone(start, t.date);
    assert MonthIndex(ws) == k - 5;
    if Time(ws) <= Time(t.date) {
      MonthIndexMonotone(ws, t.date);
    }
    LastBarOfSix(k - 5, t);
  }

  /** The sixth bar from month k0 is month k0 + 5; a transaction twelve months before
      it shares its name label but not its year-and-month label. */
  lemma LastBarOfSix(k0: int, t: Transaction)
    requires MonthIndex(t.date) == k0 + 5 - 12 && t.kind == Expense
    ensures FilledBuckets(k0, LabelCount(6, ByMonthName), [t], ByMonthName)[5].expenses == t.amount
    ensures FilledBuckets(k0, 6, [t], ByYearAndMonth)[5].expenses == 0.0
  {
    assert [t][..0] == [];
    KeyOfDate(t.date, ByMonthName);
    KeyOfDate(t.date, ByYearAndMonth);
    KeyOfIndexInjective(k0 - 7, k0 + 5, ByYearAndMonth);
    assert (k0 - 7) % 12 == (k0 + 5) % 12;
    var byName, byYear := KeyOfIndex(k0 + 5, ByMonthName), KeyOfIndex(k0 + 5, ByYearAndMonth);
    assert KeyOf(t.date, ByMonthName) == byName;
    assert KeyOf(t.date, ByYearAndMonth) != byYear;
    assert AmountIn([t], byName, ByMonthName, Expense) == AmountIn([], byName, ByMonthName, Expense) + t.amount;
    assert AmountIn([t], byYear, ByYearAndMonth, Expense) == AmountIn([], byYear, ByYearAndMonth, Expense);
  }

  /** A `lastYear` range admits every transaction of the month a year back dated on or
      after today's day of the month; 2025-10-20 is one when today is 2026-10-14. */
  lemma LastYearAdmits(now: Date, t: Transaction)
    requires MonthIndex(t.date) == MonthIndex(now) - 12 && t.date.day >= now.day
    ensures Time(PresetRange(LastYear, now).0) <= Time(t.date) <= Time(PresetRange(LastYear, now).1)
  {
    var (s, e) := PresetRange(LastYear, now);
    LastYearStart(now);
    assert DayNumber(s) == MonthStart(MonthIndex(now) - 12) + now.day - 1;
    Congruent(MonthStart, MonthIndex(t.date), MonthIndex(now) - 12);
    assert DayNumber(t.date) == MonthStart(MonthIndex(now) - 12) + t.date.day - 1;
    MonthIndexParts(t.date);
    assert t.date.day <= MonthLength(MonthIndex(now) - 12);
    MonthStartMonotone(MonthIndex(now) - 12, MonthIndex(now));
    assert MonthStart(MonthIndex(now) - 12) + MonthLength(MonthIndex(now) - 12) <= MonthStart(MonthIndex(now));
    assert DayNumber(t.date) < DayNumber(now);
    assert DayNumber(e) == DayNumber(now);
    assert Time(s) == DayNumber(s) * MsPerDay;
    assert Time(e) == DayNumber(e) * MsPerDay + EndOfDayMs;
  }

  /** In the corrected comparison the transactions of the range that come before the
      window are in no bar, and the bars add up to the totals of the window's
      transactions: those dated from the window's start to the range's end. */
  lemma ComparisonChartSpec(start: Date, end: Date, ts: seq<Transaction>, kind: TxType)
    requires forall t <- ts :: Time(start) <= Time(t.date) <= Time(end)
    ensures |ComparisonChart(start, end, ts)| <= 6
    ensures Sum(ComparisonChart(start, end, ts), BucketAmount(kind)) == Total(Between(ts, WindowStart(start, end), end), kind)
  {
    var ws := WindowStart(start, end);
    FilledWindow(MonthIndex(ws), MonthCount(ws, end), ts, kind);
    WindowFilter(start, end, ts);
  }

  /** The corrected comparison over what `generateIncomeVsExpensesChart` is given, the
      range's transactions: its bars add up to the totals of all transactions dated
      from the window's start to the range's end. */
  lemma ComparisonChartOfRange(all: seq<Transaction>, range: DateRange, kind: TxType)
    requires range.start.Some? && range.end.Some?
    ensures var s, e := range.start.value, range.end.value;
      Sum(ComparisonChart(s, e, FilterByRange(all, range)), BucketAmount(kind))
      == Total(Between(FilterByRange(all, range), WindowStart(s, e), e), kind)
  {
    ComparisonChartSpec(range.start.value, range.end.value, FilterByRange(all, range), kind);
  }

  /** Within the range, being dated in the window's months is being dated from the
      window's start to the end. */
  lemma WindowFilter(start: Date, end: Date, ts: seq<Transaction>)
    requires forall t <- ts :: Time(start) <= Time(t.date) <= Time(end)
    ensures Filter(ts, InMonths(MonthIndex(WindowStart(start, end)), MonthCount(WindowStart(start, end), end)))
      == Between(ts, WindowStart(start, end), end)
  {
    var ws := WindowStart(start, end);
    var p, q := InMonths(MonthIndex(ws), MonthCount(ws, end)), DatedWithin(ws, end);
    forall t <- ts ensures p(t) == q(t) {
      WindowMember(start, end, t);
    }
    FilterCongruent(ts, p, q);
  }

  lemma WindowMember(start: Date, end: Date, t: Transaction)
    requires Time(start) <= Time(t.date) <= Time(end)
    ensures var ws := WindowStart(start, end);
      Time(ws) <= Time(t.date) <==> MonthIndex(ws) <= MonthIndex(t.date) < MonthIndex(ws) + MonthCount(ws, end)
  {
    var ws := WindowStart(start, end);
    var k := MonthIndex(ws);
    MonthIndexMonotone(t.date, end);
    if Time(ws) <= Time(t.date) {
      MonthIndexMonotone(ws, t.date);
    }
    if k <= MonthIndex(t.date) && ws != start {
      TimeWithinMonth(t.date);
      MonthStartOrder(k, MonthIndex(t.date));
      assert Time(ws) == MonthStart(k) * MsPerDay;
    }
  }

  datatype ChartName = CategoryChart | MonthlyTrends | IncomeVsExpenses | TopCategoriesList

  /** `chartVisibility`. */
  datatype Visibility = Visibility(categoryChart: bool, monthlyTrends: bool, incomeVsExpenses: bool, topCategories: bool)
  {
    function Get(c: ChartName): bool {
      match c
      case CategoryChart => categoryChart
      case MonthlyTrends => monthlyTrends
      case IncomeVsExpenses => incomeVsExpenses
      case TopCategoriesList => topCategories
    }

    /** `chartVisibility[c] = !chartVisibility[c]`. */
    function Toggle(c: ChartName): (r: Visibility)
      ensures r.Get(c) == !Get(c)
      ensures forall o :: o != c ==> r.Get(o) == Get(o)
    {
      match c
      case CategoryChart => this.(categoryChart := !categoryChart)
      case MonthlyTrends => this.(monthlyTrends := !monthlyTrends)
      case IncomeVsExpenses => this.(incomeVsExpenses := !incomeVsExpenses)
      case TopCategoriesList => this.(topCategories := !topCategories)
    }
  }

  class AnalyticsComponent {
    var totalIncome: real
    var totalExpenses: real
    var netBalance: real
    var topCategories: seq<CategorySummary>
    var currentDateRange: DateRange
    var chartVisibility: Visibility
    var pieChart: seq<CategorySummary>
    var lineChart: seq<Bucket>
    var barChart: seq<Bucket>

    constructor()
      ensures totalIncome == 0.0 && totalExpenses == 0.0 && netBalance == 0.0
      ensures topCategories == [] && pieChart == [] && lineChart == [] && barChart == []
      ensures currentDateRange == DateRange(None, None)
      ensures chartVisibility == Visibility(false, false, false, false)
    {
      totalIncome, totalExpenses, netBalance := 0.0, 0.0, 0.0;
      topCategories, pieChart, lineChart, barChart := [], [], [], [];
      currentDateRange := DateRange(None, None);
      chartVisibility := Visibility(false, false, false, false);
    }

    /** `calculateSummaryStats`. */
    method CalculateSummaryStats(ts: seq<Transaction>)
      modifies this
      ensures totalIncome == Total(ts, Income) && totalExpenses == Total(ts, Expense)
      ensures netBalance == totalIncome - totalExpenses
      ensures topCategories == old(topCategories) && currentDateRange == old(currentDateRange)
      ensures chartVisibility == old(chartVisibility) && pieChart == old(pieChart)
      ensures lineChart == old(lineChart) && barChart == old(barChart)
    {
      totalIncome := Total(ts, Income);
      totalExpenses := Total(ts, Expense);
      netBalance := totalIncome - totalExpenses;
    }

    /** `loadSummaryData`: the totals of the transactions in the current range. */
    method LoadSummaryData(all: seq<Transaction>)
      modifies this
      ensures totalIncome == Total(FilterByRange(all, currentDateRange), Income)
      ensures totalExpenses == Total(FilterByRange(all, currentDateRange), Expense)
      ensures netBalance == totalIncome - totalExpenses
      ensures topCategories == old(topCategories) && currentDateRange == old(currentDateRange)
      ensures chartVisibility == old(chartVisibility) && pieChart == old(pieChart)
      ensures lineChart == old(lineChart) && barChart == old(barChart)
    {
      CalculateSummaryStats(FilterByRange(all, currentDateRange));
    }

    /** `setDateRange(preset)`: a known preset selects its range and reloads the
        totals; an unknown one changes nothing. */
    method SetDateRange(preset: string, now: Date, all: seq<Transaction>)
      modifies this
      ensures PresetOf(preset).None? ==>
        totalIncome == old(totalIncome) && totalExpenses == old(totalExpenses) && netBalance == old(netBalance)
        && currentDateRange == old(currentDateRange)
      ensures PresetOf(preset).Some? ==>
        currentDateRange == RangeOf(PresetRange(PresetOf(preset).value, now))
        && totalIncome == Total(FilterByRange(all, currentDateRange), Income)
        && totalExpenses == Total(FilterByRange(all, currentDateRange), Expense)
        && netBalance == totalIncome - totalExpenses
      ensures topCategories == old(topCategories) && chartVisibility == old(chartVisibility)
      ensures pieChart == old(pieChart) && lineChart == old(lineChart) && barChart == old(barChart)
    {
      var p := PresetOf(preset);
      if p.None? {
        return;
      }
      currentDateRange := RangeOf(PresetRange(p.value, now));
      LoadSummaryData(all);
    }

    /** `ngOnInit`: starts on the `lastMonth` preset. */
    method OnInit(now: Date, all: seq<Transaction>)
      modifies this
      ensures currentDateRange == RangeOf(PresetRange(LastMonth, now))
      ensures totalIncome == Total(FilterByRange(all, currentDateRange), Income)
      ensures totalExpenses == Total(FilterByRange(all, currentDateRange), Expense)
      ensures netBalance == totalIncome - totalExpenses
      ensures topCategories == old(topCategories) && chartVisibility == old(chartVisibility)
      ensures pieChart == old(pieChart) && lineChart == old(lineChart) && barChart == old(barChart)
    {
      SetDateRange("lastMonth", now, all);
    }

    /** The range form's value changes: a range with both ends replaces the current one
        and reloads the totals. */
    method OnRangeFormChange(start: Option<Date>, end: Option<Date>, all: seq<Transaction>)
      modifies this
      ensures start.None? || end.None? ==>
        currentDateRange == old(currentDateRange) && totalIncome == old(totalIncome)
        && totalExpenses == old(totalExpenses) && netBalance == old(netBalance)
      ensures start.Some? && end.Some? ==>
        currentDateRange == DateRange(start, end)
        && totalIncome == Total(FilterByRange(all, currentDateRange), Income)
        && totalExpenses == Total(FilterByRange(all, currentDateRange), Expense)
        && netBalance == totalIncome - totalExpenses
      ensures topCategories == old(topCategories) && chartVisibility == old(chartVisibility)
      ensures pieChart == old(pieChart) && lineChart == old(lineChart) && barChart == old(barChart)
    {
      if start.Some? && end.Some? {
        currentDateRange := DateRange(start, end);
        LoadSummaryData(all);
      }
    }

    /** `generateCategoryChart`. */
    method GenerateCategoryChart(ts: seq<Transaction>, cats: seq<Category>)
      modifies this
      ensures pieChart == PieSlices(ts, cats)
      ensures totalIncome == old(totalIncome) && totalExpenses == old(totalExpenses) && netBalance == old(netBalance)
      ensures topCategories == old(topCategories) && currentDateRange == old(currentDateRange)
      ensures chartVisibility == old(chartVisibility) && lineChart == old(lineChart) && barChart == old(barChart)
    {
      pieChart := PieSlices(ts, cats);
    }

    /** `generateMonthlyTrendsChart`: nothing without both bounds. */
    method GenerateMonthlyTrendsChart(ts: seq<Transaction>)
      modifies this
      ensures currentDateRange.start.None? || currentDateRange.end.None? ==> lineChart == old(lineChart)
      ensures currentDateRange.start.Some? && currentDateRange.end.Some? ==>
        lineChart == TrendChart(currentDateRange.start.value, currentDateRange.end.value, ts)
      ensures totalIncome == old(totalIncome) && totalExpenses == old(totalExpenses) && netBalance == old(netBalance)
      ensures topCategories == old(topCategories) && currentDateRange == old(currentDateRange)
      ensures chartVisibility == old(chartVisibility) && pieChart == old(pieChart) && barChart == old(barChart)
    {
      if currentDateRange.start.None? || currentDateRange.end.None? {
        return;
      }
      lineChart := MonthSeries(currentDateRange.start.value, currentDateRange.end.value, ts, ByYearAndMonth);
    }

    /** `generateIncomeVsExpensesChart`, with months labelled by name and year. */
    method GenerateIncomeVsExpensesChart(ts: seq<Transaction>)
      modifies this
      ensures currentDateRange.start.None? || currentDateRange.end.None? ==> barChart == old(barChart)
      ensures currentDateRange.start.Some? && currentDateRange.end.Some? ==>
        barChart == ComparisonChart(currentDateRange.start.value, currentDateRange.end.value, ts)
      ensures totalIncome == old(totalIncome) && totalExpenses == old(totalExpenses) && netBalance == old(netBalance)
      ensures topCategories == old(topCategories) && currentDateRange == old(currentDateRange)
      ensures chartVisibility == old(chartVisibility) && pieChart == old(pieChart) && lineChart == old(lineChart)
    {
      if currentDateRange.start.None? || currentDateRange.end.None? {
        return;
      }
      var end := currentDateRange.end.value;
      barChart := MonthSeries(WindowStart(currentDateRange.start.value, end), end, ts, ByYearAndMonth);
    }

    /** `calculateTopCategories`. */
    method CalculateTopCategories(ts: seq<Transaction>, cats: seq<Category>)
      modifies this
      ensures topCategories == TopCategories(ts, cats)
      ensures totalIncome == old(totalIncome) && totalExpenses == old(totalExpenses) && netBalance == old(netBalance)
      ensures currentDateRange == old(currentDateRange) && chartVisibility == old(chartVisibility)
      ensures pieChart == old(pieChart) && lineChart == old(lineChart) && barChart == old(barChart)
    {
      topCategories := TopCategories(ts, cats);
    }

    /** `generateSpecificChart`: the named chart from the transactions of the current
        range; the others stay as they are. */
    method GenerateSpecificChart(name: ChartName, all: seq<Transaction>, cats: seq<Category>)
      modifies this
      ensures var ts := FilterByRange(all, currentDateRange);
        var s, e := currentDateRange.start, currentDateRange.end;
        (if name == CategoryChart then pieChart == PieSlices(ts, cats) else pieChart == old(pieChart))
        && (if name == MonthlyTrends && s.Some? && e.Some? then lineChart == TrendChart(s.value, e.value, ts)
            else lineChart == old(lineChart))
        && (if name == IncomeVsExpenses && s.Some? && e.Some? then barChart == ComparisonChart(s.value, e.value, ts)
            else barChart == old(barChart))
        && (if name == TopCategoriesList then topCategories == TopCategories(ts, cats) else topCategories == old(topCategories))
      ensures totalIncome == old(totalIncome) && totalExpenses == old(totalExpenses) && netBalance == old(netBalance)
      ensures currentDateRange == old(currentDateRange) && chartVisibility == old(chartVisibility)
    {
      var ts := FilterByRange(all, currentDateRange);
      match name
      case CategoryChart => GenerateCategoryChart(ts, cats);
      case MonthlyTrends => GenerateMonthlyTrendsChart(ts);
      case IncomeVsExpenses => GenerateIncomeVsExpensesChart(ts);
      case TopCategoriesList => CalculateTopCategories(ts, cats);
    }

    /** `toggleChart`: flips the chart's visibility and builds it when it becomes
        visible. */
    method ToggleChart(name: ChartName, all: seq<Transaction>, cats: seq<Category>)
      modifies this
      ensures chartVisibility == old(chartVisibility).Toggle(name)
      ensures !chartVisibility.Get(name) ==>
        pieChart == old(pieChart) && lineChart == old(lineChart) && barChart == old(barChart)
        && topCategories == old(topCategories)
      ensures chartVisibility.Get(name) ==>
        var ts := FilterByRange(all, currentDateRange);
        var s, e := currentDateRange.start, currentDateRange.end;
        (if name == CategoryChart then pieChart == PieSlices(ts, cats) else pieChart == old(pieChart))
        && (if name == MonthlyTrends && s.Some? && e.Some? then lineChart == TrendChart(s.value, e.value, ts)
            else lineChart == old(lineChart))
        && (if name == IncomeVsExpenses && s.Some? && e.Some? then barChart == ComparisonChart(s.value, e.value, ts)
            else barChart == old(barChart))
        && (if name == TopCategoriesList then topCategories == TopCategories(ts, cats) else topCategories == old(topCategories))
      ensures totalIncome == old(totalIncome) && totalExpenses == old(totalExpenses) && netBalance == old(netBalance)
      ensures currentDateRange == old(currentDateRange)
    {
      chartVisibility := chartVisibility.Toggle(name);
      if chartVisibility.Get(name) {
        GenerateSpecificChart(name, all, cats);
      }
    }
  }

  /** With no transactions every total is zero. */
  lemma SummaryOfNothing()
    ensures Total([], Income) == 0.0 && Total([], Expense) == 0.0
  {
  }

  /** Income and expenses of the range add up to all its amounts, and the net balance
      is their difference. */
  lemma SummaryPartition(all: seq<Transaction>, range: DateRange)
    ensures Total(FilterByRange(all, range), Income) + Total(FilterByRange(all, range), Expense)
      == Sum(FilterByRange(all, range), Amount)
  {
    TotalsPartition(FilterByRange(all, range));
  }
}
