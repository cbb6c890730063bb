/**
 * The dashboard: a selected reporting period, the income, expense and balance
 * totals of the transactions in it, the five most recent of them, the three
 * largest expense categories with their share of the period's expenses, and a
 * comparison of this month's expenses with last month's. The current time is
 * a parameter, `now`.
 */
module Dashboard {
  import opened Calendar
  import opened Seqs
  import opened Records
  import opened Ranking
  import opened Colors

  /** An entry of `availablePeriods`; `caption` is its `label`. */
  datatype PeriodOption = PeriodOption(value: string, caption: string)

  const AvailablePeriods: seq<PeriodOption> := [
    PeriodOption("currentMonth", "This Month"),
    PeriodOption("lastMonth", "Last Month"),
    PeriodOption("last3Months", "3 Months"),
    PeriodOption("thisYear", "This Year"),
    PeriodOption("allTime", "All Time")
  ]

  const FallbackLabel: string := "This Month"

  function ValueIs(period: string): PeriodOption -> bool {
    (o: PeriodOption) => o.value == period
  }

  /** No two periods share a value, and every caption is non-empty. */
  lemma AvailablePeriodsDistinct()
    ensures forall i, j :: 0 <= i < j < |AvailablePeriods| ==> AvailablePeriods[i].value != AvailablePeriods[j].value
    ensures forall i :: 0 <= i < |AvailablePeriods| ==> AvailablePeriods[i].caption != ""
  {
    forall i, j | 0 <= i < j < |AvailablePeriods|
      ensures AvailablePeriods[i].value != AvailablePeriods[j].value
    {
      assert |AvailablePeriods[i].value| != |AvailablePeriods[j].value|;
    }
  }

  /** `availablePeriods.find(p => p.value === period)?.label || 'This Month'`. */
  function PeriodLabel(period: string): (l: string)
    ensures (forall o <- AvailablePeriods :: o.value != period) ==> l == FallbackLabel
    ensures forall i :: 0 <= i < |AvailablePeriods| && AvailablePeriods[i].value == period ==>
      l == AvailablePeriods[i].caption
  {
    AvailablePeriodsDistinct();
    var i := FindFirst(AvailablePeriods, ValueIs(period));
    if i.None? then FallbackLabel
    else
      var caption := AvailablePeriods[i.value].caption;
      if caption == "" then FallbackLabel else caption
  }

  /** `filterTransactionsByPeriod` as written: the months of `currentMonth` and
      `lastMonth` end at 00:00 of their last day (`new Date(y, m + 1, 0)`); every other
      period ends at `now`; an unknown key starts on the first of this month. */
  function PeriodBoundsAsWritten(period: string, now: Date): (r: (Date, Date))
    ensures period == "currentMonth" ==> r.1 == MonthsBack(now, -1, 0)
    ensures period == "lastMonth" ==> r.1 == MonthsBack(now, 0, 0)
    ensures period != "currentMonth" && period != "lastMonth" ==> r.1 == now
  {
    var y := now.year;
    if period == "currentMonth" then (MonthsBack(now, 0, 1), MonthsBack(now, -1, 0))
    else if period == "lastMonth" then (MonthsBack(now, 1, 1), MonthsBack(now, 0, 0))
    else if period == "last3Months" then (MonthsBack(now, 3, 1), now)
    else if period == "thisYear" then (MakeDate(y, 0, 1, 0), now)
    else if period == "allTime" then (MakeDate(2020, 0, 1, 0), now)
    else (MonthsBack(now, 0, 1), now)
  }

  /** The period bounds with the months of `currentMonth` and `lastMonth` ending at the
      end of their last day. */
  function PeriodBounds(period: string, now: Date): (r: (Date, Date))
    ensures r.0 == PeriodBoundsAsWritten(period, now).0
    ensures period == "currentMonth" || period == "lastMonth" ==> r.1 == EndOfDay(PeriodBoundsAsWritten(period, now).1)
    ensures period != "currentMonth" && period != "lastMonth" ==> r.1 == now
  {
    var (s, e) := PeriodBoundsAsWritten(period, now);
    if period == "currentMonth" || period == "lastMonth" then (s, EndOfDay(e)) else (s, now)
  }

  /** The transactions dated within the period, bounds included, in their order. */
  function FilterByPeriod(ts: seq<Transaction>, period: string, now: Date): (r: seq<Transaction>)
    ensures forall t <- r :: t in ts && Time(PeriodBounds(period, now).0) <= Time(t.date) <= Time(PeriodBounds(period, now).1)
    ensures forall t <- ts :: Time(PeriodBounds(period, now).0) <= Time(t.date) <= Time(PeriodBounds(period, now).1) ==> t in r
    ensures IsSubsequence(r, ts)
  {
    Between(ts, PeriodBounds(period, now).0, PeriodBounds(period, now).1)
  }

  function FilterByPeriodAsWritten(ts: seq<Transaction>, period: string, now: Date): seq<Transaction> {
    Between(ts, PeriodBoundsAsWritten(period, now).0, PeriodBoundsAsWritten(period, now).1)
  }

  /** The first instant of the month n months back. */
  lemma MonthFirstInstant(now: Date, n: int)
    ensures Time(MonthsBack(now, n, 1)) == MonthStart(MonthIndex(now) - n) * 86400000
  {
    var r := MonthsBack(now, n, 1);
    assert DayNumber(r) == MonthStart(MonthIndex(now) - n);
  }

  /** The last instant of the month n months back: the end of day 0 of the month
      after it. */
  lemma MonthLastInstant(now: Date, n: int)
    ensures Time(EndOfDay(MonthsBack(now, n, 0))) == MonthStart(MonthIndex(now) - n) * 86400000 - 1
  {
    var r := MonthsBack(now, n, 0);
    assert DayNumber(r) == MonthStart(MonthIndex(now) - n) - 1;
    assert DayNumber(EndOfDay(r)) == DayNumber(r);
  }

  /** With the corrected bounds, `currentMonth` holds exactly the dates of this month and
      `lastMonth` exactly those of the previous one, whatever their time of day. */
  lemma MonthPeriodsExact(now: Date, d: Date)
    ensures MonthIndex(d) == MonthIndex(now) <==>
      Time(PeriodBounds("currentMonth", now).0) <= Time(d) <= Time(PeriodBounds("currentMonth", now).1)
    ensures MonthIndex(d) == MonthIndex(now) - 1 <==>
      Time(PeriodBounds("lastMonth", now).0) <= Time(d) <= Time(PeriodBounds("lastMonth", now).1)
  {
    CurrentMonthExact(now, d);
    LastMonthExact(now, d);
  }

  lemma CurrentMonthExact(now: Date, d: Date)
    ensures MonthIndex(d) == MonthIndex(now) <==>
      Time(PeriodBounds("currentMonth", now).0) <= Time(d) <= Time(PeriodBounds("currentMonth", now).1)
  {
    var (s, e) := PeriodBounds("currentMonth", now);
    assert s == MonthsBack(now, 0, 1) && e == EndOfDay(MonthsBack(now, -1, 0));
    CurrentMonthEdges(now);
    InMonthBetween(d, MonthIndex(now), Time(s), Time(e));
  }

  lemma CurrentMonthEdges(now: Date)
    ensures Time(MonthsBack(now, 0, 1)) == MonthStart(MonthIndex(now)) * 86400000
    ensures Time(EndOfDay(MonthsBack(now, -1, 0))) == (MonthStart(MonthIndex(now)) + MonthLength(MonthIndex(now))) * 86400000 - 1
  {
    MonthFirstInstant(now, 0);
    MonthLastInstant(now, -1);
    Congruent(MonthStart, MonthIndex(now) - 0, MonthIndex(now));
    Congruent(MonthStart, MonthIndex(now) - -1, MonthIndex(now) + 1);
    MonthStartStep(MonthIndex(now));
  }

  lemma LastMonthExact(now: Date, d: Date)
    ensures MonthIndex(d) == MonthIndex(now) - 1 <==>
      Time(PeriodBounds("lastMonth", now).0) <= Time(d) <= Time(PeriodBounds("lastMonth", now).1)
  {
    var (s, e) := PeriodBounds("lastMonth", now);
    assert s == MonthsBack(now, 1, 1) && e == EndOfDay(MonthsBack(now, 0, 0));
    LastMonthEdges(now);
    InMonthBetween(d, MonthIndex(now) - 1, Time(s), Time(e));
  }

  lemma LastMonthEdges(now: Date)
    ensures Time(MonthsBack(now, 1, 1)) == MonthStart(MonthIndex(now) - 1) * 86400000
    ensures Time(EndOfDay(MonthsBack(now, 0, 0))) == (MonthStart(MonthIndex(now) - 1) + MonthLength(MonthIndex(now) - 1)) * 86400000 - 1
  {
    MonthFirstInstant(now, 1);
    MonthLastInstant(now, 0);
    Congruent(MonthStart, MonthIndex(now) - 0, MonthIndex(now) - 1 + 1);
    MonthStartStep(MonthIndex(now) - 1);
  }

  /** A date is in month k exactly when it lies between the month's first and last
      instants. */
  lemma InMonthBetween(d: Date, k: int, first: int, last: int)
    requires first == MonthStart(k) * 86400000
    requires last == (MonthStart(k) + MonthLength(k)) * 86400000 - 1
    ensures MonthIndex(d) == k <==> first <= Time(d) <= last
  {
    InMonthIff(d, k);
    MonthStartStep(k);
  }

  /** As written, a date on the last day of this month after 00:00 falls outside
      `currentMonth`: on 2026-10-31 at 10:00, a transaction of 09:00 that day is left out. */
  lemma LastDayDroppedAsWritten(now: Date, t: Transaction)
    requires MonthIndex(t.date) == MonthIndex(now) && t.date.day == MonthLength(MonthIndex(now)) && t.date.ms > 0
    ensures t !in FilterByPeriodAsWritten([t], "currentMonth", now)
    ensures t in FilterByPeriod([t], "currentMonth", now)
  {
    LastDayOutside(now, t);
    LastDayInside(now, t);
  }

  lemma LastDayOutside(now: Date, t: Transaction)
    requires MonthIndex(t.date) == MonthIndex(now) && t.date.day == MonthLength(MonthIndex(now)) && t.date.ms > 0
    ensures t !in FilterByPeriodAsWritten([t], "currentMonth", now)
  {
    LastDayAfterMidnight(now, t.date);
  }

  lemma LastDayInside(now: Date, t: Transaction)
    requires MonthIndex(t.date) == MonthIndex(now)
    ensures t in FilterByPeriod([t], "currentMonth", now)
  {
    CurrentMonthExact(now, t.date);
  }

  /** The as-written end of `currentMonth` is 00:00 of the month's last day. */
  lemma LastDayAfterMidnight(now: Date, d: Date)
    requires MonthIndex(d) == MonthIndex(now) && d.day == MonthLength(MonthIndex(now)) && d.ms > 0
    ensures Time(PeriodBoundsAsWritten("currentMonth", now).1) < Time(d)
  {
    AsWrittenMonthEnd(now);
    LastDayTime(now, d);
  }

  lemma AsWrittenMonthEnd(now: Date)
    ensures Time(PeriodBoundsAsWritten("currentMonth", now).1) ==
      (MonthStart(MonthIndex(now)) + MonthLength(MonthIndex(now)) - 1) * 86400000
  {
    NextMonthStart(now);
    var e := PeriodBoundsAsWritten("currentMonth", now).1;
    assert e == MonthsBack(now, -1, 0);
    assert DayNumber(e) == MonthStart(MonthIndex(now) - -1) - 1;
  }

  lemma LastDayTime(now: Date, d: Date)
    requires MonthIndex(d) == MonthIndex(now) && d.day == MonthLength(MonthIndex(now))
    ensures Time(d) == (MonthStart(MonthIndex(now)) + MonthLength(MonthIndex(now)) - 1) * 86400000 + d.ms
  {
    Congruent(MonthStart, MonthIndex(d), MonthIndex(now));
    assert DayNumber(d) == MonthStart(MonthIndex(now)) + MonthLength(MonthIndex(now)) - 1;
  }

  lemma NextMonthStart(now: Date)
    ensures MonthStart(MonthIndex(now) - -1) == MonthStart(MonthIndex(now)) + MonthLength(MonthIndex(now))
  {
    MonthStartStep(MonthIndex(now));
    Congruent(MonthStart, MonthIndex(now) - -1, MonthIndex(now) + 1);
  }

  /** Every period other than the two whole months ends at `now`, and the fallback for
      an unknown key runs from the first of this month. */
  lemma OtherPeriodsEndNow(period: string, now: Date)
    requires period !in ["currentMonth", "lastMonth", "last3Months", "thisYear", "allTime"]
    ensures PeriodBounds(period, now) == (MonthsBack(now, 0, 1), now)
  {
  }

  /** `new Date(b.date).getTime() - new Date(a.date).getTime()` sorts on this key. */
  function TimeKey(t: Transaction): real {
    Time(t.date) as real
  }

  /** The five most recent transactions of a list, newest first. */
  function Recent(ts: seq<Transaction>): seq<Transaction> {
    Take(SortDesc(ts, TimeKey), 5)
  }

  /** At most five, newest first, drawn from the list; none left out is newer than one
      kept; and transactions of the same instant keep their order. */
  lemma RecentSpec(ts: seq<Transaction>)
    ensures |Recent(ts)| <= 5 && (|ts| >= 5 ==> |Recent(ts)| == 5)
    ensures forall i, j :: 0 <= i < j < |Recent(ts)| ==> Time(Recent(ts)[i].date) >= Time(Recent(ts)[j].date)
    ensures forall t <- Recent(ts) :: t in ts
    ensures forall t <- ts :: t !in Recent(ts) ==> forall k :: 0 <= k < |Recent(ts)| ==> Time(t.date) <= Time(Recent(ts)[k].date)
    ensures forall v :: WithKey(SortDesc(ts, TimeKey), TimeKey, v) == WithKey(ts, TimeKey, v)
  {
    RecentOrdered(ts);
    RecentDrawn(ts);
    RecentNewest(ts);
    forall v ensures WithKey(SortDesc(ts, TimeKey), TimeKey, v) == WithKey(ts, TimeKey, v) {
      SortDescStable(ts, TimeKey, v);
    }
  }

  lemma RecentOrdered(ts: seq<Transaction>)
    ensures forall i, j :: 0 <= i < j < |Recent(ts)| ==> Time(Recent(ts)[i].date) >= Time(Recent(ts)[j].date)
  {
    var top := Recent(ts);
    TakeKeepsLargest(SortDesc(ts, TimeKey), 5, TimeKey);
    forall i, j | 0 <= i < j < |top| ensures Time(top[i].date) >= Time(top[j].date) {
      assert TimeKey(top[i]) >= TimeKey(top[j]);
    }
  }

  lemma RecentDrawn(ts: seq<Transaction>)
    ensures forall t <- Recent(ts) :: t in ts
  {
    var sorted := SortDesc(ts, TimeKey);
    forall t <- Recent(ts) ensures t in ts {
      assert t in multiset(sorted);
    }
  }

  lemma RecentNewest(ts: seq<Transaction>)
    ensures forall t <- ts :: t !in Recent(ts) ==> forall k :: 0 <= k < |Recent(ts)| ==> Time(t.date) <= Time(Recent(ts)[k].date)
  {
    var sorted := SortDesc(ts, TimeKey);
    var top := Recent(ts);
    TakeKeepsLargest(sorted, 5, TimeKey);
    forall t <- ts | t !in top ensures forall k :: 0 <= k < |top| ==> Time(t.date) <= Time(top[k].date) {
      assert t in multiset(sorted);
      var j :| 0 <= j < |sorted| && sorted[j] == t;
      assert j >= |top|;
      forall k | 0 <= k < |top| ensures Time(t.date) <= Time(top[k].date) {
        assert TimeKey(sorted[j]) <= TimeKey(top[k]);
      }
    }
  }

  /** `totalExpenses > 0 ? (amount / totalExpenses) * 100 : 0`. */
  function Share(amount: real, total: real): (p: real)
    ensures total > 0.0 ==> p * total == amount * 100.0
    ensures total <= 0.0 ==> p == 0.0
  {
    if total > 0.0 then amount / total * 100.0 else 0.0
  }

  datatype TopCategory = TopCategory(name: string, amount: real, color: string, percentage: real)

  function TopAmount(c: TopCategory): real {
    c.amount
  }

  function Percentage(c: TopCategory): real {
    c.percentage
  }

  function WithShare(cats: seq<Category>, total: real): CategoryTotal -> TopCategory {
    (e: CategoryTotal) => TopCategory(e.name, e.amount, CategoryColor(cats, e.name), Share(e.amount, total))
  }

  /** The `Object.entries(...).map(...).sort(...).slice(0, 3)` chain over the totals. */
  function TopThree(totals: seq<CategoryTotal>, cats: seq<Category>, total: real): seq<TopCategory> {
    Take(SortDesc(MapSeq(totals, WithShare(cats, total)), TopAmount), 3)
  }

  /** The top list of a list of transactions: the three largest expense categories,
      largest first, each with its summed amount, the colour of the first category of
      that name and its share of `total`, which is 0 when `total` is not positive. */
  lemma TopThreeSpec(ts: seq<Transaction>, cats: seq<Category>, total: real)
    ensures TopThree(ExpenseTotals(ts), cats, total) == MapSeq(Take(Ranked(ts), 3), WithShare(cats, total))
    ensures |TopThree(ExpenseTotals(ts), cats, total)| <= 3
    ensures SortedDesc(TopThree(ExpenseTotals(ts), cats, total), TopAmount)
    ensures forall c <- TopThree(ExpenseTotals(ts), cats, total) ::
      c.amount == CategorySum(OfKind(ts, Expense), c.name) && c.color == CategoryColor(cats, c.name)
      && c.percentage == Share(c.amount, total)
    ensures total <= 0.0 ==> forall c <- TopThree(ExpenseTotals(ts), cats, total) :: c.percentage == 0.0
  {
    TopThreeRanked(ts, cats, total);
    RankedTop(ts, 3);
    SharedRows(ts, Take(Ranked(ts), 3), cats, total);
  }

  /** Attaching colours and shares to sorted totals keeps them sorted, and each row
      keeps the amount of its total. */
  lemma SharedRows(ts: seq<Transaction>, top: seq<CategoryTotal>, cats: seq<Category>, total: real)
    requires SortedDesc(top, TotalAmount)
    requires forall e <- top :: e.amount == CategorySum(OfKind(ts, Expense), e.name)
    ensures SortedDesc(MapSeq(top, WithShare(cats, total)), TopAmount)
    ensures forall c <- MapSeq(top, WithShare(cats, total)) ::
      c.amount == CategorySum(OfKind(ts, Expense), c.name) && c.color == CategoryColor(cats, c.name)
      && c.percentage == Share(c.amount, total)
  {
    MapSorted(top, WithShare(cats, total), TotalAmount, TopAmount);
    var p := MapSeq(top, WithShare(cats, total));
    forall c <- p ensures c.amount == CategorySum(OfKind(ts, Expense), c.name) && c.color == CategoryColor(cats, c.name)
      && c.percentage == Share(c.amount, total) {
      var i :| 0 <= i < |p| && p[i] == c;
      assert top[i] in top;
    }
  }

  /** Sorting the top list's rows is sorting the ranked totals, and the share and
      colour are attached afterwards. */
  lemma TopThreeRanked(ts: seq<Transaction>, cats: seq<Category>, total: real)
    ensures TopThree(ExpenseTotals(ts), cats, total) == MapSeq(Take(Ranked(ts), 3), WithShare(cats, total))
  {
    SortMapCommute(ExpenseTotals(ts), WithShare(cats, total), TotalAmount, TopAmount);
    TakeMapCommute(Ranked(ts), 3, WithShare(cats, total));
  }

  /** Shares of one total add up like the amounts. */
  lemma ShareAdd(a: real, b: real, total: real)
    ensures Share(a, total) + Share(b, total) == Share(a + b, total)
  {
    if total > 0.0 {
      assert (a + b) / total == a / total + b / total;
    }
  }

  lemma {:induction false} SumOfShares(s: seq<CategoryTotal>, cats: seq<Category>, total: real)
    ensures Sum(MapSeq(s, WithShare(cats, total)), Percentage) == Share(Sum(s, TotalAmount), total)
  {
    if s != [] {
      SumOfShares(s[1..], cats, total);
      var m := MapSeq(s, WithShare(cats, total));
      assert m[1..] == MapSeq(s[1..], WithShare(cats, total));
      assert m[0].percentage == Share(s[0].amount, total);
      ShareAdd(s[0].amount, Sum(s[1..], TotalAmount), total);
    }
  }

  /** When the total is the list's expense total, the shares of all its expense
      categories add up to 100. */
  lemma SharesAddUp(ts: seq<Transaction>, cats: seq<Category>)
    requires Total(ts, Expense) > 0.0
    ensures Sum(MapSeq(ExpenseTotals(ts), WithShare(cats, Total(ts, Expense))), Percentage) == 100.0
  {
    ExpenseTotalsSpec(ts);
    SumOfShares(ExpenseTotals(ts), cats, Total(ts, Expense));
    var t := Total(ts, Expense);
    assert t / t == 1.0;
  }

  datatype Direction = More | Less

  /** `trendComparison`: blank, or the size and direction of the change in percent. */
  datatype Trend = NoTrend | Change(percent: real, direction: Direction)

  /** `(this - last) / last * 100`, shown as its magnitude and a direction. */
  function TrendChange(current: real, last: real): (r: Trend)
    requires last > 0.0
    ensures r.Change?
    ensures r.direction == More <==> current >= last
    ensures r.percent >= 0.0 && r.percent * last == (if current >= last then current - last else last - current) * 100.0
  {
    var pct := (current - last) / last * 100.0;
    assert pct * last == (current - last) * 100.0;
    Change(if pct < 0.0 then -pct else pct, if pct >= 0.0 then More else Less)
  }

  datatype MonthlyStats = MonthlyStats(currentMonth: string, income: real, expenses: real)

  /** The prefix step of the per-category accumulation. */
  lemma TotalsStep(ts: seq<Transaction>, i: nat)
    requires i < |ts|
    ensures Totals(OfKind(ts[..i + 1], Expense))
      == if ts[i].kind == Expense then AddTo(Totals(OfKind(ts[..i], Expense)), ts[i].category, ts[i].amount)
         else Totals(OfKind(ts[..i], Expense))
  {
    var before := OfKind(ts[..i], Expense);
    OfKindPrefixStep(ts, i, Expense);
    if ts[i].kind == Expense {
      var s := before + [ts[i]];
      assert s[..|s| - 1] == before;
    } else {
      assert before + [] == before;
    }
  }

  /** One more transaction of the prefix adds it to the filtered prefix exactly
      when it is of the kind. */
  lemma OfKindPrefixStep(ts: seq<Transaction>, i: nat, kind: TxType)
    requires i < |ts|
    ensures OfKind(ts[..i + 1], kind) == OfKind(ts[..i], kind) + (if ts[i].kind == kind then [ts[i]] else [])
  {
    assert ts[..i + 1] == ts[..i] + [ts[i]];
    FilterConcat(ts[..i], [ts[i]], KindIs(kind));
    assert Filter([ts[i]], KindIs(kind)) == if ts[i].kind == kind then [ts[i]] else [];
  }

  /** The `forEach` of `calculateTopCategories` filling `categoryTotals`: each expense
      added to its category's entry, a new entry for a category not seen before. */
  method AccumulateExpenses(ts: seq<Transaction>) returns (categoryTotals: seq<CategoryTotal>)
    ensures categoryTotals == ExpenseTotals(ts)
  {
    categoryTotals := [];
    for i := 0 to |ts|
      invariant categoryTotals == Totals(OfKind(ts[..i], Expense))
    {
      TotalsStep(ts, i);
      if ts[i].kind == Expense {
        categoryTotals := AddTo(categoryTotals, ts[i].category, ts[i].amount);
      }
    }
    assert ts[..|ts|] == ts;
  }

  class DashboardComponent {
    var totalBalance: real
    var totalIncome: real
    var totalExpenses: real
    var recentTransactions: seq<Transaction>
    var selectedPeriod: string
    var currentPeriodLabel: string
    var trendComparison: Trend
    var monthlyStats: MonthlyStats
    var topCategories: seq<TopCategory>

    /** The initial state; `monthName` is this month's long name. */
    constructor(monthName: string)
      ensures totalBalance == 0.0 && totalIncome == 0.0 && totalExpenses == 0.0
      ensures recentTransactions == [] && topCategories == []
      ensures selectedPeriod == "currentMonth" && currentPeriodLabel == FallbackLabel
      ensures trendComparison == NoTrend && monthlyStats == MonthlyStats(monthName, 0.0, 0.0)
    {
      totalBalance, totalIncome, totalExpenses := 0.0, 0.0, 0.0;
      recentTransactions, topCategories := [], [];
      selectedPeriod, currentPeriodLabel := "currentMonth", FallbackLabel;
      trendComparison := NoTrend;
      monthlyStats := MonthlyStats(monthName, 0.0, 0.0);
    }

    /** `calculatePeriodStats`. */
    method CalculatePeriodStats(ts: seq<Transaction>, now: Date)
      modifies this
      ensures totalIncome == Total(FilterByPeriod(ts, old(selectedPeriod), now), Income)
      ensures totalExpenses == Total(FilterByPeriod(ts, old(selectedPeriod), now), Expense)
      ensures totalBalance == totalIncome - totalExpenses
      ensures monthlyStats == MonthlyStats(old(currentPeriodLabel), totalIncome, totalExpenses)
      ensures selectedPeriod == old(selectedPeriod) && currentPeriodLabel == old(currentPeriodLabel)
      ensures recentTransactions == old(recentTransactions) && trendComparison == old(trendComparison)
      ensures topCategories == old(topCategories)
    {
      var filtered := FilterByPeriod(ts, selectedPeriod, now);
      var income, expenses := Total(filtered, Income), Total(filtered, Expense);
      totalIncome, totalExpenses, totalBalance := income, expenses, income - expenses;
      monthlyStats := MonthlyStats(currentPeriodLabel, income, expenses);
    }

    /** `calculateTrendComparison`: only `currentMonth` compares with last month, and
        then only when last month had expenses; otherwise the message is kept. */
    method CalculateTrendComparison(ts: seq<Transaction>, now: Date)
      modifies this
      ensures var last := Total(FilterByPeriod(ts, "lastMonth", now), Expense);
        if old(selectedPeriod) != "currentMonth" then trendComparison == NoTrend
        else if last > 0.0 then trendComparison == TrendChange(old(totalExpenses), last)
        else trendComparison == old(trendComparison)
      ensures totalBalance == old(totalBalance) && totalIncome == old(totalIncome) && totalExpenses == old(totalExpenses)
      ensures selectedPeriod == old(selectedPeriod) && currentPeriodLabel == old(currentPeriodLabel)
      ensures recentTransactions == old(recentTransactions) && monthlyStats == old(monthlyStats)
      ensures topCategories == old(topCategories)
    {
      if selectedPeriod == "currentMonth" {
        var lastMonthTotal := Total(FilterByPeriod(ts, "lastMonth", now), Expense);
        if lastMonthTotal > 0.0 {
          trendComparison := TrendChange(totalExpenses, lastMonthTotal);
        }
      } else {
        trendComparison := NoTrend;
      }
    }

    /** `calculateTopCategories`: the `forEach` filling `categoryTotals`, then the
        entries with colour and share, largest first, the first three. */
    method CalculateTopCategories(ts: seq<Transaction>, cats: seq<Category>)
      modifies this
      ensures topCategories == TopThree(ExpenseTotals(ts), cats, old(totalExpenses))
      ensures totalBalance == old(totalBalance) && totalIncome == old(totalIncome) && totalExpenses == old(totalExpenses)
      ensures selectedPeriod == old(selectedPeriod) && currentPeriodLabel == old(currentPeriodLabel)
      ensures recentTransactions == old(recentTransactions) && monthlyStats == old(monthlyStats)
      ensures trendComparison == old(trendComparison)
    {
      var categoryTotals := AccumulateExpenses(ts);
      topCategories := TopThree(categoryTotals, cats, totalExpenses);
    }

    /** `loadDashboardData`: the period's totals and trend, then its transactions
        sorted newest first (in place, so the top list sees them in that order), the
        first five of them, and the top list. */
    method LoadDashboardData(ts: seq<Transaction>, cats: seq<Category>, now: Date)
      modifies this
      ensures var period := FilterByPeriod(ts, selectedPeriod, now);
        totalIncome == Total(period, Income) && totalExpenses == Total(period, Expense)
        && totalBalance == totalIncome - totalExpenses
        && monthlyStats == MonthlyStats(currentPeriodLabel, totalIncome, totalExpenses)
        && recentTransactions == Recent(period)
        && topCategories == TopThree(ExpenseTotals(SortDesc(period, TimeKey)), cats, totalExpenses)
      ensures var last := Total(FilterByPeriod(ts, "lastMonth", now), Expense);
        if selectedPeriod != "currentMonth" then trendComparison == NoTrend
        else if last > 0.0 then trendComparison == TrendChange(totalExpenses, last)
        else trendComparison == old(trendComparison)
      ensures selectedPeriod == old(selectedPeriod) && currentPeriodLabel == old(currentPeriodLabel)
    {
      CalculatePeriodStats(ts, now);
      CalculateTrendComparison(ts, now);
      var periodTransactions := FilterByPeriod(ts, selectedPeriod, now);
      periodTransactions := SortDesc(periodTransactions, TimeKey);
      recentTransactions := Take(periodTransactions, 5);
      CalculateTopCategories(periodTransactions, cats);
    }

    /** `onPeriodChange`. */
    method OnPeriodChange(period: string, ts: seq<Transaction>, cats: seq<Category>, now: Date)
      modifies this
      ensures selectedPeriod == period && currentPeriodLabel == PeriodLabel(period)
      ensures var p := FilterByPeriod(ts, period, now);
        totalIncome == Total(p, Income) && totalExpenses == Total(p, Expense)
        && totalBalance == totalIncome - totalExpenses
        && monthlyStats == MonthlyStats(PeriodLabel(period), totalIncome, totalExpenses)
        && recentTransactions == Recent(p)
        && topCategories == TopThree(ExpenseTotals(SortDesc(p, TimeKey)), cats, totalExpenses)
      ensures var last := Total(FilterByPeriod(ts, "lastMonth", now), Expense);
        if period != "currentMonth" then trendComparison == NoTrend
        else if last > 0.0 then trendComparison == TrendChange(totalExpenses, last)
        else trendComparison == old(trendComparison)
    {
      selectedPeriod := period;
      currentPeriodLabel := PeriodLabel(period);
      LoadDashboardData(ts, cats, now);
    }

    /** `getSavingsRate()`: the share of income not spent, 0 without income. */
    function SavingsRate(): (r: real)
      reads this
      ensures totalIncome <= 0.0 ==> r == 0.0
      ensures totalIncome > 0.0 ==> r * totalIncome == (totalIncome - totalExpenses) * 100.0
    {
      if totalIncome > 0.0 then (totalIncome - totalExpenses) / totalIncome * 100.0 else 0.0
    }

    /** `getCategoryColor(name)`: the colour of the first top-list entry of that name,
        else the default. */
    function TopCategoryColor(name: string): (r: string)
      reads this
      ensures (forall c <- topCategories :: c.name != name) ==> r == DefaultColor
      ensures forall i :: (0 <= i < |topCategories| && topCategories[i].name == name &&
        (forall j :: 0 <= j < i ==> topCategories[j].name != name)) ==> r == OrDefault(topCategories[i].color)
    {
      var i := FindFirst(topCategories, TopNameIs(name));
      if i.None? then DefaultColor else OrDefault(topCategories[i.value].color)
    }
  }

  function TopNameIs(name: string): TopCategory -> bool {
    (c: TopCategory) => c.name == name
  }

  /** After loading, the top list of the period lists its three largest expense
      categories, and the shares of all its categories add up to 100. */
  lemma LoadedTopSpec(period: seq<Transaction>, cats: seq<Category>)
    requires Total(period, Expense) > 0.0
    ensures var sorted := SortDesc(period, TimeKey);
      Total(sorted, Expense) == Total(period, Expense)
      && Sum(MapSeq(ExpenseTotals(sorted), WithShare(cats, Total(period, Expense))), Percentage) == 100.0
  {
    TotalSorted(period, TimeKey, Expense);
    SharesAddUp(SortDesc(period, TimeKey), cats);
  }
}
