# KaneTracker reporting core in Dafny

KaneTracker is a personal finance tracker that runs in the browser and keeps its data in
IndexedDB. A user records income and expense transactions, each filed under a category
name. The app then shows:

- a dashboard with period totals, recent transactions, top spending categories and a
  month-over-month trend;
- an analytics screen with date-range presets and four charts;
- a category screen that refuses to delete a category still in use;
- a dialog to create or edit a category.

This project models that reporting and validation logic and proves what it promises.

Modules:

- `Calendar`: local dates as JavaScript's `Date` treats them. `new Date(y, m, d)` pushes
  out-of-range months and days into later or earlier months; `setHours` sets the time of
  day; `getTime()` gives milliseconds since 1970-01-01.
- `Records`: transactions, categories, filtering by type or date, and typed totals.
- `Seqs`: the array operations the components chain: `filter`, `reduce`, the stable
  descending `sort`, `slice(0, n)`, `map` and `findIndex`.
- `Ranking`: expense totals per category name, in the order `Object.entries` gives, and
  their ranking.
- `Colors`: category colour lookup with the `'#e0e0e0'` fallback, and `hexToRgba`.
  `hexToRgba` includes a model of `parseInt(s, 16)`.
- `Buckets`: the month buckets of the analytics charts. First the month loop, then the
  `forEach` that adds each transaction to its month.
- `Store`: the two IndexedDB tables as sequences, with delete-by-id and the usage count.
- `Analytics`, `Dashboard`, `Transactions`, `CategoryManagement`, `CategoryDialog`: one
  module per component. A component's fields are a class; each method that updates them is
  a method that states the whole new state.

The current time, the transactions and categories read from the store, the user's answer
to a `confirm()` dialog, and whether a store call throws are all parameters.

The dashboard and analytics code has three defects. For each one the model keeps the
behaviour as written, proves an input that exposes it, and then uses a corrected version
(see "Findings").

## Model

Paths are relative to the repository root.

| member | source | states |
|---|---|---|
| Calendar.DaysInMonth | KaneTracker/kanetracker/src/app/analytics/analytics.component.ts:424-425 | A month has 28 to 31 days, and 29 exactly for February of a leap year. |
| Calendar.MonthStartMonotone | KaneTracker/kanetracker/src/app/analytics/analytics.component.ts:472-477 | A later month begins after every day of an earlier month. |
| Calendar.MonthStartOrder | KaneTracker/kanetracker/src/app/analytics/analytics.component.ts:472-477 | One month begins no later than another exactly when its month index is no larger. |
| Calendar.MonthIndexMonotone | KaneTracker/kanetracker/src/app/analytics/analytics.component.ts:465-466 | Dates compared by `getTime()` have their months in the same order. |
| Calendar.TimeWithinMonth | KaneTracker/kanetracker/src/app/dashboard/dashboard.component.ts:100-102 | A date's time lies between its month's first instant and the next month's first instant. |
| Calendar.InMonthIff | KaneTracker/kanetracker/src/app/dashboard/dashboard.component.ts:100-102 | A date falls in month k exactly when its time lies inside month k's span, both directions. |
| Calendar.DayNumberCivil | KaneTracker/kanetracker/src/app/analytics/analytics.component.ts:424-425 | Given its day number, a date's month and day of the month are determined. |
| Calendar.NormalizeDay | KaneTracker/kanetracker/src/app/analytics/analytics.component.ts:421 | An out-of-range day offset (`setDate(getDate() - 6)`, day 0) becomes a valid day of some month and still denotes the same day. |
| Calendar.DateInMonth | KaneTracker/kanetracker/src/app/analytics/analytics.component.ts:424-425 | Day d of month k is the day `d - 1` days after the first of k, which also covers day 0 and days past the end. |
| Calendar.DateInMonthCivil | KaneTracker/kanetracker/src/app/analytics/analytics.component.ts:436 | A day that exists in its month is kept as given. |
| Calendar.MakeDate | KaneTracker/kanetracker/src/app/analytics/analytics.component.ts:436 | `new Date(y, m, d)` denotes day d of month index `12 * y + m`, at the given time of day, for every year outside 0-99: the callers pass the current year and 2020. |
| Calendar.MakeDateCivil | KaneTracker/kanetracker/src/app/analytics/analytics.component.ts:436 | For an existing day, `new Date(y, m, d)` has that month and that day. |
| Calendar.MonthsBack | KaneTracker/kanetracker/src/app/dashboard/dashboard.component.ts:101-118 | `new Date(y, now.getMonth() - n, day)` falls on that day of the month n months before now's, at 00:00. |
| Calendar.AtTimeOfDay | KaneTracker/kanetracker/src/app/analytics/analytics.component.ts:441-442 | `setHours` keeps the calendar day and sets only the time of day. |
| Calendar.StartOfDay | KaneTracker/kanetracker/src/app/analytics/analytics.component.ts:442 | `setHours(0, 0, 0, 0)` gives the first instant of the same day. |
| Calendar.EndOfDay | KaneTracker/kanetracker/src/app/analytics/analytics.component.ts:441 | `setHours(23, 59, 59, 999)` gives the last millisecond of the same day. |
| Calendar.EpochIsZero | KaneTracker/kanetracker/src/app/models/transaction.interface.ts:5 | 1970-01-01 at 00:00 has time 0. |
| Records.OfKind | KaneTracker/kanetracker/src/app/analytics/analytics.component.ts:529 | Keeps exactly the transactions of the given type, in their original order. |
| Records.Between | KaneTracker/kanetracker/src/app/dashboard/dashboard.component.ts:121-124 | Keeps exactly the transactions dated between the bounds (both included), in their original order. |
| Records.TotalConcat | KaneTracker/kanetracker/src/app/analytics/analytics.component.ts:519-524 | The typed total of two lists joined is the sum of their totals. |
| Records.TotalOfOne | KaneTracker/kanetracker/src/app/analytics/analytics.component.ts:519-524 | One transaction contributes its amount to its own type's total and nothing to the other. |
| Records.TotalsPartition | KaneTracker/kanetracker/src/app/analytics/analytics.component.ts:518-525 | Income total plus expense total is the sum of all amounts. |
| Records.TotalSorted | KaneTracker/kanetracker/src/app/dashboard/dashboard.component.ts:63-68 | Sorting the transactions by any key leaves both totals unchanged. |
| Seqs.Filter | KaneTracker/kanetracker/src/app/analytics/analytics.component.ts:463-467 | Every element kept satisfies the predicate, every element that satisfies it is kept, and the result is no longer than the input. |
| Seqs.FilterIsSubsequence | KaneTracker/kanetracker/src/app/analytics/analytics.component.ts:463-467 | A filter keeps the original order. |
| Seqs.FilterCongruent | KaneTracker/kanetracker/src/app/analytics/analytics.component.ts:463-467 | Filters by predicates that agree on every element give the same result. |
| Seqs.FilterConcat | KaneTracker/kanetracker/src/app/dashboard/dashboard.component.ts:147-148 | Filtering two lists joined gives the two filtered lists joined. |
| Seqs.SumConcat | KaneTracker/kanetracker/src/app/dashboard/dashboard.component.ts:74-80 | The `reduce` sum of two lists joined is the sum of their sums. |
| Seqs.InsertDesc | KaneTracker/kanetracker/src/app/dashboard/dashboard.component.ts:160 | Inserting into a descending list keeps it descending and adds exactly the inserted element. |
| Seqs.SortDesc | KaneTracker/kanetracker/src/app/dashboard/dashboard.component.ts:160 | `sort((a, b) => b.amount - a.amount)` gives a descending permutation of its input. |
| Seqs.SumSort | KaneTracker/kanetracker/src/app/dashboard/dashboard.component.ts:63-64 | Sorting does not change any sum over the list. |
| Seqs.SumFilter | KaneTracker/kanetracker/src/app/dashboard/dashboard.component.ts:78-80 | Summing the filtered list equals summing the whole list with the dropped elements counted as 0. |
| Seqs.SortDescStable | KaneTracker/kanetracker/src/app/dashboard/dashboard.component.ts:64 | The sort is stable: elements with equal keys keep their input order. |
| Seqs.Take | KaneTracker/kanetracker/src/app/dashboard/dashboard.component.ts:65 | `slice(0, n)` is the prefix of length `min(n, length)`. |
| Seqs.TakeKeepsLargest | KaneTracker/kanetracker/src/app/dashboard/dashboard.component.ts:160-161 | The first n of a descending list stay descending, and nothing cut off is larger than anything kept. |
| Seqs.MapSeq | KaneTracker/kanetracker/src/app/dashboard/dashboard.component.ts:154-159 | `map` keeps the length and applies the function at every position. |
| Seqs.MapSorted | KaneTracker/kanetracker/src/app/dashboard/dashboard.component.ts:154-160 | A map that keeps the sort key keeps a descending list descending. |
| Seqs.SortMapCommute | KaneTracker/kanetracker/src/app/dashboard/dashboard.component.ts:153-160 | Mapping then sorting equals sorting then mapping, when the map keeps the sort key. |
| Seqs.TakeMapCommute | KaneTracker/kanetracker/src/app/dashboard/dashboard.component.ts:154-161 | Mapping then slicing equals slicing then mapping. |
| Seqs.FindFirst | KaneTracker/kanetracker/src/app/transactions/transactions.component.ts:34 | Returns the first index whose element satisfies the predicate, or none exactly when no element does. |
| Ranking.Names | KaneTracker/kanetracker/src/app/dashboard/dashboard.component.ts:153 | The keys of the totals, one per entry, in entry order. |
| Ranking.AddTo | KaneTracker/kanetracker/src/app/dashboard/dashboard.component.ts:150 | A new name is appended and an existing one keeps its place; only that name's amount changes; the sum grows by the amount. |
| Ranking.FirstSeenProperties | KaneTracker/kanetracker/src/app/dashboard/dashboard.component.ts:153 | The keys have no duplicates and are exactly the names that occur. |
| Ranking.Totals | KaneTracker/kanetracker/src/app/analytics/analytics.component.ts:530-533 | The keys come in first-seen order; each name's amount is the sum of its transactions; all entries add up to the sum of all amounts. |
| Ranking.ExpenseTotalsSpec | KaneTracker/kanetracker/src/app/analytics/analytics.component.ts:529-533 | The names are distinct and are exactly the categories of the expenses; each amount is that category's expense sum; the entries add up to the expense total. |
| Ranking.SortKeepsDistinct | KaneTracker/kanetracker/src/app/analytics/analytics.component.ts:538-539 | Sorting entries with distinct names keeps the names distinct. |
| Ranking.RankedSpec | KaneTracker/kanetracker/src/app/analytics/analytics.component.ts:538-539 | The ranked entries are a descending, stable permutation of the totals, with distinct names. |
| Ranking.TopOfSorted | KaneTracker/kanetracker/src/app/analytics/analytics.component.ts:538-540 | The first n of a descending permutation are drawn from the input, and no entry left out is larger than any kept. |
| Ranking.RankedTop | KaneTracker/kanetracker/src/app/analytics/analytics.component.ts:529-540 | The top n are at most n expense categories, largest first, each with its summed amount, with no name twice, and none left out is larger than one kept. |
| Ranking.EntryNamesSeen | KaneTracker/kanetracker/src/app/analytics/analytics.component.ts:530-533 | Every entry is named after the category of some expense. |
| Colors.CategoryColor | KaneTracker/kanetracker/src/app/transactions/transactions.component.ts:33-36 | Gives the colour of the first category with that name, or `'#e0e0e0'` when there is none or its colour is empty; never empty. |
| Colors.ColorRecordSpec | KaneTracker/kanetracker/src/app/analytics/analytics.component.ts:534-537 | The colour record has a key exactly for each category name, holding the colour of the last category with that name. |
| Colors.RecordColorAgrees | KaneTracker/kanetracker/src/app/analytics/analytics.component.ts:534-545 | When no two categories share a name, the pie chart's record colour equals the first-match colour. |
| Colors.DigitValue | KaneTracker/kanetracker/src/app/transactions/transactions.component.ts:40 | A hexadecimal digit's value is below 16. |
| Colors.Slice | KaneTracker/kanetracker/src/app/transactions/transactions.component.ts:40-42 | `slice(a, b)` within bounds is that substring; when a is at or past the end it is empty. |
| Colors.TrimStart | KaneTracker/kanetracker/src/app/transactions/transactions.component.ts:40 | Drops exactly the leading white space and line terminators that `parseInt` skips, including every Unicode space separator. |
| Colors.HexPrefix | KaneTracker/kanetracker/src/app/transactions/transactions.component.ts:40 | The longest run of hexadecimal digits at the start. |
| Colors.ParseHexDigits | KaneTracker/kanetracker/src/app/transactions/transactions.component.ts:40-42 | `parseInt(s, 16)` of a non-empty digit string is its base-16 value. |
| Colors.ParseHexNaN | KaneTracker/kanetracker/src/app/transactions/transactions.component.ts:40-42 | A string that is empty, or starts with anything other than a digit, a sign, white space or a line terminator, parses to NaN. |
| Colors.SpaceSeparatorSkipped | KaneTracker/kanetracker/src/app/transactions/transactions.component.ts:40 | A leading Unicode space separator (U+3000) before a digit is skipped, so the pair `slice(1, 3)` takes from `#`, U+3000, `f0000` parses to 15. |
| Colors.WhiteSpaceSkipped | KaneTracker/kanetracker/src/app/transactions/transactions.component.ts:40 | A leading white-space character does not change what `parseInt` reads. |
| Colors.HexPairValue | KaneTracker/kanetracker/src/app/transactions/transactions.component.ts:40 | Two hexadecimal digits parse to `16 * high + low`. |
| Colors.PairValue | KaneTracker/kanetracker/src/app/transactions/transactions.component.ts:40-42 | The value of a digit pair is a byte, below 256. |
| Colors.HexToRgbaOfHexColor | KaneTracker/kanetracker/src/app/transactions/transactions.component.ts:39-44 | For a `#RRGGBB` colour the three components are the byte values of digit pairs 1-2, 3-4 and 5-6, and the opacity is passed through. |
| Colors.HexToRgbaOfEmpty | KaneTracker/kanetracker/src/app/dashboard/dashboard.component.ts:175-180 | An empty string or a lone `#` gives NaN for all three components. |
| Colors.EncodeByte | KaneTracker/kanetracker/src/app/transactions/transactions.component.ts:40-42 | Two hexadecimal digits whose pair value is the byte. |
| Colors.EncodeHex | KaneTracker/kanetracker/src/app/transactions/transactions.component.ts:40-42 | Three bytes written as a valid `#rrggbb` colour, one digit pair per byte. |
| Colors.DecodeEncode | KaneTracker/kanetracker/src/app/transactions/transactions.component.ts:39-44 | Round trip: `hexToRgba` of the encoded colour gives back r, g and b. |
| Colors.EncodeDecode | KaneTracker/kanetracker/src/app/transactions/transactions.component.ts:39-44 | Round trip the other way: re-encoding a colour's decoded bytes gives the colour back, in lower case. |
| Colors.EncodePair | KaneTracker/kanetracker/src/app/transactions/transactions.component.ts:40 | Encoding the value of a digit pair gives the pair in lower case. |
| Store.WithoutTransaction | KaneTracker/kanetracker/src/app/services/dexie.service.ts:37-39 | Deleting by id keeps every record with another id, in order, and no record with that id. |
| Store.WithoutCategory | KaneTracker/kanetracker/src/app/categorymanagement/categorymanagement.component.ts:105 | Deleting a category by id keeps every other category, in order, and none with that id. |
| Store.UsageCount | KaneTracker/kanetracker/src/app/categorymanagement/categorymanagement.component.ts:82 | The count is 0 exactly when no transaction is filed under the name, and never more than the number of transactions. |
| Store.RecordStore.constructor | KaneTracker/kanetracker/src/app/services/dexie.service.ts:29-31 | The store holds the given tables. |
| Store.RecordStore.DeleteTransaction | KaneTracker/kanetracker/src/app/services/dexie.service.ts:37-39 | Removes the records with that id and leaves the categories alone. |
| Store.RecordStore.DeleteCategory | KaneTracker/kanetracker/src/app/categorymanagement/categorymanagement.component.ts:105 | Removes the categories with that id and leaves the transactions alone. |
| Store.RecordStore.CategoryUsageCount | KaneTracker/kanetracker/src/app/categorymanagement/categorymanagement.component.ts:82 | Returns the number of stored transactions filed under the name. |
| Transactions.TransactionsComponent.constructor | KaneTracker/kanetracker/src/app/transactions/transactions.component.ts:19-20 | Both lists start empty. |
| Transactions.TransactionsComponent.LoadData | KaneTracker/kanetracker/src/app/transactions/transactions.component.ts:28-31 | Both lists become the store's tables. |
| Transactions.TransactionsComponent.GetCategoryColor | KaneTracker/kanetracker/src/app/transactions/transactions.component.ts:33-36 | Gives the colour of the first loaded category with that name, else `'#e0e0e0'`; never empty. |
| Transactions.TransactionsComponent.DeleteTransaction | KaneTracker/kanetracker/src/app/transactions/transactions.component.ts:46-53 | Without an id, or without confirmation, nothing changes. Otherwise exactly that record leaves the store and both lists are reloaded. |
| CategoryManagement.OfCategoryKind | KaneTracker/kanetracker/src/app/categorymanagement/categorymanagement.component.ts:77-78 | Keeps exactly the categories of that type, in their original order. |
| CategoryManagement.SplitCounts | KaneTracker/kanetracker/src/app/categorymanagement/categorymanagement.component.ts:76-78 | The income list, the expense list and the untyped categories together count the whole table once. |
| CategoryManagement.RecordUsageSpec | KaneTracker/kanetracker/src/app/categorymanagement/categorymanagement.component.ts:81-83 | After the loop, a name has an entry exactly when it had one before or is a category's name. Every visited name holds its store count; every other name keeps its old entry. |
| CategoryManagement.RecordUsageStep | KaneTracker/kanetracker/src/app/categorymanagement/categorymanagement.component.ts:82 | One more iteration writes the visited category's count under its name. |
| CategoryManagement.RecordUsageAll | KaneTracker/kanetracker/src/app/categorymanagement/categorymanagement.component.ts:81-83 | Every category's name ends up holding its count, and the record's names are the old ones plus the visited ones. |
| CategoryManagement.CategoryManagementComponent.constructor | KaneTracker/kanetracker/src/app/categorymanagement/categorymanagement.component.ts:61-63 | Both lists and the usage record start empty. |
| CategoryManagement.CategoryManagementComponent.GetCategoryUsage | KaneTracker/kanetracker/src/app/categorymanagement/categorymanagement.component.ts:86-88 | Gives the recorded count, or 0 for a name with no entry. |
| CategoryManagement.CategoryManagementComponent.LoadCategories | KaneTracker/kanetracker/src/app/categorymanagement/categorymanagement.component.ts:75-84 | The two lists are the typed categories. The usage record is the old one with every stored category's count written in, so each category's usage is its transaction count, and entries of other names stay. |
| CategoryManagement.CategoryManagementComponent.DeleteCategory | KaneTracker/kanetracker/src/app/categorymanagement/categorymanagement.component.ts:90-116 | A category in use is never deleted and nothing changes. The store changes only after confirmation, with an id, when the delete does not throw; then the category is removed and the lists and usage are rebuilt from the store. Transactions are never touched. |
| CategoryManagement.DisabledExactlyWhenUsed | KaneTracker/kanetracker/src/app/categorymanagement/categorymanagement.component.ts:26-27 | After loading, a category's delete button is disabled exactly when some transaction is filed under its name. |
| CategoryDialog.InitialForm | KaneTracker/kanetracker/src/app/category-dialog/category-dialog.component.ts:128-135 | With no category the form is `''`, `'expense'`, `'#2196F3'`. Otherwise each field comes from the category, and a missing type or empty colour falls back to its default. |
| CategoryDialog.PaletteValid | KaneTracker/kanetracker/src/app/category-dialog/category-dialog.component.ts:108-113 | The default colour and all twenty palette colours satisfy the `^#[0-9A-Fa-f]{6}$` rule. |
| CategoryDialog.NewFormNeedsName | KaneTracker/kanetracker/src/app/category-dialog/category-dialog.component.ts:132-134 | A new category's form is invalid until a name is entered, and with the defaults it is valid exactly when the name is non-empty and at most 30 characters. |
| CategoryDialog.EditFormValid | KaneTracker/kanetracker/src/app/category-dialog/category-dialog.component.ts:131-134 | An edited category's form starts valid exactly when its name is valid and its colour is valid or empty. |
| CategoryDialog.SaveDecision | KaneTracker/kanetracker/src/app/category-dialog/category-dialog.component.ts:152-163 | Nothing happens exactly when the form is invalid. An update happens exactly in edit mode with a category that has an id, and it carries that id and the form. Every other case adds the form. |
| CategoryDialog.CategoryDialogComponent.constructor | KaneTracker/kanetracker/src/app/category-dialog/category-dialog.component.ts:115-126 | Once opened, edit mode holds exactly when a category was passed in, and the form and swatch hold the initial values. |
| CategoryDialog.CategoryDialogComponent.OnInit | KaneTracker/kanetracker/src/app/category-dialog/category-dialog.component.ts:123-126 | Edit mode holds exactly when a category was passed in, and the form is initialised. |
| CategoryDialog.CategoryDialogComponent.InitializeForm | KaneTracker/kanetracker/src/app/category-dialog/category-dialog.component.ts:128-138 | The form takes the initial values. The swatch takes the category's colour, or `'#2196F3'` when it is absent or empty. |
| CategoryDialog.CategoryDialogComponent.SelectColor | KaneTracker/kanetracker/src/app/category-dialog/category-dialog.component.ts:140-143 | The swatch and the form's colour both take the colour, and nothing else in the form changes. |
| CategoryDialog.CategoryDialogComponent.OnColorInput | KaneTracker/kanetracker/src/app/category-dialog/category-dialog.component.ts:145-150 | Typing into the colour field (bound by `formControlName="color"`, lines 83-84) makes the typed text the form's colour, valid or not. The swatch moves to it exactly when it passes the colour rule; otherwise it stays. |
| CategoryDialog.CategoryDialogComponent.SaveCategory | KaneTracker/kanetracker/src/app/category-dialog/category-dialog.component.ts:152-170 | Takes the save decision for the current form, and an update always targets the edited category's id. |
| CategoryDialog.TypedColorSaved | KaneTracker/kanetracker/src/app/category-dialog/category-dialog.component.ts:145-163 | With a valid name, a form whose colour was typed saves exactly when the typed text passes the colour rule, and then saves that text. |
| CategoryDialog.SaveAfterOpen | KaneTracker/kanetracker/src/app/category-dialog/category-dialog.component.ts:124-161 | Right after opening with a valid form, saving updates exactly when an existing category with an id is edited, and adds otherwise. |
| Dashboard.AvailablePeriodsDistinct | KaneTracker/kanetracker/src/app/dashboard/dashboard.component.ts:26-32 | No two periods share a value, and every caption is non-empty. |
| Dashboard.PeriodLabel | KaneTracker/kanetracker/src/app/dashboard/dashboard.component.ts:166 | A known period gives its own caption; any other value gives `'This Month'`. |
| Dashboard.PeriodBoundsAsWritten | KaneTracker/kanetracker/src/app/dashboard/dashboard.component.ts:94-119 | The two month periods end at day 0 of the following month, at 00:00. Every other period, including an unknown key, ends at now. |
| Dashboard.PeriodBounds | KaneTracker/kanetracker/src/app/dashboard/dashboard.component.ts:94-119 | The starts are as written. The two month periods end at the end of their last day; the others end at now. |
| Dashboard.FilterByPeriod | KaneTracker/kanetracker/src/app/dashboard/dashboard.component.ts:121-124 | Keeps exactly the transactions dated within the period's bounds, both included, in order. Uses the corrected period bounds (see Findings). |
| Dashboard.MonthFirstInstant | KaneTracker/kanetracker/src/app/dashboard/dashboard.component.ts:101 | `new Date(y, m - n, 1)` is the first instant of that month. |
| Dashboard.MonthLastInstant | KaneTracker/kanetracker/src/app/dashboard/dashboard.component.ts:102 | Day 0 of a month, at end of day, is the instant before that month begins. |
| Dashboard.MonthPeriodsExact | KaneTracker/kanetracker/src/app/dashboard/dashboard.component.ts:99-107 | With the corrected bounds, `currentMonth` admits a date exactly when it is in this month, and `lastMonth` exactly when it is in the previous month, at any time of day. |
| Dashboard.CurrentMonthExact | KaneTracker/kanetracker/src/app/dashboard/dashboard.component.ts:100-103 | The corrected `currentMonth` admits a date exactly when it falls in this month. |
| Dashboard.CurrentMonthEdges | KaneTracker/kanetracker/src/app/dashboard/dashboard.component.ts:101-102 | The corrected `currentMonth` runs from this month's first instant to its last. |
| Dashboard.LastMonthExact | KaneTracker/kanetracker/src/app/dashboard/dashboard.component.ts:104-107 | The corrected `lastMonth` admits a date exactly when it falls in the previous month. |
| Dashboard.LastMonthEdges | KaneTracker/kanetracker/src/app/dashboard/dashboard.component.ts:105-106 | The corrected `lastMonth` runs from the previous month's first instant to its last. |
| Dashboard.InMonthBetween | KaneTracker/kanetracker/src/app/dashboard/dashboard.component.ts:121-124 | A date is in month k exactly when it lies between that month's first and last instants. |
| Dashboard.LastDayDroppedAsWritten | KaneTracker/kanetracker/src/app/dashboard/dashboard.component.ts:102 | As written, a transaction on this month's last day after 00:00 falls outside `currentMonth`. The corrected filter keeps it. |
| Dashboard.LastDayAfterMidnight | KaneTracker/kanetracker/src/app/dashboard/dashboard.component.ts:102 | As written, `currentMonth` ends before any instant of its last day after 00:00. |
| Dashboard.AsWrittenMonthEnd | KaneTracker/kanetracker/src/app/dashboard/dashboard.component.ts:102 | As written, `currentMonth` ends at 00:00 of the month's last day. |
| Dashboard.OtherPeriodsEndNow | KaneTracker/kanetracker/src/app/dashboard/dashboard.component.ts:117-118 | An unknown period runs from the first of this month to now. |
| Dashboard.RecentSpec | KaneTracker/kanetracker/src/app/dashboard/dashboard.component.ts:62-65 | Five transactions (fewer only when there are fewer), newest first, drawn from the period. None left out is newer than one kept, and transactions of equal time keep their order. |
| Dashboard.RecentOrdered | KaneTracker/kanetracker/src/app/dashboard/dashboard.component.ts:63-64 | The recent list is ordered newest first. |
| Dashboard.RecentDrawn | KaneTracker/kanetracker/src/app/dashboard/dashboard.component.ts:62-65 | Every recent transaction is one of the period's. |
| Dashboard.RecentNewest | KaneTracker/kanetracker/src/app/dashboard/dashboard.component.ts:64-65 | A transaction left out of the recent list is no newer than any that is in it. |
| Dashboard.Share | KaneTracker/kanetracker/src/app/dashboard/dashboard.component.ts:158 | With a positive total the share is amount / total × 100; otherwise it is 0, so there is no division by zero. |
| Dashboard.TopThreeSpec | KaneTracker/kanetracker/src/app/dashboard/dashboard.component.ts:144-162 | At most three expense categories, largest first, each with its summed amount, first-match colour and share. Every percentage is 0 when total expenses are not positive. |
| Dashboard.SharedRows | KaneTracker/kanetracker/src/app/dashboard/dashboard.component.ts:153-160 | Adding colour and share to sorted totals keeps them sorted, and each row keeps its category's amount. |
| Dashboard.TopThreeRanked | KaneTracker/kanetracker/src/app/dashboard/dashboard.component.ts:153-161 | The map, sort and slice chain equals the first three ranked totals, with colour and share added. |
| Dashboard.ShareAdd | KaneTracker/kanetracker/src/app/dashboard/dashboard.component.ts:158 | Shares of the same total add like the amounts. |
| Dashboard.SumOfShares | KaneTracker/kanetracker/src/app/dashboard/dashboard.component.ts:153-159 | The shares of a list of totals add up to the share of their sum. |
| Dashboard.SharesAddUp | KaneTracker/kanetracker/src/app/dashboard/dashboard.component.ts:153-159 | When there are expenses, the percentages of all expense categories add up to 100. |
| Dashboard.TrendChange | KaneTracker/kanetracker/src/app/dashboard/dashboard.component.ts:134-137 | The percentage is the size of the change relative to last month, and the direction is "more" exactly when this month's expenses are at least last month's. |
| Dashboard.TotalsStep | KaneTracker/kanetracker/src/app/dashboard/dashboard.component.ts:147-151 | One more transaction adds its amount to its category only when it is an expense. |
| Dashboard.OfKindPrefixStep | KaneTracker/kanetracker/src/app/dashboard/dashboard.component.ts:148 | One more transaction joins the filtered prefix exactly when it has the type. |
| Dashboard.AccumulateExpenses | KaneTracker/kanetracker/src/app/dashboard/dashboard.component.ts:145-151 | The `forEach` builds exactly the per-category expense totals. |
| Dashboard.DashboardComponent.constructor | KaneTracker/kanetracker/src/app/dashboard/dashboard.component.ts:19-43 | The initial state: zero totals, empty lists, `currentMonth` selected with label `'This Month'`, no trend message. |
| Dashboard.DashboardComponent.CalculatePeriodStats | KaneTracker/kanetracker/src/app/dashboard/dashboard.component.ts:71-88 | The totals are the selected period's income and expenses, and the balance is their difference. The monthly stats mirror them under the current label. Nothing else changes. Uses the corrected period bounds (see Findings). |
| Dashboard.DashboardComponent.CalculateTrendComparison | KaneTracker/kanetracker/src/app/dashboard/dashboard.component.ts:127-142 | Any period other than `currentMonth` clears the message. For `currentMonth`, the change is computed only when last month had expenses; otherwise the message stays. Uses the corrected period bounds (see Findings). |
| Dashboard.DashboardComponent.CalculateTopCategories | KaneTracker/kanetracker/src/app/dashboard/dashboard.component.ts:144-162 | The top list is the first three of the per-category expense totals, with colours and shares of the current total expenses. |
| Dashboard.DashboardComponent.LoadDashboardData | KaneTracker/kanetracker/src/app/dashboard/dashboard.component.ts:51-69 | The period's totals and trend; its five newest transactions; its top list computed from the sorted transactions. Uses the corrected period bounds (see Findings). |
| Dashboard.DashboardComponent.OnPeriodChange | KaneTracker/kanetracker/src/app/dashboard/dashboard.component.ts:164-168 | The period and its label, falling back to `'This Month'`, then the whole dashboard reloaded for that period. Uses the corrected period bounds (see Findings). |
| Dashboard.DashboardComponent.SavingsRate | KaneTracker/kanetracker/src/app/dashboard/dashboard.component.ts:182-184 | With no positive income the rate is 0. Otherwise it is the unspent part of income, as a percentage of income. |
| Dashboard.DashboardComponent.TopCategoryColor | KaneTracker/kanetracker/src/app/dashboard/dashboard.component.ts:170-173 | Gives the colour of the first top-list entry with that name, else `'#e0e0e0'`. |
| Dashboard.LoadedTopSpec | KaneTracker/kanetracker/src/app/dashboard/dashboard.component.ts:63-68 | Sorting the period in place leaves its expense total unchanged, and the loaded top categories' shares add up to 100. |
| Analytics.PresetOf | KaneTracker/kanetracker/src/app/analytics/analytics.component.ts:417-439 | The five preset keys are recognised and nothing else is. |
| Analytics.YearBack | KaneTracker/kanetracker/src/app/analytics/analytics.component.ts:433 | Gives today's day of the month, twelve months back, normalised. |
| Analytics.PresetRange | KaneTracker/kanetracker/src/app/analytics/analytics.component.ts:417-442 | Every preset starts at 00:00:00.000 and ends at 23:59:59.999. Every preset but `lastMonth` ends today. |
| Analytics.Last7DaysStart | KaneTracker/kanetracker/src/app/analytics/analytics.component.ts:419-421 | `last7Days` starts six days before today. |
| Analytics.LastMonthBounds | KaneTracker/kanetracker/src/app/analytics/analytics.component.ts:424-425 | `lastMonth` runs from the first of the previous month to the day before the first of this month. |
| Analytics.Last3MonthsStart | KaneTracker/kanetracker/src/app/analytics/analytics.component.ts:429 | `last3Months` starts on today's day of the month, three months back. |
| Analytics.LastYearStart | KaneTracker/kanetracker/src/app/analytics/analytics.component.ts:433 | `lastYear` starts on today's date one year back. |
| Analytics.AllTimeStart | KaneTracker/kanetracker/src/app/analytics/analytics.component.ts:436 | `allTime` starts on 2020-01-01 at 00:00. |
| Analytics.PresetCalendar | KaneTracker/kanetracker/src/app/analytics/analytics.component.ts:418-442 | `lastMonth` covers the first through the last day of the previous month and ends the instant before this month. `last7Days` spans seven whole days. |
| Analytics.LastMonthCivil | KaneTracker/kanetracker/src/app/analytics/analytics.component.ts:424-442 | `lastMonth` starts on day 1 and ends on the last day of the previous month. |
| Analytics.Last7DaysSpan | KaneTracker/kanetracker/src/app/analytics/analytics.component.ts:418-442 | `last7Days` spans seven days less a millisecond. |
| Analytics.PresetOrdered | KaneTracker/kanetracker/src/app/analytics/analytics.component.ts:417-442 | Every preset's start is no later than its end; for `allTime` this needs a date in 2020 or later. |
| Analytics.FilterByRange | KaneTracker/kanetracker/src/app/analytics/analytics.component.ts:461-468 | A missing bound returns the input unchanged. Otherwise it keeps exactly the transactions dated within the bounds, both included, in order. |
| Analytics.CeilDiv | KaneTracker/kanetracker/src/app/analytics/analytics.component.ts:451 | `Math.ceil(x / d)` is the least whole number of days that covers x. |
| Analytics.DateRangeDaysAsWritten | KaneTracker/kanetracker/src/app/analytics/analytics.component.ts:448-452 | 0 without both bounds, otherwise at least 1. |
| Analytics.DateRangeDays | KaneTracker/kanetracker/src/app/analytics/analytics.component.ts:448-452 | 0 without both bounds, otherwise at least 1: the calendar days spanned. |
| Analytics.DayCountOfLast7Days | KaneTracker/kanetracker/src/app/analytics/analytics.component.ts:448-452 | For `last7Days` the count as written is 8, and the corrected count is 7. |
| Analytics.DayCountsAgreeAtMidnight | KaneTracker/kanetracker/src/app/analytics/analytics.component.ts:448-452 | For bounds at 00:00, as the date picker gives, the two counts agree. |
| Analytics.DayCountOfLastMonth | KaneTracker/kanetracker/src/app/analytics/analytics.component.ts:448-452 | The corrected count of `lastMonth` is the number of days in that month. |
| Analytics.PieSlicesSpec | KaneTracker/kanetracker/src/app/analytics/analytics.component.ts:528-550 | At most eight expense categories, largest first, each with its summed amount and the colour of the last category with that name. |
| Analytics.ColouredRows | KaneTracker/kanetracker/src/app/analytics/analytics.component.ts:649-654 | Adding a colour to sorted totals keeps them sorted, and each row keeps its amount and gets its colour. |
| Analytics.TopCategoriesSpec | KaneTracker/kanetracker/src/app/analytics/analytics.component.ts:643-657 | At most five expense categories, largest first, each with its summed amount and first-match colour; equal to colouring the first five ranked totals. |
| Analytics.TopCategoriesRanked | KaneTracker/kanetracker/src/app/analytics/analytics.component.ts:649-656 | Mapping, sorting and slicing equals colouring the first five ranked totals. |
| Analytics.TrendChartSpec | KaneTracker/kanetracker/src/app/analytics/analytics.component.ts:552-591 | One bucket per month from the start's month to the end's, in order, with no gaps. The buckets of the range's transactions add up to their income and expense totals. |
| Analytics.TrendChartKeys | KaneTracker/kanetracker/src/app/analytics/analytics.component.ts:554-567 | Bucket i is labelled with the i-th month after the start's. |
| Analytics.TrendChartSum | KaneTracker/kanetracker/src/app/analytics/analytics.component.ts:555-566 | Each transaction of the range is counted once, so the buckets add up to the totals. |
| Analytics.RangeMonths | KaneTracker/kanetracker/src/app/analytics/analytics.component.ts:470-479 | Every transaction of the range falls in one of the chart's months. |
| Analytics.WindowStart | KaneTracker/kanetracker/src/app/analytics/analytics.component.ts:596-599 | The window starts no earlier than the range, and no more than five months before the end's month. It is the range start or the first of that month. |
| Analytics.WindowAtMostSix | KaneTracker/kanetracker/src/app/analytics/analytics.component.ts:596-606 | The comparison covers at most six months and nothing before the range. |
| Analytics.ComparisonBucketsAsWritten | KaneTracker/kanetracker/src/app/analytics/analytics.component.ts:600-618 | The two loops compute the chart keyed by month name only. |
| Analytics.NameLabelsMixYears | KaneTracker/kanetracker/src/app/analytics/analytics.component.ts:603-611 | An expense from a year before the window's last month lies before the window. As written, it is still added to that month's bar; with year-and-month labels it is not. |
| Analytics.LastBarOfSix | KaneTracker/kanetracker/src/app/analytics/analytics.component.ts:603-611 | A transaction twelve months before the sixth bar shares that bar's name label but not its year-and-month label. |
| Analytics.LastYearAdmits | KaneTracker/kanetracker/src/app/analytics/analytics.component.ts:432-433 | The `lastYear` range holds a transaction from the month a year back, dated on or after today's day of the month. |
| Analytics.ComparisonChartSpec | KaneTracker/kanetracker/src/app/analytics/analytics.component.ts:593-621 | For the range-filtered transactions the component passes, the corrected comparison has at most six bars. Its bars add up to the totals of the transactions dated from the window's start to the end, so those before the window are in no bar. |
| Analytics.ComparisonChartOfRange | KaneTracker/kanetracker/src/app/analytics/analytics.component.ts:593-621 | For every transaction table and every range with both bounds, the corrected comparison over the range's transactions adds up to the totals of those dated from the window's start to the range's end. |
| Analytics.WindowFilter | KaneTracker/kanetracker/src/app/analytics/analytics.component.ts:595-611 | Within the range, being in one of the window's months is being dated from the window's start to the end. |
| Analytics.WindowMember | KaneTracker/kanetracker/src/app/analytics/analytics.component.ts:595-611 | For one transaction of the range: it is on or after the window's start exactly when its month is one of the window's. |
| Analytics.Visibility.Toggle | KaneTracker/kanetracker/src/app/analytics/analytics.component.ts:455 | Flips the named chart's flag and leaves the others alone. |
| Analytics.AnalyticsComponent.constructor | KaneTracker/kanetracker/src/app/analytics/analytics.component.ts:249-268 | Zero totals, empty lists and charts, no range, every chart hidden. |
| Analytics.AnalyticsComponent.CalculateSummaryStats | KaneTracker/kanetracker/src/app/analytics/analytics.component.ts:518-526 | The totals are the income and expense sums, and the net balance is their difference. Nothing else changes. |
| Analytics.AnalyticsComponent.LoadSummaryData | KaneTracker/kanetracker/src/app/analytics/analytics.component.ts:481-489 | The totals are those of the transactions in the current range. |
| Analytics.AnalyticsComponent.SetDateRange | KaneTracker/kanetracker/src/app/analytics/analytics.component.ts:413-446 | An unknown key changes nothing. A preset selects its range and reloads the totals for it. |
| Analytics.AnalyticsComponent.OnInit | KaneTracker/kanetracker/src/app/analytics/analytics.component.ts:334-337 | The screen opens on the `lastMonth` range, with its totals. |
| Analytics.AnalyticsComponent.OnRangeFormChange | KaneTracker/kanetracker/src/app/analytics/analytics.component.ts:341-345 | A picked range with both ends replaces the current one and reloads the totals; an incomplete one changes nothing. |
| Analytics.AnalyticsComponent.GenerateCategoryChart | KaneTracker/kanetracker/src/app/analytics/analytics.component.ts:528-550 | The pie chart becomes the top eight slices; nothing else changes. |
| Analytics.AnalyticsComponent.GenerateMonthlyTrendsChart | KaneTracker/kanetracker/src/app/analytics/analytics.component.ts:552-591 | Without both bounds nothing changes. Otherwise the line chart becomes the month series of the range. |
| Analytics.AnalyticsComponent.GenerateIncomeVsExpensesChart | KaneTracker/kanetracker/src/app/analytics/analytics.component.ts:593-641 | Without both bounds nothing changes. Otherwise the bar chart becomes the corrected comparison over at most the last six months. |
| Analytics.AnalyticsComponent.CalculateTopCategories | KaneTracker/kanetracker/src/app/analytics/analytics.component.ts:643-657 | The top list becomes the top five with colours; nothing else changes. |
| Analytics.AnalyticsComponent.GenerateSpecificChart | KaneTracker/kanetracker/src/app/analytics/analytics.component.ts:491-516 | Builds exactly the named chart from the transactions of the current range and leaves the other charts and the totals alone. The comparison chart is built in its corrected form (see Findings). |
| Analytics.AnalyticsComponent.ToggleChart | KaneTracker/kanetracker/src/app/analytics/analytics.component.ts:454-459 | Flips the chart's visibility. The chart is rebuilt only when it becomes visible; hiding it changes no data. The comparison chart is built in its corrected form (see Findings). |
| Analytics.SummaryPartition | KaneTracker/kanetracker/src/app/analytics/analytics.component.ts:518-525 | The range's income plus its expenses is the sum of all its amounts. |
| Analytics.SummaryOfNothing | KaneTracker/kanetracker/src/app/analytics/analytics.component.ts:518-525 | With no transactions both totals are zero. |
| Buckets.KeyOfDate | KaneTracker/kanetracker/src/app/analytics/analytics.component.ts:557 | A date's label is the label of its month. |
| Buckets.KeyOfIndexInjective | KaneTracker/kanetracker/src/app/analytics/analytics.component.ts:474-603 | Year-and-month labels tell every two months apart. Name-only labels do so only for months less than a year apart. |
| Buckets.MapSet | KaneTracker/kanetracker/src/app/analytics/analytics.component.ts:475 | `Map.set` appends a new key; an existing key keeps its place and takes the new value. |
| Buckets.ZeroBuckets | KaneTracker/kanetracker/src/app/analytics/analytics.component.ts:475 | Gives n empty buckets labelled with consecutive months. |
| Buckets.ZeroBucketsDistinct | KaneTracker/kanetracker/src/app/analytics/analytics.component.ts:470-479 | The month loop's labels are distinct. |
| Buckets.ZeroBucketsGrow | KaneTracker/kanetracker/src/app/analytics/analytics.component.ts:602-605 | Setting the next month's label adds a bucket. With name-only labels, past twelve months the label is already present and nothing is added. |
| Buckets.FirstOfMonthAfter | KaneTracker/kanetracker/src/app/analytics/analytics.component.ts:473 | `current <= endDate` on the first of a month holds exactly when that month is not after the end's month. |
| Buckets.NextMonth | KaneTracker/kanetracker/src/app/analytics/analytics.component.ts:476 | `setMonth(getMonth() + 1)` on the first of a month gives the first of the next month. |
| Buckets.MonthsMap | KaneTracker/kanetracker/src/app/analytics/analytics.component.ts:470-479 | One empty bucket per month from the start's month to the end's, in order, with distinct labels (at most twelve when labelled by name). |
| Buckets.AddTransactions | KaneTracker/kanetracker/src/app/analytics/analytics.component.ts:555-566 | Each bucket has its label's income added to income. Every non-income amount with that label goes to expenses. Labels with no bucket are dropped. |
| Buckets.MonthSeries | KaneTracker/kanetracker/src/app/analytics/analytics.component.ts:554-566 | The month loop then the transaction loop give, for each month label, its income and expense sums. |
| Buckets.FilledSum | KaneTracker/kanetracker/src/app/analytics/analytics.component.ts:568-569 | The chart's income or expense values add up to the sum over the labelled months. |
| Buckets.LabelledSumStep | KaneTracker/kanetracker/src/app/analytics/analytics.component.ts:558-565 | Adding one transaction adds its amount once if its month is charted, and not at all otherwise. |
| Buckets.FilledConservation | KaneTracker/kanetracker/src/app/analytics/analytics.component.ts:552-569 | When every transaction falls in a charted month, the buckets add up to the totals. |
| Buckets.LabelledConservation | KaneTracker/kanetracker/src/app/analytics/analytics.component.ts:555-566 | When every transaction falls in the months, the labelled sums add up to the totals. |
| Buckets.LabelledWindow | KaneTracker/kanetracker/src/app/analytics/analytics.component.ts:555-566 | For any transactions, the per-month sums over a run of months are the totals of the transactions dated in those months. |
| Buckets.FilledWindow | KaneTracker/kanetracker/src/app/analytics/analytics.component.ts:552-569 | The year-and-month buckets of a run of months add up to the totals of the transactions dated in them, whatever else is passed. |
| Buckets.OutsideNotCounted | KaneTracker/kanetracker/src/app/analytics/analytics.component.ts:558-559 | A transaction whose month is not charted adds nothing to any year-and-month bucket. |

## Left out

- Time zones and daylight saving. Local time is one uniform timeline; `getTime()` is days times 86,400,000 plus the time of day.
- Month labels are the months they name. `toLocaleDateString` text and locale are not modelled. Neither is the `toLocaleString` month name in the dashboard's initial state, which is a constructor parameter.
- Chart.js configuration, colours of the datasets, captions and the `summaryStats` and `chartConfigs` getters: view text only.
- Dashboard.TrendChange: gives the percentage and direction, not the message text. `toFixed(0)` rounding and the string template are left out.
- Colors.HexToRgba: gives the four components, not the `rgba(...)` string. The opacity is an opaque real, with no number formatting.
- Amounts are exact reals. Floating-point rounding of sums, shares and the savings rate is not modelled; nor is a NaN amount in a comparator.
- Ranking.AddTo: category names that are keys of `Object.prototype` (`__proto__`, `constructor`, `toString`, ...) are not modelled. The source keeps its per-name records in plain `{}` objects, where such a name reads an inherited member and `__proto__` ignores a number written to it. The model treats every name as a fresh key, so `acc[name] || 0` starts at 0.
- Dashboard.AccumulateExpenses: the same `Object.prototype` names are not modelled; the source's sum for `constructor` would become a string.
- Colors.ColorRecordSpec: the same `Object.prototype` names are not modelled; in the source a category named `__proto__` gets no key in the colour record.
- CategoryManagement.RecordUsageSpec: the same `Object.prototype` names are not modelled; in the source `categoryUsage['__proto__'] = n` is lost.
- CategoryManagement.CategoryManagementComponent.GetCategoryUsage: the same `Object.prototype` names are not modelled; in the source the lookup for such a name gives an inherited member instead of the count.
- CategoryManagement.CategoryManagementComponent.DeleteCategory: the same `Object.prototype` names are not modelled; in the source a category named `__proto__` that is in use passes the usage guard and can be deleted.
- CategoryManagement.DisabledExactlyWhenUsed: the same `Object.prototype` names are not modelled; in the source the delete button of an in-use `__proto__` category is enabled.
- Ranking.Totals: entries come out in the order each name was first seen. JavaScript lists integer-like keys (a category named `2024`) first, in numeric order; that ordering is not modelled, nor are the `Object.prototype` names of the `Ranking.AddTo` line.
- Colors.Slice: takes positions as Dafny characters. JavaScript's `slice` counts UTF-16 code units, and the two differ only for colours holding characters outside the Basic Multilingual Plane.
- Calendar.MakeDate: `new Date(y, m, d)` reads a year from 0 to 99 as 1900 + y. The model takes the year as given; every caller passes the current year or 2020.
- CategoryDialog.NameValid: counts characters as Dafny characters. `maxLength` counts UTF-16 code units, and those differ only outside the Basic Multilingual Plane.
- `async`/`await`, `Promise.all` and their ordering are not modelled. Each component method runs to completion with the store's current tables as parameters. `setDateRange` does not await `loadSummaryData`, so a race between two loads is not captured.
- The rxjs pipeline on the range form: `debounceTime`, `distinctUntilChanged`, `patchValue` with `emitEvent: false`. Only the subscriber's body is modelled, as `OnRangeFormChange`.
- Snackbar messages, `console.error` and the dialog's `close`. The `confirm()` answer is the parameter `confirmed`. For the category delete, a throwing store call is the parameter `storeFails`, which leaves the store unchanged.
- The store calls `deleteCategory`, `getCategoryUsageCount`, `addCategory` and `updateCategory` are used by the components, but `services/dexie.service.ts` in this repository does not define them. `Store.RecordStore` gives the first two their evident meaning. The dialog's save returns its `SaveAction` instead of calling the last two.
- Dashboard.DashboardComponent: one `now` serves the whole load. The source calls `new Date()` separately for the period filter and for the trend comparison, so a load that straddles midnight at a month's end could mix two months; that is not modelled.
- The dashboard sorts `periodTransactions` in place. Here the sorted sequence is assigned back to the local, which captures that the top list sees the sorted order. That array is fresh from `filter`, so no other alias exists.
- UI flags `showDateRange`, `showPeriodSelector` and `isMobile`, and the search, transaction form, detail dialog, layout and routing screens. None of them is part of this model.
- `Calendar.MonthStart` counts month lengths from January 1970. This is a definition, not a limitation: every month index has a start.

## Findings

| source | as written | input that shows it | evidently intended | confidence | as-written member | corrected member |
|---|---|---|---|---|---|---|
| KaneTracker/kanetracker/src/app/dashboard/dashboard.component.ts:102 | `currentMonth` (and `lastMonth`, line 106) ends at `new Date(y, m + 1, 0)`, i.e. 00:00 of the month's last day | now = 2026-10-31 10:00, a transaction dated 2026-10-31 09:00 is not counted in "This Month" | the period ends at the last instant of the month, so every transaction of the month counts | high; not executed | Dashboard.PeriodBoundsAsWritten, Dashboard.LastDayDroppedAsWritten | Dashboard.PeriodBounds, Dashboard.MonthPeriodsExact |
| KaneTracker/kanetracker/src/app/analytics/analytics.component.ts:603 | the six-month comparison keys months by long name only (lines 603 and 609) | `lastYear` preset on 2026-10-14 with an expense dated 2025-10-20: it lies before the window (May–Oct 2026) but is added to the October bar | a bar counts only the transactions of its own month and year | high; not executed | Analytics.ComparisonBucketsAsWritten, Analytics.NameLabelsMixYears | Analytics.ComparisonChart, Analytics.ComparisonChartSpec |
| KaneTracker/kanetracker/src/app/analytics/analytics.component.ts:451 | the day count is `ceil(abs(end − start) / day) + 1` | the `last7Days` preset (00:00 six days ago to 23:59:59.999 today) counts 8 days | the number of calendar days in the range: 7 | high; not executed | Analytics.DateRangeDaysAsWritten, Analytics.DayCountOfLast7Days | Analytics.DateRangeDays, Analytics.DayCountOfLastMonth |
