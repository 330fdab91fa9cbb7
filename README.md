# Personal-finance app core, modelled in Dafny

This project models the logic under the screens of a React Native personal-finance app:

- **The record store** (`StorageService`). It is a key-value store (AsyncStorage) holding three whole-collection documents — transactions, categories and settings — plus a first-launch sentinel.
  - `initialize` seeds the defaults once.
  - Every mutation reads a collection, changes it and writes it back whole.
  - `resetAllData` returns the store to its first-launch state, and `exportData`/`importData` move snapshots in and out.
- **The money helpers** (`moneyUtils`): balance, per-type and per-category totals, grouping by category, the amount test, and the sign/symbol logic of currency formatting.
- **The validators** (`validation`): the e-mail shape, the amount bound, name and comment lengths, and the field-to-error-code map of a transaction form.
- **The application context** (`AppContext`):
  - the provider's in-memory mirror of the three documents and how each operation keeps it in step with the store;
  - the category lookups;
  - the balance and current-month totals;
  - the per-category sums of a month;
  - the theme and language fallbacks.
- **The derived lists of four screens**:
  - statistics: ranked category rows with percentages, and the net-profit card;
  - dashboard: the top three categories, the five latest transactions, the balance colour and the amount sign;
  - categories: the two sections with per-category totals, the add-name guard and the delete guard;
  - transactions: the type filter, the date-descending sort and the grouping by day.

Modelling choices:

- **Amounts** are exact `real`s, so identities such as "balance = income − expenses" hold exactly.
- **Dates** are integer millisecond timestamps. The month and day of a timestamp come from the proleptic Gregorian calendar in UTC (`Calendar.MonthOf`, `Calendar.DayKey`).
- **Clock readings and generated ids** are parameters.
- **A JavaScript object used as a dictionary** is a `Dicts.Dict`: its keys in insertion order plus a map.
- **The store** is a class whose only field is a `map<Key, Value>` of typed values. `JSON.stringify` and `JSON.parse` are the identity.
- **The provider** is a class holding the mirror. Its ghost predicate `Synced` says the mirror equals what the store holds, and every operation preserves it. Update is the one exception: it preserves `Synced` only when the id occurs at most once, because the mirror replaces every record with the id while the store replaces the first. `AppContext.MirrorDivergesOnDuplicateIds` exhibits the difference.

On these points the code behaves in ways a reader might not expect, and the model follows the code:

- The balance subtracts every record that is not an income, not only expenses.
- An `id` or `createdAt` carried by a draft overrides the generated one, so ids are not guaranteed unique.
- An empty comment is accepted.
- `importData` replaces a collection whenever its field is present, including an empty list.

## Model

| member | source | states |
|---|---|---|
| Calendar.DayOf | src/utils/dateUtils.js:5-15 | The day of a timestamp has a month in 1..12 and a day in 1..31 |
| Calendar.CivilFromDays | src/utils/dateUtils.js:5-15 | The day counted from the epoch has a month in 1..12 and a day in 1..31 |
| Calendar.MonthOf | src/utils/dateUtils.js:74-84 | The month compared by `isThisMonth` is in 1..12 |
| Calendar.DayKey | src/utils/dateUtils.js:5-15 | The `dd.mm.yyyy` key has a valid month and day, and its month and year are the ones `isThisMonth` compares |
| Calendar.SameDay | src/utils/dateUtils.js:74-84 | Two instants of one UTC day have the same key and each is in the other's month |
| Calendar.EpochDay | src/utils/dateUtils.js:5-15 | Day 0 is 01.01.1970 |
| Calendar.DayBeforeEpoch | src/utils/dateUtils.js:5-15 | Day -1 is 31.12.1969 |
| Calendar.LeapDayOf2000 | src/utils/dateUtils.js:5-15 | Day 11016 is 29.02.2000, 2000 being a leap year |
| Calendar.MarchFirstOf1900 | src/utils/dateUtils.js:5-15 | Day -25508 is 01.03.1900, 1900 having no 29 February |
| Calendar.KnownInstants | src/utils/dateUtils.js:5-84 | One second before the epoch is on 31.12.1969 and in another month than the epoch; the epoch day's last millisecond is still on 01.01.1970 |
| Records.NewTransaction | src/services/StorageService.js:76-80 | The new record takes the draft's id and createdAt when present (spread order), else the generated id and `now`; every other field comes from the draft |
| Records.MergeTransaction | src/services/StorageService.js:101-105 | Each field of the merge is the update's value when present, else the old value; `updatedAt` is always the fresh stamp, even if the updates carry one |
| Records.NewCategory | src/services/StorageService.js:187-190 | The new category takes the draft's id when present, else the generated one; the other fields come from the draft |
| Records.MergeCategory | src/services/StorageService.js:211 | Each field of the merged category is the update's value when present, else the old value |
| Records.MergeSettings | src/services/StorageService.js:261 | Keys present in the updates take the new value; every other key keeps its old value |
| Records.MergeSettingsCompose | src/services/StorageService.js:258-269 | Two successive settings updates equal one update with both merged; repeating an update changes nothing; an empty update is the identity |
| Seqs.Filter | src/services/StorageService.js:124 | A filter keeps exactly the elements that pass the test and is never longer than its input |
| Seqs.FilterAppend | src/services/StorageService.js:124 | Filtering distributes over concatenation, which is what makes a filter order-preserving |
| Seqs.FindIndex | src/services/StorageService.js:98 | `findIndex` is none exactly when no element matches; otherwise it is the first matching index |
| Seqs.Find | src/context/AppContext.js:138 | `find` is none exactly when no element matches; otherwise it is the first match |
| Seqs.SortDesc | src/screens/TransactionsScreen.js:43-45 | The sort by a descending key yields an ordered permutation of its input |
| Seqs.TakeTop | src/screens/DashboardScreen.js:61-64 | Sort-then-slice keeps exactly min(n, length) elements drawn from the input (a sub-multiset of it), in descending order, and every element left out has a key no larger than any kept |
| Seqs.FilterKeepsSorted | src/screens/TransactionsScreen.js:48-55 | A filter of a descending sequence stays descending |
| Dicts.GroupBy | src/utils/moneyUtils.js:46-57 | The group-by loop yields a grouping of its input (keys in first-appearance order, each holding exactly its items in order) whose bucket sizes sum to the input length |
| Dicts.Push | src/utils/moneyUtils.js:50-53 | Appends the item to its key's bucket, creating an empty bucket listed last when the key is new; no other bucket changes |
| Dicts.GroupingCovers | src/utils/moneyUtils.js:46-57 | A grouping lists each key once, has no empty bucket, has a key exactly when some item has it, and puts each item in the bucket of its own key and in no other |
| Dicts.BucketKeepsSorted | src/screens/TransactionsScreen.js:48-55 | A bucket of a descending sequence keeps the descending order |
| MoneyUtils.BalanceAppend | src/utils/moneyUtils.js:17-23 | The balance of a concatenation is the sum of the balances; each record adds its amount if income, else subtracts it |
| MoneyUtils.BalanceIsIncomeMinusExpenses | src/utils/moneyUtils.js:17-44 | When every record is an income or an expense, the balance equals total income minus total expenses |
| MoneyUtils.Balance | src/utils/moneyUtils.js:17-23 | Records that are all incomes give their total; records none of which is an income give minus their total |
| MoneyUtils.MonthlyExpenses | src/utils/moneyUtils.js:34-38 | With no expense records the total is 0 |
| MoneyUtils.MonthlyIncome | src/utils/moneyUtils.js:40-44 | With no income records the total is 0 |
| MoneyUtils.CategoryTotal | src/utils/moneyUtils.js:25-32 | A category no record refers to totals 0 |
| MoneyUtils.CategoryTotalSplits | src/utils/moneyUtils.js:25-32 | Without a type, a category's total is its income total plus its expense total |
| MoneyUtils.TotalPositive | src/utils/moneyUtils.js:31 | A non-empty list of positive amounts has a positive total |
| MoneyUtils.MonthlyTotalsPositive | src/utils/moneyUtils.js:34-44 | With positive amounts, each type's total is not negative, and positive exactly when a record of that type is there |
| MoneyUtils.ValidAmounts | src/utils/moneyUtils.js:59-62 | `isValidAmount` refuses text that is not a number, zero and negative numbers, and accepts 0.01 |
| MoneyUtils.GroupByCategory | src/utils/moneyUtils.js:46-57 | `groupByCategory` is the grouping by `categoryId`, and its bucket sizes sum to the number of records |
| MoneyUtils.FormatCurrency | src/utils/moneyUtils.js:7-15 | An unknown code returns the amount unchanged. Otherwise the result carries that currency's symbol, the magnitude, and a minus sign exactly when the amount is negative. The value shown is always the amount |
| Text.Trim | src/utils/validation.js:16 | The result is a slice s[i..j] of the input with only white space before i and after j, and none at either end of the slice; it is empty exactly for white-space-only text |
| Text.TrimShortens | src/utils/validation.js:15-21 | The trimmed text is no longer in UTF-16 code units than the original |
| Validation.ValidateEmail | src/utils/validation.js:5-8 | Accepts exactly the strings of the form user@host.tld, with each part non-empty and free of white space and '@' |
| Validation.ValidateAmount | src/utils/validation.js:10-13 | Every amount the form accepts also passes `isValidAmount`: the form's test is the stricter one |
| Validation.AmountBoundsDiffer | src/utils/validation.js:10-13 | 1000000 passes `isValidAmount`, which has no upper bound, but fails `validateAmount` |
| Validation.ValidateCategory | src/utils/validation.js:15-17 | An accepted name is present and not blank; a present, non-blank name of at most 50 UTF-16 units is accepted |
| Validation.ValidateComment | src/utils/validation.js:19-21 | An absent or empty comment is accepted; a non-empty white-space-only comment is rejected; a non-blank comment of at most 200 units is accepted |
| Validation.CollectErrors | src/utils/validation.js:24-44 | Given the four verdicts, each failed check alone sets its key, always to that key's fixed code, and `isValid` holds exactly when no key is set, that is when all four passed |
| Validation.ValidateTransaction | src/utils/validation.js:23-45 | Applied to a form: each error key is present exactly when its own check fails and holds its fixed code; the form is valid exactly when the map is empty, that is when all four checks pass |
| Storage.InitializeSpec | src/services/StorageService.js:30-48 | After initialising, the store is seeded. A seeded store is unchanged; otherwise it holds no transactions, the default expense then income categories, and the default settings |
| Storage.InitializeIdempotent | src/services/StorageService.js:30-48 | Initialising twice equals initialising once |
| Storage.ResetIsFresh | src/services/StorageService.js:336-351 | Removing the four keys and initialising always ends in the first-launch store, whatever the store held |
| Storage.OrElse | src/services/StorageService.js:274-322 | A fallback getter returns a truthy stored value unchanged and the fallback in every other case (absent or empty); with a non-empty fallback it never returns an empty string |
| Storage.ImportSpec | src/services/StorageService.js:377-405 | Each collection present in the snapshot replaces the stored one; the others and the sentinel stay as they were |
| Storage.ImportExportRoundTrip | src/services/StorageService.js:356-405 | Importing what was just exported leaves all three getters' results unchanged |
| Storage.ReplaceAt | src/services/StorageService.js:101-105 | An index assignment changes that position only and keeps the length |
| Storage.StorageService.constructor | src/services/StorageService.js:409 | The service starts over the given storage contents |
| Storage.StorageService.Initialize | src/services/StorageService.js:30-48 | `initialize` returns true and leaves the store as `InitializeSpec` says |
| Storage.StorageService.GetTransactions | src/services/StorageService.js:60-68 | The stored list; `[]` when the key is absent |
| Storage.StorageService.AddTransaction | src/services/StorageService.js:73-90 | Appends exactly the new record at the end of the stored list and returns it; nothing else changes |
| Storage.StorageService.UpdateTransaction | src/services/StorageService.js:95-116 | An unknown id fails with not-found and writes nothing; otherwise only the first match is replaced by its stamped merge, which is returned |
| Storage.StorageService.DeleteTransaction | src/services/StorageService.js:121-132 | Persists the order-preserving filter of records with another id and returns true |
| Storage.StorageService.GetTransactionsByDateRange | src/services/StorageService.js:137-151 | Returns exactly the records dated from start to end inclusive, as the order-preserving filter of the stored list |
| Storage.StorageService.GetCategories | src/services/StorageService.js:158-166 | The stored list; `[]` when the key is absent |
| Storage.StorageService.GetCategoriesByType | src/services/StorageService.js:171-179 | Returns exactly the stored categories of the given type, in order |
| Storage.StorageService.AddCategory | src/services/StorageService.js:184-200 | Appends exactly the new category at the end and returns it |
| Storage.StorageService.UpdateCategory | src/services/StorageService.js:205-222 | An unknown id fails and writes nothing; otherwise only the first match is replaced by its merge |
| Storage.StorageService.DeleteCategory | src/services/StorageService.js:227-238 | Persists the filter of categories with another id and returns true |
| Storage.StorageService.GetSettings | src/services/StorageService.js:245-253 | The stored settings; the defaults when the key is absent |
| Storage.StorageService.UpdateSettings | src/services/StorageService.js:258-269 | Persists and returns the updates spread over the current settings |
| Storage.StorageService.GetCurrency | src/services/StorageService.js:274-282 | The stored currency when truthy, else "USD"; never empty |
| Storage.StorageService.GetTheme | src/services/StorageService.js:294-302 | The stored theme when truthy, else "light"; never empty |
| Storage.StorageService.GetLanguage | src/services/StorageService.js:314-322 | The stored language when truthy, else "pl"; never empty |
| Storage.StorageService.SetCurrency | src/services/StorageService.js:287-289 | Persists the settings with the currency key set to the argument, even an undefined one |
| Storage.StorageService.SetTheme | src/services/StorageService.js:307-309 | Persists the settings with the theme key set to the argument |
| Storage.StorageService.SetLanguage | src/services/StorageService.js:327-329 | Persists the settings with the language key set to the argument |
| Storage.StorageService.ResetAllData | src/services/StorageService.js:336-351 | Ends in exactly the freshly seeded store and returns true |
| Storage.StorageService.ExportData | src/services/StorageService.js:356-372 | The snapshot holds the three current collections and the export time |
| Storage.StorageService.ImportData | src/services/StorageService.js:377-405 | Overwrites only the collections the snapshot carries and returns true |
| AppContext.ReplaceMatching | src/context/AppContext.js:77-79 | The mirror update keeps the length and replaces every record selected by id |
| AppContext.ReplaceMatchingIsReplaceFirst | src/context/AppContext.js:74-85 | With at most one record per id, the mirror's replace-all agrees with the store's replace-first, and an absent id leaves the list unchanged |
| AppContext.MirrorDivergesOnDuplicateIds | src/context/AppContext.js:114-125 | With two categories sharing an id, the mirror and the store disagree after an update |
| AppContext.Language | src/context/AppContext.js:170-179 | The language is `settings.language` when truthy, and exactly "pl" otherwise; it is never empty |
| AppContext.ThemeChoice | src/context/AppContext.js:178 | The dark palette is chosen exactly when the theme is "dark"; "light" or no theme gives the light one |
| AppContext.DefaultLook | src/services/StorageService.js:19-24 | The default settings give the light palette and the language "pl" |
| AppContext.MonthOfKind | src/context/AppContext.js:197-205 | Keeps exactly the records of the type whose month and year match |
| AppContext.ThisMonth | src/context/AppContext.js:186-194 | Keeps exactly the records dated in the current month |
| AppContext.MonthOfKindIsThisMonthOfKind | src/context/AppContext.js:186-216 | Filtering by month and type at once equals filtering by month and then by type |
| AppContext.OtherMonthCountsOnlyInBalance | src/context/AppContext.js:182-194 | A record outside the current month changes the balance by its signed amount but neither monthly total |
| AppContext.SumByCategory | src/context/AppContext.js:196-237 | The keys are exactly the category ids of the month's records of the type, in first-appearance order. Each value is the sum of that category's amounts, positive when all amounts are. The values add up to the month's total for the type |
| AppContext.AddToEntry | src/context/AppContext.js:208-211 | Creates a missing entry at 0, listed last, then adds the amount |
| AppContext.CategoryById | src/context/AppContext.js:137-139 | None exactly when no category has the id; otherwise a category with the id that no earlier category's id equals, that is the first one |
| AppContext.CategoriesOfKind | src/context/AppContext.js:141-143 | Exactly the categories of the type, as the order-preserving filter of the list |
| AppContext.CategoriesOfKindAppend | src/context/AppContext.js:141-143 | The categories of a type from an earlier part of the list come before those from a later part |
| AppContext.AppProvider.constructor | src/context/AppContext.js:20-24 | Starts loading, with empty lists and empty settings |
| AppContext.AppProvider.InitializeApp | src/context/AppContext.js:31-54 | Initialises the store, loads all three documents so the mirror is in step, and ends initialised and not loading |
| AppContext.AppProvider.AddTransaction | src/context/AppContext.js:63-72 | Appends the returned record to the mirror as the store appends it; keeps the two in step |
| AppContext.AppProvider.UpdateTransaction | src/context/AppContext.js:74-85 | Without a stored record of that id: fails with not-found, and neither store nor mirror changes. Otherwise it returns the stamped merge of the first stored match, the store holds the list with that position replaced by it, and every mirrored record with the id becomes it. Mirror and store stay in step when the id is unique |
| AppContext.AppProvider.DeleteTransaction | src/context/AppContext.js:87-95 | Filters the id out of the mirror and the store alike |
| AppContext.AppProvider.GetTransactionsByDateRange | src/context/AppContext.js:97-99 | Answered by the store: exactly its records dated in the inclusive range, in stored order |
| AppContext.AppProvider.AddCategory | src/context/AppContext.js:103-112 | Appends the returned category to the mirror as the store appends it |
| AppContext.AppProvider.UpdateCategory | src/context/AppContext.js:114-125 | As for transactions: on an unknown id, not-found and no change; otherwise the merge of the first stored match is returned and written at its position in the store, and replaces every match in the mirror |
| AppContext.AppProvider.DeleteCategory | src/context/AppContext.js:127-135 | Filters the id out of the mirror and the store alike |
| AppContext.AppProvider.UpdateSettings | src/context/AppContext.js:147-156 | Mirrors the merged settings the store returns |
| AppContext.AppProvider.SetCurrency | src/context/AppContext.js:158-160 | Sets the currency key in store and mirror |
| AppContext.AppProvider.SetTheme | src/context/AppContext.js:162-164 | Sets the theme key in store and mirror |
| AppContext.AppProvider.SetLanguage | src/context/AppContext.js:166-168 | Sets the language key in store and mirror |
| AppContext.AppProvider.GetBalance | src/context/AppContext.js:183-185 | Over every record whatever its date; when each is an income or an expense, the income total minus the expense total |
| AppContext.AppProvider.GetMonthlyExpenses | src/context/AppContext.js:187-190 | 0 when the current month has no expense; with positive amounts, positive exactly when it has one |
| AppContext.AppProvider.GetMonthlyIncome | src/context/AppContext.js:192-195 | 0 when the current month has no income; with positive amounts, positive exactly when it has one |
| AppContext.AppProvider.GetExpensesByCategory | src/context/AppContext.js:196-216 | Keys are exactly the expense categories of the chosen month, values their sums, none zero when amounts are positive; for the current month they add up to `getMonthlyExpenses()` |
| AppContext.AppProvider.GetIncomeByCategory | src/context/AppContext.js:218-237 | The same for income, adding up to `getMonthlyIncome()` for the current month |
| AppContext.AppProvider.ResetAllData | src/context/AppContext.js:241-249 | Ends with the first-launch store and the mirror in step with it |
| AppContext.AppProvider.ExportData | src/context/AppContext.js:251-253 | The store's snapshot |
| AppContext.AppProvider.ImportData | src/context/AppContext.js:255-263 | Imports into the store, re-initialises, and reloads the mirror |
| StatisticsScreen.Percentage | src/screens/StatisticsScreen.js:58 | Exactly 0 when the month total is 0, otherwise the share of the total times 100 |
| StatisticsScreen.BarWidth | src/screens/StatisticsScreen.js:87 | The bar width is the percentage capped at 100 |
| StatisticsScreen.Rows | src/screens/StatisticsScreen.js:54-59 | One row per key of the grouped data, in key order, carrying the amount unchanged, the category with that id, and the percentage of the month total |
| StatisticsScreen.TopRows | src/screens/StatisticsScreen.js:54-68 | The rows, as a permutation sorted by amount, descending |
| StatisticsScreen.PercentagesAtMostHundred | src/screens/StatisticsScreen.js:49-58 | When the month total is the sum of the non-negative entries, every percentage lies in [0, 100] |
| StatisticsScreen.OtherMonthShareExceedsHundred | src/screens/StatisticsScreen.js:49-50 | For another month a share can reach 500%, which the bar caps at 100 |
| StatisticsScreen.NetProfit | src/screens/StatisticsScreen.js:131-133 | The net added to the expenses gives the income; it is negative exactly when expenses exceed income |
| StatisticsScreen.InProfit | src/screens/StatisticsScreen.js:132-141 | "In profit" exactly when income is at least expenses, so a month that breaks even is in profit |
| StatisticsScreen.NetProfitIsMonthBalance | src/screens/StatisticsScreen.js:129-141 | When the month's records are all incomes or expenses, the net is the current month's balance, and it is labelled profit exactly when that balance is not negative |
| DashboardScreen.EntriesOf | src/screens/DashboardScreen.js:52 | `Object.entries` lists one pair per key, each holding that key's value |
| DashboardScreen.TopEntries | src/screens/DashboardScreen.js:52-54 | Exactly min(3, number of keys) entries, drawn from the stats' entries (a sub-multiset), each pairing a key with its value, sorted by amount, descending; a key left out has no larger amount than any entry kept |
| DashboardScreen.TopCategories | src/screens/DashboardScreen.js:52-58 | One line per top entry, in the same order: line i holds the first category whose id is entry i's key (none if there is none) and entry i's amount. So there are min(3, number of keys) lines, descending by amount, and a key left out has no larger amount than any line |
| DashboardScreen.Ranks | src/screens/DashboardScreen.js:55-58 | One line per entry, line i holding the first category with entry i's key and entry i's amount |
| DashboardScreen.RanksSorted | src/screens/DashboardScreen.js:52-58 | Mapping entries to lines keeps the descending order of amounts |
| DashboardScreen.RanksFound | src/screens/DashboardScreen.js:52-58 | Each line's amount is the stats' value of its entry's key, and its category is the first with that id |
| DashboardScreen.KeysDominated | src/screens/DashboardScreen.js:52-54 | An entry left out of the slice has no larger amount than any kept, so neither has its key |
| DashboardScreen.RecentTransactions | src/screens/DashboardScreen.js:61-64 | Exactly min(5, number of the month's records) records, drawn from the current month's records (a sub-multiset of them), latest first, none older than a month record left out |
| DashboardScreen.StatusColor | src/screens/DashboardScreen.js:66-70 | Success exactly when the balance is at least half the monthly income, warning when below that but not negative, error otherwise |
| DashboardScreen.StatusMonotone | src/screens/DashboardScreen.js:66-70 | With non-negative income, a larger balance never gets a worse colour, and error means a negative balance |
| DashboardScreen.NoIncomeSkipsWarning | src/screens/DashboardScreen.js:66-70 | A month without income never shows the warning colour |
| DashboardScreen.MonthlyIncomeNonNegative | src/screens/DashboardScreen.js:46-48 | With positive amounts the monthly income passed to the colour test is not negative |
| DashboardScreen.SignPrefix | src/screens/DashboardScreen.js:175 | '+' exactly for income records, '-' for all others |
| CategoriesScreen.SectionOf | src/screens/CategoriesScreen.js:53-67 | A section lists its type's categories in order, each with its total for that type |
| CategoriesScreen.Sections | src/screens/CategoriesScreen.js:50-69 | Exactly the expense section if that type has a category, followed by the income section if that type has one; no empty section; the rows cover exactly the expense and income categories |
| CategoriesScreen.SectionsExact | src/screens/CategoriesScreen.js:50-69 | Filtering the two candidate sections for non-empty ones keeps expense first, each present exactly when its type has a category |
| CategoriesScreen.SectionHolds | src/screens/CategoriesScreen.js:50-67 | A section lists exactly its type's categories and is empty exactly when there are none |
| CategoriesScreen.CategoryForm.constructor | src/screens/CategoriesScreen.js:41-45 | The form starts closed with '' / 'expense' / '📌' / '#95A5A6' |
| CategoriesScreen.CategoryForm.HandleAddCategory | src/screens/CategoriesScreen.js:73-98 | A name that trims to nothing is refused and changes nothing. Otherwise the category with the untrimmed name is appended to the mirror and to the stored list, transactions and settings stay as they were, and the form resets to '' / 'expense' / '📌' / '#95A5A6' and closes |
| CategoriesScreen.CategoryForm.Reset | src/screens/CategoriesScreen.js:87-91 | After a successful add, the form holds '' / 'expense' / '📌' / '#95A5A6' and the modal is closed |
| CategoriesScreen.HandleDeleteCategory | src/screens/CategoriesScreen.js:100-124 | Refused, with nothing changed, exactly when a transaction uses the category. Otherwise the category is deleted only on the destructive choice |
| TransactionsScreen.FilterByType | src/screens/TransactionsScreen.js:39-41 | 'all' keeps every record; any other filter keeps exactly the records of that type |
| TransactionsScreen.GroupedByDay | src/screens/TransactionsScreen.js:37-58 | The sorted copy is a date-descending permutation of the filtered records. Groups are keyed by day in first-appearance order, none empty, each keeping the sorted order. Every record sits in the group of its own day and no other |

## Left out

- Storage-medium failures. Every AsyncStorage call succeeds, so `initialize` always returns true and the `catch` branches never run. A value of the wrong shape under a key reads as the default, which is what a failed parse would give.
- async/await, the parallel loads of `initializeApp`, and the lost-update race between whole-collection rewrites. Operations run one at a time.
- Id generation (`Date.now()` and `Math.random()`) and ISO timestamps. They are parameters, and nothing claims ids are unique, since the code does not enforce it.
- The local time zone. Months and days are computed in UTC.
- Parsing of date strings by `new Date`, including invalid dates.
- `parseFloat` on stored amounts: amounts are numbers already. In the validators, a text that is not a number is `None`.
- The rounding of `toFixed(2)` and floating-point accumulation.
- The ordering rule for JavaScript object keys. Integer-like keys such as the default category ids are enumerated first, in numeric order; the model keeps insertion order. After sorting by amount, this affects only the order of rows with equal amounts.
- Translation (`t`, i18n), rendering, styles, navigation, the month-stepping buttons and the focus-effect timing. The two handlers' alerts become the `Choice` parameter and result values.
- The settings and add-transaction screens. They only forward to `updateSettings`, or to `validateTransaction` and then `addTransaction`.
- Validation.ValidateCategory: the contract bounds acceptance from both sides (accepted implies non-blank; non-blank and at most 50 units before trimming implies accepted) instead of naming the trimmed length exactly.
- Validation.ValidateComment: stated the same way, with 200 units.
- Seqs.SortDesc: the contract states an ordered permutation, not that elements with equal keys keep their input order, which the JavaScript sort guarantees.
- StatisticsScreen.TopRows: for the same reason, the order of rows with equal amounts is not stated.
- TransactionsScreen.GroupedByDay: the order of records with the same timestamp is not stated either.
