/** The application state shared by the screens: an in-memory mirror of the
    store's three documents, the accessors the screens call, and the
    per-category statistics of a month. */
module AppContext {
  import opened Wrappers
  import opened Calendar
  import opened Records
  import opened Seqs
  import opened Dicts
  import opened MoneyUtils
  import opened Storage

  /** `prev.map(x => x.id === id ? updated : x)`: every element the test
      selects is replaced, not only the first. */
  function ReplaceMatching<T>(s: seq<T>, selected: T -> bool, x: T): (r: seq<T>)
    ensures |r| == |s|
    ensures forall i :: 0 <= i < |s| ==> r[i] == if selected(s[i]) then x else s[i]
  {
    seq(|s|, i requires 0 <= i < |s| => if selected(s[i]) then x else s[i])
  }

  /** No two elements of `s` are selected by `selected`. */
  predicate AtMostOne<T>(s: seq<T>, selected: T -> bool) {
    forall i, j :: 0 <= i < j < |s| && selected(s[i]) ==> !selected(s[j])
  }

  /** When at most one element is selected, replacing every selected element (the
      mirror) and replacing the first one found (the store) agree. */
  lemma ReplaceMatchingIsReplaceFirst<T(!new)>(s: seq<T>, selected: T -> bool, x: T)
    requires AtMostOne(s, selected)
    ensures match FindIndex(s, selected)
      case None => ReplaceMatching(s, selected, x) == s
      case Some(i) => ReplaceMatching(s, selected, x) == ReplaceAt(s, i, x)
  {
    match FindIndex(s, selected)
    case None =>
      assert forall i :: 0 <= i < |s| ==> !selected(s[i]) by {
        forall i | 0 <= i < |s| ensures !selected(s[i]) { assert s[i] in s; }
      }
    case Some(i) =>
      forall j | 0 <= j < |s| && j != i ensures !selected(s[j]) {
        if j < i { } else { assert selected(s[i]); }
      }
  }

  /** With two records sharing an id, the mirror replaces both while the store
      replaces only the first, so the two stop agreeing. */
  lemma MirrorDivergesOnDuplicateIds()
    ensures var a := Category("7", "A", Expense, "x", "#000000");
      var b := Category("7", "B", Expense, "y", "#FFFFFF");
      var selected := (c: Category) => c.id == "7";
      FindIndex([a, a], selected) == Some(0) &&
      ReplaceMatching([a, a], selected, b) != ReplaceAt([a, a], 0, b)
  {
    var a := Category("7", "A", Expense, "x", "#000000");
    var b := Category("7", "B", Expense, "y", "#FFFFFF");
    var selected := (c: Category) => c.id == "7";
    assert ReplaceMatching([a, a], selected, b)[1] == b;
    assert ReplaceAt([a, a], 0, b)[1] == a;
  }

  /** The language the screens use: `settings.language`, or "pl" when unset. */
  function Language(settings: Settings): (lang: string)
    ensures lang != []
    ensures settings.language.Some? && settings.language.value != [] ==> lang == settings.language.value
    ensures !(settings.language.Some? && settings.language.value != []) ==> lang == "pl"
  {
    OrElse(settings.language, "pl")
  }

  /** The dark palette is chosen exactly when the theme is "dark". */
  predicate IsDark(settings: Settings) {
    settings.theme == Some("dark")
  }

  /** Choosing a theme gives the dark palette exactly for "dark"; any other
      value, or none, gives the light one. */
  lemma ThemeChoice(settings: Settings, theme: Option<string>)
    ensures IsDark(settings.(theme := theme)) <==> theme == Some("dark")
    ensures !IsDark(settings.(theme := Some("light"))) && !IsDark(settings.(theme := None))
  {
  }

  /** The settings the store starts with use the light palette and Polish. */
  lemma DefaultLook()
    ensures !IsDark(DefaultSettings)
    ensures Language(DefaultSettings) == "pl"
  {
  }

  /** The records of one type dated in one month, in order. */
  function MonthOfKind(ts: seq<Transaction>, month: YearMonth, kind: Kind): (r: seq<Transaction>)
    ensures forall t :: t in r <==> t in ts && MonthOf(t.date) == month && t.kind == kind
  {
    Filter(ts, (t: Transaction) => MonthOf(t.date) == month && t.kind == kind)
  }

  /** The records of the current month (`transactions.filter(t => isThisMonth(t.date))`). */
  function ThisMonth(ts: seq<Transaction>, now: Timestamp): (r: seq<Transaction>)
    ensures forall t :: t in r <==> t in ts && IsThisMonth(t.date, now)
  {
    Filter(ts, (t: Transaction) => IsThisMonth(t.date, now))
  }

  /** Filtering to a month and a type in one pass is filtering to the month, then
      to the type: the per-category statistics of the current month add up to
      the same records `getMonthlyExpenses` and `getMonthlyIncome` sum. */
  lemma MonthOfKindIsThisMonthOfKind(ts: seq<Transaction>, now: Timestamp, kind: Kind)
    ensures MonthOfKind(ts, MonthOf(now), kind) == OfKind(ThisMonth(ts, now), kind)
  {
    FilterTwice(ts, (t: Transaction) => IsThisMonth(t.date, now), (t: Transaction) => t.kind == kind,
                (t: Transaction) => MonthOf(t.date) == MonthOf(now) && t.kind == kind);
  }

  /** A record dated outside the current month moves the balance but neither
      monthly total: `getBalance` reads the whole list, `getMonthlyExpenses` and
      `getMonthlyIncome` only the current month. */
  lemma OtherMonthCountsOnlyInBalance(ts: seq<Transaction>, t: Transaction, now: Timestamp)
    requires !IsThisMonth(t.date, now)
    ensures Balance(ts + [t]) == Balance(ts) + Signed(t)
    ensures MonthlyExpenses(ThisMonth(ts + [t], now)) == MonthlyExpenses(ThisMonth(ts, now))
    ensures MonthlyIncome(ThisMonth(ts + [t], now)) == MonthlyIncome(ThisMonth(ts, now))
  {
    BalanceAppend(ts, [t]);
    assert Balance([t]) == Signed(t) + Balance([]);
    FilterSnocRejected(ts, t, (x: Transaction) => IsThisMonth(x.date, now));
  }

  function Identity(x: real): real { x }

  /** The summing loop's state after visiting `prefix`: `sums` has the keys of
      the grouping `g` of `prefix`, each holding the total of its bucket. */
  ghost predicate Tracks(sums: Dict<string, real>, g: Dict<string, seq<Transaction>>, prefix: seq<Transaction>) {
    && IsGrouping(g, prefix, CategoryOf)
    && sums.keys == g.keys
    && (forall k :: k in sums.entries <==> k in g.entries)
    && (forall k :: k in sums.entries ==> sums.entries[k] == Total(g.entries[k]))
    && SumOver(sums.keys, sums.entries, Identity) == Total(prefix)
  }

  /** The body of the summing loop, for one record `t`, with the grouping the
      proof follows alongside. */
  method Visit(d: Dict<string, real>, t: Transaction, ghost g: Dict<string, seq<Transaction>>, ghost prefix: seq<Transaction>)
    returns (d': Dict<string, real>, ghost g': Dict<string, seq<Transaction>>)
    requires Tracks(d, g, prefix)
    ensures Tracks(d', g', prefix + [t])
  {
    var k := t.categoryId;
    d' := AddToEntry(d, k, t.amount);
    g' := Push(g, k, t);
    TracksStep(d, g, prefix, t, prefix + [t], d', g');
  }

  /** One step of the summing loop keeps `Tracks`. */
  lemma TracksStep(sums: Dict<string, real>, g: Dict<string, seq<Transaction>>, prefix: seq<Transaction>,
                   t: Transaction, next: seq<Transaction>, sums': Dict<string, real>, g': Dict<string, seq<Transaction>>)
    requires Tracks(sums, g, prefix) && next == prefix + [t]
    requires sums' == AddAmount(sums, t.categoryId, t.amount)
    requires g' == Push(g, t.categoryId, t)
    ensures Tracks(sums', g', next)
  {
    GroupStep(g, prefix, t, CategoryOf, next);
    assert NoDuplicates(sums.keys) by { GroupingCovers(g, prefix, CategoryOf); }
    TracksStepSum(sums, prefix, t, next, sums');
    TracksStepEntries(sums, g, t, sums', g');
  }

  lemma TracksStepSum(sums: Dict<string, real>, prefix: seq<Transaction>, t: Transaction, next: seq<Transaction>, sums': Dict<string, real>)
    requires NoDuplicates(sums.keys) && forall k :: k in sums.entries <==> k in sums.keys
    requires SumOver(sums.keys, sums.entries, Identity) == Total(prefix) && next == prefix + [t]
    requires sums' == AddAmount(sums, t.categoryId, t.amount)
    ensures SumOver(sums'.keys, sums'.entries, Identity) == Total(next)
  {
    SumStep(sums, t, sums');
    TotalAppend(prefix, [t]);
    assert Total([t]) == t.amount;
  }

  lemma TracksStepEntries(sums: Dict<string, real>, g: Dict<string, seq<Transaction>>, t: Transaction,
                          sums': Dict<string, real>, g': Dict<string, seq<Transaction>>)
    requires forall k :: k in sums.entries <==> k in g.entries
    requires forall k :: k in sums.entries ==> sums.entries[k] == Total(g.entries[k])
    requires sums' == AddAmount(sums, t.categoryId, t.amount) && g' == Push(g, t.categoryId, t)
    ensures forall k :: k in sums'.entries <==> k in g'.entries
    ensures forall k :: k in sums'.entries ==> sums'.entries[k] == Total(g'.entries[k])
  {
    var k := t.categoryId;
    assert Total([t]) == t.amount;
    if k in g.entries {
      TotalAppend(g.entries[k], [t]);
    } else {
      assert [] + [t] == [t];
    }
  }

  /** What the finished summing loop promises. */
  lemma TracksFinal(sums: Dict<string, real>, g: Dict<string, seq<Transaction>>, ts: seq<Transaction>, month: YearMonth, kind: Kind)
    requires Tracks(sums, g, MonthOfKind(ts, month, kind))
    ensures sums.keys == Distinct(KeysOf(MonthOfKind(ts, month, kind), CategoryOf))
    ensures forall k :: k in sums.entries <==> k in sums.keys
    ensures SumOver(sums.keys, sums.entries, Identity) == Total(MonthOfKind(ts, month, kind))
    ensures forall k :: k in sums.entries <==> exists t :: t in ts && MonthOf(t.date) == month && t.kind == kind && t.categoryId == k
    ensures forall k :: k in sums.entries ==> sums.entries[k] == Total(Bucket(MonthOfKind(ts, month, kind), CategoryOf, k))
    ensures (forall t :: t in ts ==> t.amount > 0.0) ==> forall k :: k in sums.entries ==> sums.entries[k] > 0.0
  {
    var picked := MonthOfKind(ts, month, kind);
    GroupingCovers(g, picked, CategoryOf);
    forall k | k in sums.entries && (forall t :: t in ts ==> t.amount > 0.0) ensures sums.entries[k] > 0.0 {
      TotalPositive(g.entries[k]);
    }
  }

  /** `getExpensesByCategory`/`getIncomeByCategory` for the month `month`: keep the
      month's records of type `kind`, then for each, create its category's entry at
      0 if it is missing or zero, and add the amount. */
  method SumByCategory(ts: seq<Transaction>, month: YearMonth, kind: Kind) returns (d: Dict<string, real>)
    ensures d.keys == Distinct(KeysOf(MonthOfKind(ts, month, kind), CategoryOf))
    ensures forall k :: k in d.entries <==> k in d.keys
    ensures forall k :: k in d.entries <==> exists t :: t in ts && MonthOf(t.date) == month && t.kind == kind && t.categoryId == k
    ensures forall k :: k in d.entries ==> d.entries[k] == Total(Bucket(MonthOfKind(ts, month, kind), CategoryOf, k))
    ensures (forall t :: t in ts ==> t.amount > 0.0) ==> forall k :: k in d.entries ==> d.entries[k] > 0.0
    ensures SumOver(d.keys, d.entries, Identity) == Total(MonthOfKind(ts, month, kind))
  {
    var monthTransactions := MonthOfKind(ts, month, kind);
    d := Dict([], map[]);
    ghost var g: Dict<string, seq<Transaction>> := Dict([], map[]);
    for i := 0 to |monthTransactions|
      invariant Tracks(d, g, monthTransactions[..i])
    {
      d, g := Visit(d, monthTransactions[i], g, monthTransactions[..i]);
      SliceSnoc(monthTransactions, i);
    }
    assert monthTransactions[..|monthTransactions|] == monthTransactions;
    TracksFinal(d, g, ts, month, kind);
  }

  /** The entry of `k` increased by `x`, created at 0 (and listed last) if missing. */
  function AddAmount(d: Dict<string, real>, k: string, x: real): Dict<string, real> {
    Dict(if k in d.entries then d.keys else d.keys + [k],
         d.entries[k := (if k in d.entries then d.entries[k] else 0.0) + x])
  }

  /** `if (!grouped[k]) grouped[k] = 0; grouped[k] += x;`: the entry becomes its
      old value, or 0 when missing, plus `x`, and a new key is listed last. */
  method AddToEntry(d: Dict<string, real>, k: string, x: real) returns (r: Dict<string, real>)
    ensures r == AddAmount(d, k, x)
  {
    r := d;
    if k !in r.entries || r.entries[k] == 0.0 {
      r := Dict(if k in r.entries then r.keys else r.keys + [k], r.entries[k := 0.0]);
    }
    r := r.(entries := r.entries[k := r.entries[k] + x]);
  }

  /** One step of the summing loop adds the amount to the sum of the entries. */
  lemma SumStep(sums: Dict<string, real>, t: Transaction, after: Dict<string, real>)
    requires NoDuplicates(sums.keys) && forall k :: k in sums.entries <==> k in sums.keys
    requires after == AddAmount(sums, t.categoryId, t.amount)
    ensures SumOver(after.keys, after.entries, Identity) == SumOver(sums.keys, sums.entries, Identity) + t.amount
  {
    var k := t.categoryId;
    if k in sums.entries {
      SumOverReplace(sums.keys, sums.entries, Identity, k, sums.entries[k] + t.amount);
    } else {
      SumOverUnlisted(sums.keys, sums.entries, Identity, k, 0.0 + t.amount);
      SumOverSnoc(sums.keys, sums.entries[k := 0.0 + t.amount], Identity, k);
    }
  }

  /** `getCategoryById`: the first category with the id, or nothing. */
  function CategoryById(categories: seq<Category>, id: string): (r: Option<Category>)
    ensures r.None? <==> forall c :: c in categories ==> c.id != id
    ensures r.Some? ==> r.value in categories && r.value.id == id
    ensures r.Some? ==> exists i :: 0 <= i < |categories| && categories[i] == r.value &&
                          forall j :: 0 <= j < i ==> categories[j].id != id
  {
    Find(categories, CategoryWithId(id))
  }

  /** `getCategoriesByType`: the categories of one type, in order. */
  function CategoriesOfKind(categories: seq<Category>, kind: Kind): (r: seq<Category>)
    ensures forall c :: c in r <==> c in categories && c.kind == kind
    ensures |r| <= |categories|
    ensures r == Filter(categories, CategoryOfKind(kind))
  {
    Filter(categories, CategoryOfKind(kind))
  }

  /** The categories of a type keep their order: those from an earlier part of
      the list come first. */
  lemma CategoriesOfKindAppend(a: seq<Category>, b: seq<Category>, kind: Kind)
    ensures CategoriesOfKind(a + b, kind) == CategoriesOfKind(a, kind) + CategoriesOfKind(b, kind)
  {
    FilterAppend(a, b, CategoryOfKind(kind));
  }

  /** The provider's state: loading flags and a mirror of the store's three
      documents, kept in step by every operation that writes. */
  class AppProvider {
    const service: StorageService
    var isLoading: bool
    var appInitialized: bool
    var transactions: seq<Transaction>
    var categories: seq<Category>
    var settings: Settings

    /** The mirror holds what the store holds. */
    ghost predicate Synced()
      reads this, service
    {
      transactions == service.Transactions() && categories == service.Categories() && settings == service.CurrentSettings()
    }

    /** The state before the first load: empty lists and `{}` settings. */
    constructor (service: StorageService)
      ensures this.service == service
      ensures isLoading && !appInitialized
      ensures transactions == [] && categories == [] && settings == NoSettings
    {
      this.service := service;
      isLoading := true;
      appInitialized := false;
      transactions := [];
      categories := [];
      settings := NoSettings;
    }

    /** `initializeApp`: initialise the store, then load all three documents. */
    method InitializeApp()
      modifies this, service
      ensures service.store == InitializeSpec(old(service.store))
      ensures Synced() && appInitialized && !isLoading
    {
      isLoading := true;
      var _ := service.Initialize();
      var loadedTransactions := service.GetTransactions();
      var loadedCategories := service.GetCategories();
      var loadedSettings := service.GetSettings();
      transactions := loadedTransactions;
      categories := loadedCategories;
      settings := loadedSettings;
      appInitialized := true;
      isLoading := false;
    }

    /** `addTransaction`: store the record, then append it to the mirror. */
    method AddTransaction(draft: TransactionDraft, generatedId: string, now: Timestamp) returns (t: Transaction)
      modifies this, service
      ensures t == NewTransaction(draft, generatedId, now)
      ensures transactions == old(transactions) + [t]
      ensures categories == old(categories) && settings == old(settings)
      ensures service.store == old(service.store)[TransactionsKey := Txs(old(service.Transactions()) + [t])]
      ensures old(Synced()) ==> Synced()
    {
      t := service.AddTransaction(draft, generatedId, now);
      transactions := transactions + [t];
    }

    /** `updateTransaction`: update the store, then replace every mirrored record
        with the id by the returned one. A failure leaves both untouched. The two
        stay in step when the mirror holds the id at most once. */
    method UpdateTransaction(id: string, updates: TransactionPatch, now: Timestamp) returns (r: Result<Transaction, StoreError>)
      modifies this, service
      ensures var ts := old(service.Transactions());
        match FindIndex(ts, TransactionWithId(id))
        case None => r == Failure(TransactionNotFound) && service.store == old(service.store)
        case Some(i) =>
          r == Success(MergeTransaction(ts[i], updates, now)) &&
          service.store == old(service.store)[TransactionsKey := Txs(ReplaceAt(ts, i, r.value))]
      ensures r.Failure? ==> transactions == old(transactions)
      ensures r.Success? ==> transactions == ReplaceMatching(old(transactions), TransactionWithId(id), r.value)
      ensures r.Success? <==> exists t :: t in old(service.Transactions()) && t.id == id
      ensures categories == old(categories) && settings == old(settings)
      ensures old(Synced()) && AtMostOne(old(transactions), TransactionWithId(id)) ==> Synced()
    {
      ghost var before := service.Transactions();
      r := service.UpdateTransaction(id, updates, now);
      if r.Success? {
        transactions := ReplaceMatching(transactions, TransactionWithId(id), r.value);
        if old(Synced()) && AtMostOne(old(transactions), TransactionWithId(id)) {
          ReplaceMatchingIsReplaceFirst(before, TransactionWithId(id), r.value);
        }
      }
    }

    /** `deleteTransaction`: delete in the store, then filter the mirror. */
    method DeleteTransaction(id: string)
      modifies this, service
      ensures transactions == Filter(old(transactions), TransactionWithoutId(id))
      ensures service.store == old(service.store)[TransactionsKey := Txs(Filter(old(service.Transactions()), TransactionWithoutId(id)))]
      ensures categories == old(categories) && settings == old(settings)
      ensures old(Synced()) ==> Synced()
    {
      var _ := service.DeleteTransaction(id);
      transactions := Filter(transactions, TransactionWithoutId(id));
    }

    /** `getTransactionsByDateRange`: answered by the store, not the mirror. */
    method GetTransactionsByDateRange(start: Timestamp, end: Timestamp) returns (r: seq<Transaction>)
      ensures r == Filter(service.Transactions(), DatedBetween(start, end))
      ensures forall t :: t in r <==> t in service.Transactions() && start <= t.date <= end
    {
      r := service.GetTransactionsByDateRange(start, end);
    }

    /** `addCategory`: store the category, then append it to the mirror. */
    method AddCategory(draft: CategoryDraft, generatedId: string) returns (c: Category)
      modifies this, service
      ensures c == NewCategory(draft, generatedId)
      ensures categories == old(categories) + [c]
      ensures transactions == old(transactions) && settings == old(settings)
      ensures service.store == old(service.store)[CategoriesKey := Cats(old(service.Categories()) + [c])]
      ensures old(Synced()) ==> Synced()
    {
      c := service.AddCategory(draft, generatedId);
      categories := categories + [c];
    }

    /** `updateCategory`, as `updateTransaction`. */
    method UpdateCategory(id: string, updates: CategoryPatch) returns (r: Result<Category, StoreError>)
      modifies this, service
      ensures var cs := old(service.Categories());
        match FindIndex(cs, CategoryWithId(id))
        case None => r == Failure(CategoryNotFound) && service.store == old(service.store)
        case Some(i) =>
          r == Success(MergeCategory(cs[i], updates)) &&
          service.store == old(service.store)[CategoriesKey := Cats(ReplaceAt(cs, i, r.value))]
      ensures r.Failure? ==> categories == old(categories)
      ensures r.Success? ==> categories == ReplaceMatching(old(categories), CategoryWithId(id), r.value)
      ensures r.Success? <==> exists c :: c in old(service.Categories()) && c.id == id
      ensures transactions == old(transactions) && settings == old(settings)
      ensures old(Synced()) && AtMostOne(old(categories), CategoryWithId(id)) ==> Synced()
    {
      ghost var before := service.Categories();
      r := service.UpdateCategory(id, updates);
      if r.Success? {
        categories := ReplaceMatching(categories, CategoryWithId(id), r.value);
        if old(Synced()) && AtMostOne(old(categories), CategoryWithId(id)) {
          ReplaceMatchingIsReplaceFirst(before, CategoryWithId(id), r.value);
        }
      }
    }

    /** `deleteCategory`: delete in the store, then filter the mirror. */
    method DeleteCategory(id: string)
      modifies this, service
      ensures categories == Filter(old(categories), CategoryWithoutId(id))
      ensures service.store == old(service.store)[CategoriesKey := Cats(Filter(old(service.Categories()), CategoryWithoutId(id)))]
      ensures transactions == old(transactions) && settings == old(settings)
      ensures old(Synced()) ==> Synced()
    {
      var _ := service.DeleteCategory(id);
      categories := Filter(categories, CategoryWithoutId(id));
    }

    /** `updateSettings`: store the merge, then mirror what the store returned. */
    method UpdateSettings(updates: Settings) returns (updated: Settings)
      modifies this, service
      ensures updated == MergeSettings(old(service.CurrentSettings()), updates)
      ensures settings == updated && service.store == old(service.store)[SettingsKey := Prefs(updated)]
      ensures transactions == old(transactions) && categories == old(categories)
      ensures old(Synced()) ==> Synced()
    {
      updated := service.UpdateSettings(updates);
      settings := updated;
    }

    /** `setCurrency(currency)`: `updateSettings({ currency })`. */
    method SetCurrency(currency: Option<string>) returns (updated: Settings)
      modifies this, service
      ensures updated == old(service.CurrentSettings()).(currency := currency) && settings == updated
      ensures transactions == old(transactions) && categories == old(categories)
      ensures old(Synced()) ==> Synced()
    {
      updated := service.SetCurrency(currency);
      settings := updated;
    }

    /** `setTheme(theme)`: `updateSettings({ theme })`. */
    method SetTheme(theme: Option<string>) returns (updated: Settings)
      modifies this, service
      ensures updated == old(service.CurrentSettings()).(theme := theme) && settings == updated
      ensures transactions == old(transactions) && categories == old(categories)
      ensures old(Synced()) ==> Synced()
    {
      updated := service.SetTheme(theme);
      settings := updated;
    }

    /** `setLanguage(language)`: `updateSettings({ language })`. */
    method SetLanguage(language: Option<string>) returns (updated: Settings)
      modifies this, service
      ensures updated == old(service.CurrentSettings()).(language := language) && settings == updated
      ensures transactions == old(transactions) && categories == old(categories)
      ensures old(Synced()) ==> Synced()
    {
      updated := service.SetLanguage(language);
      settings := updated;
    }

    /** `getBalance`: over every record, whatever its date; when each record is
        an income or an expense, the income total minus the expense total. */
    function GetBalance(): (r: real)
      reads this
      ensures TwoKinds(transactions) ==> r == MonthlyIncome(transactions) - MonthlyExpenses(transactions)
    {
      if TwoKinds(transactions) then
        BalanceIsIncomeMinusExpenses(transactions);
        Balance(transactions)
      else
        Balance(transactions)
    }

    /** `getMonthlyExpenses`: over the records of the current month only. With
        positive amounts it is positive exactly when the month has an expense. */
    function GetMonthlyExpenses(now: Timestamp): (r: real)
      reads this
      ensures (forall t :: t in transactions && IsThisMonth(t.date, now) ==> t.kind != Expense) ==> r == 0.0
      ensures (forall t :: t in transactions ==> t.amount > 0.0) ==>
        (r > 0.0 <==> exists t :: t in transactions && IsThisMonth(t.date, now) && t.kind == Expense)
    {
      var month := ThisMonth(transactions, now);
      if forall t :: t in transactions ==> t.amount > 0.0 then
        MonthlyTotalsPositive(month);
        MonthlyExpenses(month)
      else
        MonthlyExpenses(month)
    }

    /** `getMonthlyIncome`: over the records of the current month only. With
        positive amounts it is positive exactly when the month has an income. */
    function GetMonthlyIncome(now: Timestamp): (r: real)
      reads this
      ensures (forall t :: t in transactions && IsThisMonth(t.date, now) ==> t.kind != Income) ==> r == 0.0
      ensures (forall t :: t in transactions ==> t.amount > 0.0) ==>
        (r > 0.0 <==> exists t :: t in transactions && IsThisMonth(t.date, now) && t.kind == Income)
    {
      var month := ThisMonth(transactions, now);
      if forall t :: t in transactions ==> t.amount > 0.0 then
        MonthlyTotalsPositive(month);
        MonthlyIncome(month)
      else
        MonthlyIncome(month)
    }

    /** `getExpensesByCategory(monthDate)`. For the current month its values add
        up to `getMonthlyExpenses()`. */
    method GetExpensesByCategory(monthDate: Timestamp, now: Timestamp) returns (d: Dict<string, real>)
      ensures forall k :: k in d.entries <==>
        exists t :: t in transactions && MonthOf(t.date) == MonthOf(monthDate) && t.kind == Expense && t.categoryId == k
      ensures forall k :: k in d.entries ==> d.entries[k] == Total(Bucket(MonthOfKind(transactions, MonthOf(monthDate), Expense), CategoryOf, k))
      ensures forall k :: k in d.entries <==> k in d.keys
      ensures (forall t :: t in transactions ==> t.amount > 0.0) ==> forall k :: k in d.entries ==> d.entries[k] > 0.0
      ensures MonthOf(monthDate) == MonthOf(now) ==> SumOver(d.keys, d.entries, Identity) == GetMonthlyExpenses(now)
    {
      d := SumByCategory(transactions, MonthOf(monthDate), Expense);
      MonthOfKindIsThisMonthOfKind(transactions, now, Expense);
    }

    /** `getIncomeByCategory(monthDate)`. For the current month its values add up
        to `getMonthlyIncome()`. */
    method GetIncomeByCategory(monthDate: Timestamp, now: Timestamp) returns (d: Dict<string, real>)
      ensures forall k :: k in d.entries <==>
        exists t :: t in transactions && MonthOf(t.date) == MonthOf(monthDate) && t.kind == Income && t.categoryId == k
      ensures forall k :: k in d.entries ==> d.entries[k] == Total(Bucket(MonthOfKind(transactions, MonthOf(monthDate), Income), CategoryOf, k))
      ensures forall k :: k in d.entries <==> k in d.keys
      ensures (forall t :: t in transactions ==> t.amount > 0.0) ==> forall k :: k in d.entries ==> d.entries[k] > 0.0
      ensures MonthOf(monthDate) == MonthOf(now) ==> SumOver(d.keys, d.entries, Identity) == GetMonthlyIncome(now)
    {
      d := SumByCategory(transactions, MonthOf(monthDate), Income);
      MonthOfKindIsThisMonthOfKind(transactions, now, Income);
    }

    /** `resetAllData`: reset the store, then reload. */
    method ResetAllData()
      modifies this, service
      ensures service.store == SeededStore && Synced()
    {
      var _ := service.ResetAllData();
      InitializeApp();
    }

    /** `exportData`: answered by the store. */
    method ExportData(now: Timestamp) returns (data: Snapshot)
      ensures data == ExportSpec(service.store, now)
    {
      data := service.ExportData(now);
    }

    /** `importData`: import into the store, then reload. */
    method ImportData(data: Snapshot)
      modifies this, service
      ensures service.store == InitializeSpec(ImportSpec(old(service.store), data)) && Synced()
    {
      var _ := service.ImportData(data);
      InitializeApp();
    }
  }
}
