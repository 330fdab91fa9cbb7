/** The record store: three whole-collection documents and a first-launch
    sentinel in a key-value store. Every mutation reads a whole collection,
    changes it, and writes it back whole. */
module Storage {
  import opened Wrappers
  import opened Calendar
  import opened Records
  import opened Seqs
  import Constants

  /** The four keys of `STORAGE_KEYS`. */
  datatype Key = TransactionsKey | CategoriesKey | SettingsKey | FirstLaunchKey

  /** What a key holds, already parsed. `Flag` is the sentinel's raw text. */
  datatype Value = Txs(transactions: seq<Transaction>) | Cats(categories: seq<Category>) | Prefs(settings: Settings) | Flag(text: string)

  type Store = map<Key, Value>

  /** `DEFAULT_SETTINGS`. */
  const DefaultSettings: Settings := Settings(Some(Constants.DefaultCurrency), Some("light"), Some(true), Some("pl"))

  /** Each key holds the shape the service writes there. */
  predicate WellTyped(s: Store) {
    (TransactionsKey in s ==> s[TransactionsKey].Txs?) &&
    (CategoriesKey in s ==> s[CategoriesKey].Cats?) &&
    (SettingsKey in s ==> s[SettingsKey].Prefs?) &&
    (FirstLaunchKey in s ==> s[FirstLaunchKey].Flag?)
  }

  /** `getTransactions`: the stored list, or `[]` when the key is absent. */
  function TransactionsIn(s: Store): seq<Transaction> {
    if TransactionsKey in s && s[TransactionsKey].Txs? then s[TransactionsKey].transactions else []
  }

  /** `getCategories`: the stored list, or `[]` when the key is absent. */
  function CategoriesIn(s: Store): seq<Category> {
    if CategoriesKey in s && s[CategoriesKey].Cats? then s[CategoriesKey].categories else []
  }

  /** `getSettings`: the stored object, or `DEFAULT_SETTINGS` when the key is absent. */
  function SettingsIn(s: Store): Settings {
    if SettingsKey in s && s[SettingsKey].Prefs? then s[SettingsKey].settings else DefaultSettings
  }

  /** The sentinel is set: `getItem` returned a non-empty string. */
  predicate Seeded(s: Store) {
    FirstLaunchKey in s && s[FirstLaunchKey] != Flag("")
  }

  /** The store `initialize` leaves behind: unchanged once seeded, otherwise the
      sentinel, the default categories, the default settings and no transactions. */
  function InitializeSpec(s: Store): (r: Store)
    ensures Seeded(r)
    ensures Seeded(s) ==> r == s
    ensures !Seeded(s) ==>
      TransactionsIn(r) == [] && CategoriesIn(r) == Constants.AllDefaultCategories && SettingsIn(r) == DefaultSettings
    ensures WellTyped(s) ==> WellTyped(r)
  {
    if Seeded(s) then s
    else s[FirstLaunchKey := Flag("true")][CategoriesKey := Cats(Constants.AllDefaultCategories)]
          [SettingsKey := Prefs(DefaultSettings)][TransactionsKey := Txs([])]
  }

  /** The store right after the first launch. */
  const SeededStore: Store := map[
    FirstLaunchKey := Flag("true"),
    CategoriesKey := Cats(Constants.AllDefaultCategories),
    SettingsKey := Prefs(DefaultSettings),
    TransactionsKey := Txs([])]

  /** Initialising twice is initialising once. */
  lemma InitializeIdempotent(s: Store)
    ensures InitializeSpec(InitializeSpec(s)) == InitializeSpec(s)
  {
  }

  /** Removing the four keys and initialising always ends in the first-launch store. */
  lemma ResetIsFresh(s: Store)
    ensures InitializeSpec(s - {TransactionsKey, CategoriesKey, SettingsKey, FirstLaunchKey}) == SeededStore
  {
    var empty := s - {TransactionsKey, CategoriesKey, SettingsKey, FirstLaunchKey};
    forall k: Key ensures k !in empty {
      assert k.TransactionsKey? || k.CategoriesKey? || k.SettingsKey? || k.FirstLaunchKey?;
    }
    assert empty == map[];
  }

  /** `settings.currency || DEFAULT_CURRENCY` and the other fallbacks. */
  function OrElse(value: Option<string>, fallback: string): (r: string)
    ensures fallback != [] ==> r != []
    ensures value.Some? && value.value != [] ==> r == value.value
    ensures !(value.Some? && value.value != []) ==> r == fallback
  {
    if value.Some? && value.value != [] then value.value else fallback
  }

  /** The object `exportData` returns and `importData` reads. A field missing
      from an imported object is `None`; `exportData` fills all four. */
  datatype Snapshot = Snapshot(
    transactions: Option<seq<Transaction>>,
    categories: Option<seq<Category>>,
    settings: Option<Settings>,
    exportedAt: Option<Timestamp>)

  /** `exportData` at time `now`. */
  function ExportSpec(s: Store, now: Timestamp): Snapshot {
    Snapshot(Some(TransactionsIn(s)), Some(CategoriesIn(s)), Some(SettingsIn(s)), Some(now))
  }

  /** `importData`: each collection present in the snapshot replaces the stored
      one; the others stay as they are. */
  function ImportSpec(s: Store, data: Snapshot): (r: Store)
    ensures TransactionsIn(r) == (if data.transactions.Some? then data.transactions.value else TransactionsIn(s))
    ensures CategoriesIn(r) == (if data.categories.Some? then data.categories.value else CategoriesIn(s))
    ensures SettingsIn(r) == (if data.settings.Some? then data.settings.value else SettingsIn(s))
    ensures Seeded(r) == Seeded(s)
    ensures WellTyped(s) ==> WellTyped(r)
  {
    var s1 := if data.transactions.Some? then s[TransactionsKey := Txs(data.transactions.value)] else s;
    var s2 := if data.categories.Some? then s1[CategoriesKey := Cats(data.categories.value)] else s1;
    if data.settings.Some? then s2[SettingsKey := Prefs(data.settings.value)] else s2
  }

  /** Importing what was just exported changes none of the three getters. */
  lemma ImportExportRoundTrip(s: Store, now: Timestamp)
    ensures var r := ImportSpec(s, ExportSpec(s, now));
      TransactionsIn(r) == TransactionsIn(s) && CategoriesIn(r) == CategoriesIn(s) && SettingsIn(r) == SettingsIn(s)
  {
  }

  /** Why an update failed. */
  datatype StoreError = TransactionNotFound | CategoryNotFound

  /** The shallow update of the first record with the given id; every other
      position is left as it was. */
  function ReplaceAt<T>(s: seq<T>, i: nat, x: T): (r: seq<T>)
    requires i < |s|
    ensures |r| == |s| && r[i] == x
    ensures forall j :: 0 <= j < |s| && j != i ==> r[j] == s[j]
  {
    s[i := x]
  }

  class StorageService {
    /** The AsyncStorage contents. */
    var store: Store

    constructor (initial: Store)
      ensures store == initial
    {
      store := initial;
    }

    function Transactions(): seq<Transaction> reads this { TransactionsIn(store) }
    function Categories(): seq<Category> reads this { CategoriesIn(store) }
    function CurrentSettings(): Settings reads this { SettingsIn(store) }

    /** `initialize`: seed once; the result is always `true`. */
    method Initialize() returns (ok: bool)
      modifies this
      ensures ok && store == InitializeSpec(old(store))
    {
      var firstLaunch := if FirstLaunchKey in store then store[FirstLaunchKey] else Flag("");
      if firstLaunch == Flag("") {
        store := store[FirstLaunchKey := Flag("true")];
        store := store[CategoriesKey := Cats(Constants.DefaultExpenseCategories + Constants.DefaultIncomeCategories)];
        store := store[SettingsKey := Prefs(DefaultSettings)];
        store := store[TransactionsKey := Txs([])];
      }
      ok := true;
    }

    /** `getTransactions`. */
    method GetTransactions() returns (ts: seq<Transaction>)
      ensures ts == Transactions()
      ensures TransactionsKey !in store ==> ts == []
    {
      ts := if TransactionsKey in store && store[TransactionsKey].Txs? then store[TransactionsKey].transactions else [];
    }

    /** `addTransaction`: append the new record and return it. */
    method AddTransaction(draft: TransactionDraft, generatedId: string, now: Timestamp) returns (t: Transaction)
      modifies this
      ensures t == NewTransaction(draft, generatedId, now)
      ensures store == old(store)[TransactionsKey := Txs(old(Transactions()) + [t])]
    {
      var transactions := GetTransactions();
      t := NewTransaction(draft, generatedId, now);
      transactions := transactions + [t];
      store := store[TransactionsKey := Txs(transactions)];
    }

    /** `updateTransaction`: the first record with the id becomes the shallow
        merge stamped with `now`; an unknown id fails and writes nothing. */
    method UpdateTransaction(id: string, updates: TransactionPatch, now: Timestamp) returns (r: Result<Transaction, StoreError>)
      modifies this
      ensures var ts := old(Transactions());
        match FindIndex(ts, TransactionWithId(id))
        case None => r == Failure(TransactionNotFound) && store == old(store)
        case Some(i) =>
          r == Success(MergeTransaction(ts[i], updates, now)) &&
          store == old(store)[TransactionsKey := Txs(ReplaceAt(ts, i, r.value))]
    {
      var transactions := GetTransactions();
      var index := FindIndex(transactions, TransactionWithId(id));
      if index.Some? {
        var updated := MergeTransaction(transactions[index.value], updates, now);
        transactions := transactions[index.value := updated];
        store := store[TransactionsKey := Txs(transactions)];
        r := Success(updated);
      } else {
        r := Failure(TransactionNotFound);
      }
    }

    /** `deleteTransaction`: keep the records with another id; always `true`. */
    method DeleteTransaction(id: string) returns (ok: bool)
      modifies this
      ensures ok
      ensures store == old(store)[TransactionsKey := Txs(Filter(old(Transactions()), TransactionWithoutId(id)))]
    {
      var transactions := GetTransactions();
      var filtered := Filter(transactions, TransactionWithoutId(id));
      store := store[TransactionsKey := Txs(filtered)];
      ok := true;
    }

    /** `getTransactionsByDateRange`: the records dated within `[start, end]`, in order. */
    method GetTransactionsByDateRange(start: Timestamp, end: Timestamp) returns (r: seq<Transaction>)
      ensures r == Filter(Transactions(), DatedBetween(start, end))
      ensures forall t :: t in r <==> t in Transactions() && start <= t.date <= end
    {
      var transactions := GetTransactions();
      r := Filter(transactions, DatedBetween(start, end));
    }

    /** `getCategories`. */
    method GetCategories() returns (cs: seq<Category>)
      ensures cs == Categories()
      ensures CategoriesKey !in store ==> cs == []
    {
      cs := if CategoriesKey in store && store[CategoriesKey].Cats? then store[CategoriesKey].categories else [];
    }

    /** `getCategoriesByType`: the categories of one type, in order. */
    method GetCategoriesByType(kind: Kind) returns (cs: seq<Category>)
      ensures forall c :: c in cs <==> c in Categories() && c.kind == kind
      ensures cs == Filter(Categories(), CategoryOfKind(kind))
    {
      var categories := GetCategories();
      cs := Filter(categories, CategoryOfKind(kind));
    }

    /** `addCategory`: append the new category and return it. */
    method AddCategory(draft: CategoryDraft, generatedId: string) returns (c: Category)
      modifies this
      ensures c == NewCategory(draft, generatedId)
      ensures store == old(store)[CategoriesKey := Cats(old(Categories()) + [c])]
    {
      var categories := GetCategories();
      c := NewCategory(draft, generatedId);
      categories := categories + [c];
      store := store[CategoriesKey := Cats(categories)];
    }

    /** `updateCategory`: the first category with the id becomes the shallow
        merge; an unknown id fails and writes nothing. */
    method UpdateCategory(id: string, updates: CategoryPatch) returns (r: Result<Category, StoreError>)
      modifies this
      ensures var cs := old(Categories());
        match FindIndex(cs, CategoryWithId(id))
        case None => r == Failure(CategoryNotFound) && store == old(store)
        case Some(i) =>
          r == Success(MergeCategory(cs[i], updates)) &&
          store == old(store)[CategoriesKey := Cats(ReplaceAt(cs, i, r.value))]
    {
      var categories := GetCategories();
      var index := FindIndex(categories, CategoryWithId(id));
      if index.Some? {
        var updated := MergeCategory(categories[index.value], updates);
        categories := categories[index.value := updated];
        store := store[CategoriesKey := Cats(categories)];
        r := Success(updated);
      } else {
        r := Failure(CategoryNotFound);
      }
    }

    /** `deleteCategory`: keep the categories with another id; always `true`. */
    method DeleteCategory(id: string) returns (ok: bool)
      modifies this
      ensures ok
      ensures store == old(store)[CategoriesKey := Cats(Filter(old(Categories()), CategoryWithoutId(id)))]
    {
      var categories := GetCategories();
      var filtered := Filter(categories, CategoryWithoutId(id));
      store := store[CategoriesKey := Cats(filtered)];
      ok := true;
    }

    /** `getSettings`. */
    method GetSettings() returns (settings: Settings)
      ensures settings == CurrentSettings()
      ensures SettingsKey !in store ==> settings == DefaultSettings
    {
      settings := if SettingsKey in store && store[SettingsKey].Prefs? then store[SettingsKey].settings else DefaultSettings;
    }

    /** `updateSettings`: persist and return the spread of the updates over the
        current settings. */
    method UpdateSettings(updates: Settings) returns (updated: Settings)
      modifies this
      ensures updated == MergeSettings(old(CurrentSettings()), updates)
      ensures store == old(store)[SettingsKey := Prefs(updated)]
    {
      var settings := GetSettings();
      updated := MergeSettings(settings, updates);
      store := store[SettingsKey := Prefs(updated)];
    }

    /** `getCurrency`: the stored currency, or "USD" when it is unset or empty. */
    method GetCurrency() returns (currency: string)
      ensures currency == OrElse(CurrentSettings().currency, Constants.DefaultCurrency)
      ensures currency != []
    {
      var settings := GetSettings();
      currency := OrElse(settings.currency, Constants.DefaultCurrency);
    }

    /** `getTheme`: the stored theme, or "light". */
    method GetTheme() returns (theme: string)
      ensures theme == OrElse(CurrentSettings().theme, "light")
      ensures theme != []
    {
      var settings := GetSettings();
      theme := OrElse(settings.theme, "light");
    }

    /** `getLanguage`: the stored language, or "pl". */
    method GetLanguage() returns (language: string)
      ensures language == OrElse(CurrentSettings().language, "pl")
      ensures language != []
    {
      var settings := GetSettings();
      language := OrElse(settings.language, "pl");
    }

    /** `setCurrency(currency)` is `updateSettings({ currency })`: the key is
        always present in the update, so an undefined argument (`None`) clears it. */
    method SetCurrency(currency: Option<string>) returns (updated: Settings)
      modifies this
      ensures updated == old(CurrentSettings()).(currency := currency)
      ensures store == old(store)[SettingsKey := Prefs(updated)]
    {
      var settings := GetSettings();
      updated := settings.(currency := currency);
      store := store[SettingsKey := Prefs(updated)];
    }

    /** `setTheme(theme)`, as `setCurrency`. */
    method SetTheme(theme: Option<string>) returns (updated: Settings)
      modifies this
      ensures updated == old(CurrentSettings()).(theme := theme)
      ensures store == old(store)[SettingsKey := Prefs(updated)]
    {
      var settings := GetSettings();
      updated := settings.(theme := theme);
      store := store[SettingsKey := Prefs(updated)];
    }

    /** `setLanguage(language)`, as `setCurrency`. */
    method SetLanguage(language: Option<string>) returns (updated: Settings)
      modifies this
      ensures updated == old(CurrentSettings()).(language := language)
      ensures store == old(store)[SettingsKey := Prefs(updated)]
    {
      var settings := GetSettings();
      updated := settings.(language := language);
      store := store[SettingsKey := Prefs(updated)];
    }

    /** `resetAllData`: remove the four keys, initialise again; always `true`. */
    method ResetAllData() returns (ok: bool)
      modifies this
      ensures ok && store == SeededStore
    {
      store := store - {TransactionsKey};
      store := store - {CategoriesKey};
      store := store - {SettingsKey};
      store := store - {FirstLaunchKey};
      assert store == old(store) - {TransactionsKey, CategoriesKey, SettingsKey, FirstLaunchKey};
      ResetIsFresh(old(store));
      var _ := Initialize();
      ok := true;
    }

    /** `exportData` at time `now`. */
    method ExportData(now: Timestamp) returns (data: Snapshot)
      ensures data == ExportSpec(store, now)
      ensures data.transactions == Some(Transactions()) && data.categories == Some(Categories())
      ensures data.settings == Some(CurrentSettings()) && data.exportedAt == Some(now)
    {
      var transactions := GetTransactions();
      var categories := GetCategories();
      var settings := GetSettings();
      data := Snapshot(Some(transactions), Some(categories), Some(settings), Some(now));
    }

    /** `importData`: overwrite the collections the snapshot carries; always `true`. */
    method ImportData(data: Snapshot) returns (ok: bool)
      modifies this
      ensures ok && store == ImportSpec(old(store), data)
    {
      if data.transactions.Some? {
        store := store[TransactionsKey := Txs(data.transactions.value)];
      }
      if data.categories.Some? {
        store := store[CategoriesKey := Cats(data.categories.value)];
      }
      if data.settings.Some? {
        store := store[SettingsKey := Prefs(data.settings.value)];
      }
      ok := true;
    }
  }
}
