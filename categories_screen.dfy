/** The categories screen: the two sections it lists (expense categories, then
    income categories, each with its all-time total), the add form and its name
    guard, and the delete handler that refuses a category still in use. */
module CategoriesScreen {
  import opened Wrappers
  import opened Records
  import opened Seqs
  import opened Text
  import opened MoneyUtils
  import opened Storage
  import opened AppContext

  /** A listed category: the category spread, plus `total`. */
  datatype CategoryRow = CategoryRow(category: Category, total: real)

  /** A section of the list; `kind` stands for its translated title. */
  datatype Section = Section(kind: Kind, rows: seq<CategoryRow>)

  /** The section of one type: its categories in order, each with the total of
      the records of that category and that type. */
  function SectionOf(categories: seq<Category>, ts: seq<Transaction>, kind: Kind): (s: Section)
    ensures s.kind == kind && |s.rows| == |CategoriesOfKind(categories, kind)|
    ensures forall i :: 0 <= i < |s.rows| ==>
      && s.rows[i].category == CategoriesOfKind(categories, kind)[i]
      && s.rows[i].total == CategoryTotal(ts, s.rows[i].category.id, Some(kind))
  {
    var cs := CategoriesOfKind(categories, kind);
    Section(kind, seq(|cs|, i requires 0 <= i < |cs| => CategoryRow(cs[i], CategoryTotal(ts, cs[i].id, Some(kind)))))
  }

  predicate NonEmpty(s: Section) {
    s.rows != []
  }

  /** `[expenseSection, incomeSection].filter(s => s.data.length > 0)`. */
  function Sections(categories: seq<Category>, ts: seq<Transaction>): (r: seq<Section>)
    ensures forall s :: s in r ==> s.rows != [] && s == SectionOf(categories, ts, s.kind)
    ensures |r| <= 2
    ensures (exists c :: c in categories && c.kind == Expense) <==> |r| > 0 && r[0].kind == Expense
    ensures (exists c :: c in categories && c.kind == Income) <==> |r| > 0 && r[|r| - 1].kind == Income
    ensures forall c :: c in categories && (c.kind == Expense || c.kind == Income) <==>
      exists s, row :: s in r && row in s.rows && row.category == c
    ensures r == (if exists c :: c in categories && c.kind == Expense then [SectionOf(categories, ts, Expense)] else [])
               + (if exists c :: c in categories && c.kind == Income then [SectionOf(categories, ts, Income)] else [])
  {
    SectionsShape(categories, ts);
    SectionsCover(categories, ts);
    SectionsExact(categories, ts);
    Filter(BothSections(categories, ts), NonEmpty)
  }

  /** The two candidate sections, expense first. */
  function BothSections(categories: seq<Category>, ts: seq<Transaction>): seq<Section> {
    [SectionOf(categories, ts, Expense), SectionOf(categories, ts, Income)]
  }

  /** Which sections survive the filter, and in what order. */
  lemma SectionsShape(categories: seq<Category>, ts: seq<Transaction>)
    ensures var r := Filter(BothSections(categories, ts), NonEmpty);
      && (forall s :: s in r ==> s.rows != [] && s == SectionOf(categories, ts, s.kind))
      && |r| <= 2
      && ((exists c :: c in categories && c.kind == Expense) <==> |r| > 0 && r[0].kind == Expense)
      && ((exists c :: c in categories && c.kind == Income) <==> |r| > 0 && r[|r| - 1].kind == Income)
  {
    SectionHolds(categories, ts, Expense);
    SectionHolds(categories, ts, Income);
    assert Expense != Income by {
      assert Expense[0] != Income[0];
    }
    FilterPair(SectionOf(categories, ts, Expense), SectionOf(categories, ts, Income));
  }

  /** The expense section comes first and each section is there exactly when its
      type has a category. */
  lemma SectionsExact(categories: seq<Category>, ts: seq<Transaction>)
    ensures Filter(BothSections(categories, ts), NonEmpty)
      == (if exists c :: c in categories && c.kind == Expense then [SectionOf(categories, ts, Expense)] else [])
       + (if exists c :: c in categories && c.kind == Income then [SectionOf(categories, ts, Income)] else [])
  {
    SectionHolds(categories, ts, Expense);
    SectionHolds(categories, ts, Income);
    FilterPair(SectionOf(categories, ts, Expense), SectionOf(categories, ts, Income));
  }

  /** The surviving sections list every expense and income category and nothing else. */
  lemma SectionsCover(categories: seq<Category>, ts: seq<Transaction>)
    ensures var r := Filter(BothSections(categories, ts), NonEmpty);
      forall c :: c in categories && (c.kind == Expense || c.kind == Income) <==>
        exists s, row :: s in r && row in s.rows && row.category == c
  {
    SectionHolds(categories, ts, Expense);
    SectionHolds(categories, ts, Income);
    FilterPair(SectionOf(categories, ts, Expense), SectionOf(categories, ts, Income));
  }

  /** Filtering a two-element list keeps each element that passes, in order. */
  lemma FilterPair(a: Section, b: Section)
    ensures Filter([a, b], NonEmpty) == (if NonEmpty(a) then [a] else []) + (if NonEmpty(b) then [b] else [])
  {
    assert [a, b] == [a] + [b];
    FilterAppend([a], [b], NonEmpty);
    assert [a][1..] == [] && [b][1..] == [];
  }

  /** A section lists exactly the categories of its type, so it is empty
      exactly when there is none. */
  lemma SectionHolds(categories: seq<Category>, ts: seq<Transaction>, kind: Kind)
    ensures var s := SectionOf(categories, ts, kind);
      forall c :: c in categories && c.kind == kind <==> exists row :: row in s.rows && row.category == c
    ensures SectionOf(categories, ts, kind).rows != [] <==> exists c :: c in categories && c.kind == kind
  {
    var s := SectionOf(categories, ts, kind);
    var cs := CategoriesOfKind(categories, kind);
    forall c | c in categories && c.kind == kind ensures exists row :: row in s.rows && row.category == c {
      var i :| 0 <= i < |cs| && cs[i] == c;
      assert s.rows[i] in s.rows;
    }
    if s.rows != [] {
      assert s.rows[0] in s.rows;
    }
  }

  /** The add-category modal: the fields the user fills in, and whether it is open. */
  class CategoryForm {
    var name: string
    var kind: Kind
    var icon: string
    var color: string
    var showAddModal: bool

    /** The form's initial state. */
    constructor ()
      ensures name == "" && kind == Expense && icon == DefaultIcon && color == DefaultColor && !showAddModal
    {
      name := "";
      kind := Expense;
      icon := DefaultIcon;
      color := DefaultColor;
      showAddModal := false;
    }

    /** `handleAddCategory`: refuse a name that trims to nothing; otherwise add the
        category under the name as typed, and reset and close the form. */
    method HandleAddCategory(app: AppProvider, generatedId: string) returns (outcome: AddOutcome)
      modifies this, app, app.service
      ensures Blank(old(name)) ==> outcome == NameMissing
      ensures Blank(old(name)) ==> unchanged(this) && unchanged(app) && unchanged(app.service)
      ensures !Blank(old(name)) ==>
        && outcome == Added(NewCategory(CategoryDraft(None, old(name), old(kind), old(icon), old(color)), generatedId))
        && app.categories == old(app.categories) + [outcome.category]
        && app.transactions == old(app.transactions) && app.settings == old(app.settings)
        && app.service.store == old(app.service.store)[CategoriesKey := Cats(old(app.service.Categories()) + [outcome.category])]
        && name == "" && kind == Expense && icon == DefaultIcon && color == DefaultColor && !showAddModal
      ensures old(app.Synced()) ==> app.Synced()
    {
      if Trim(name) == [] {
        return NameMissing;
      }
      var c := app.AddCategory(CategoryDraft(None, name, kind, icon, color), generatedId);
      Reset();
      outcome := Added(c);
    }

    /** Clears the fields to their initial values and closes the modal. */
    method Reset()
      modifies this
      ensures name == "" && kind == Expense && icon == DefaultIcon && color == DefaultColor && !showAddModal
    {
      name := "";
      kind := Expense;
      icon := DefaultIcon;
      color := DefaultColor;
      showAddModal := false;
    }
  }

  const DefaultIcon: string := "📌"
  const DefaultColor: string := "#95A5A6"

  datatype AddOutcome = NameMissing | Added(category: Category)

  /** The answer to the delete confirmation. */
  datatype Choice = Cancel | Delete

  datatype DeleteOutcome = InUse | Cancelled | Deleted

  /** `handleDeleteCategory`: a category some transaction refers to is refused
      without asking; otherwise the store is changed only if the user picks the
      destructive choice. */
  method HandleDeleteCategory(app: AppProvider, categoryId: string, choice: Choice) returns (outcome: DeleteOutcome)
    modifies app, app.service
    ensures outcome == InUse <==> exists t :: t in old(app.transactions) && t.categoryId == categoryId
    ensures outcome == Deleted <==> outcome != InUse && choice == Delete
    ensures outcome != Deleted ==> unchanged(app) && unchanged(app.service)
    ensures outcome == Deleted ==>
      && app.categories == Filter(old(app.categories), CategoryWithoutId(categoryId))
      && app.service.store == old(app.service.store)[CategoriesKey := Cats(Filter(old(app.service.Categories()), CategoryWithoutId(categoryId)))]
    ensures old(app.Synced()) ==> app.Synced()
  {
    var hasTransactions := exists t :: t in app.transactions && t.categoryId == categoryId;
    if hasTransactions {
      return InUse;
    }
    match choice
    case Cancel =>
      outcome := Cancelled;
    case Delete =>
      app.DeleteCategory(categoryId);
      outcome := Deleted;
  }
}
