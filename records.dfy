/** The three persisted entities (transaction, category, settings), the drafts the
    screens hand to `add*`, the partial objects they hand to `update*`, and the
    object spreads that combine them. */
module Records {
  import opened Wrappers
  import opened Calendar

  /** The source's `type` field. The screens only ever write "income" or
      "expense", but nothing enforces that, and the sums treat every other
      string as not-income. */
  type Kind = string

  const Income: Kind := "income"
  const Expense: Kind := "expense"

  /** A stored transaction. `kind` is the source's `type`; amounts are exact. */
  datatype Transaction = Transaction(
    id: string,
    kind: Kind,
    amount: real,
    categoryId: string,
    date: Timestamp,
    comment: Option<string>,
    createdAt: Timestamp,
    updatedAt: Option<Timestamp>)

  /** The key transactions are grouped and totalled by. */
  function CategoryOf(t: Transaction): string {
    t.categoryId
  }

  /** The tests the source passes to `find`, `findIndex` and `filter`. */
  function TransactionWithId(id: string): Transaction -> bool { (t: Transaction) => t.id == id }
  function TransactionWithoutId(id: string): Transaction -> bool { (t: Transaction) => t.id != id }
  function CategoryWithId(id: string): Category -> bool { (c: Category) => c.id == id }
  function CategoryWithoutId(id: string): Category -> bool { (c: Category) => c.id != id }
  function CategoryOfKind(kind: Kind): Category -> bool { (c: Category) => c.kind == kind }
  function DatedBetween(start: Timestamp, end: Timestamp): Transaction -> bool {
    (t: Transaction) => start <= t.date <= end
  }

  /** The object passed to `addTransaction`. Besides the business fields it may
      carry its own `id`, `createdAt` or `updatedAt`; being spread last, they win
      over the generated ones. */
  datatype TransactionDraft = TransactionDraft(
    id: Option<string>,
    createdAt: Option<Timestamp>,
    updatedAt: Option<Timestamp>,
    kind: Kind,
    amount: real,
    categoryId: string,
    date: Timestamp,
    comment: Option<string>)

  /** The `updates` object of `updateTransaction`: only the present fields are spread. */
  datatype TransactionPatch = TransactionPatch(
    id: Option<string>,
    kind: Option<Kind>,
    amount: Option<real>,
    categoryId: Option<string>,
    date: Option<Timestamp>,
    comment: Option<string>,
    createdAt: Option<Timestamp>,
    updatedAt: Option<Timestamp>)

  datatype Category = Category(id: string, name: string, kind: Kind, icon: string, color: string)

  /** The object passed to `addCategory`; an `id` of its own wins over the generated one. */
  datatype CategoryDraft = CategoryDraft(id: Option<string>, name: string, kind: Kind, icon: string, color: string)

  datatype CategoryPatch = CategoryPatch(
    id: Option<string>, name: Option<string>, kind: Option<Kind>, icon: Option<string>, color: Option<string>)

  /** The settings object. Every field may be missing (the in-memory mirror starts
      as `{}`, and an imported object may lack any of them), and the same shape
      serves as the partial object of `updateSettings`. */
  datatype Settings = Settings(
    currency: Option<string>,
    theme: Option<string>,
    notifications: Option<bool>,
    language: Option<string>)

  const NoSettings: Settings := Settings(None, None, None, None)

  /** `{ id: generatedId, createdAt: now, ...draft }`. */
  function NewTransaction(draft: TransactionDraft, generatedId: string, now: Timestamp): (t: Transaction)
    ensures t.id == (if draft.id.Some? then draft.id.value else generatedId)
    ensures t.createdAt == (if draft.createdAt.Some? then draft.createdAt.value else now)
    ensures t.updatedAt == draft.updatedAt
    ensures (t.kind, t.amount, t.categoryId, t.date, t.comment)
         == (draft.kind, draft.amount, draft.categoryId, draft.date, draft.comment)
  {
    Transaction(draft.id.GetOr(generatedId), draft.kind, draft.amount, draft.categoryId, draft.date,
                draft.comment, draft.createdAt.GetOr(now), draft.updatedAt)
  }

  /** `{ ...t, ...updates, updatedAt: now }`: the stamp is written last, so an
      `updatedAt` among the updates never survives. */
  function MergeTransaction(t: Transaction, updates: TransactionPatch, now: Timestamp): (r: Transaction)
    ensures r.updatedAt == Some(now)
    ensures r.id == updates.id.GetOr(t.id) && r.kind == updates.kind.GetOr(t.kind)
    ensures r.amount == updates.amount.GetOr(t.amount) && r.categoryId == updates.categoryId.GetOr(t.categoryId)
    ensures r.date == updates.date.GetOr(t.date) && r.createdAt == updates.createdAt.GetOr(t.createdAt)
    ensures r.comment == (if updates.comment.Some? then updates.comment else t.comment)
  {
    Transaction(
      updates.id.GetOr(t.id),
      updates.kind.GetOr(t.kind),
      updates.amount.GetOr(t.amount),
      updates.categoryId.GetOr(t.categoryId),
      updates.date.GetOr(t.date),
      if updates.comment.Some? then updates.comment else t.comment,
      updates.createdAt.GetOr(t.createdAt),
      Some(now))
  }

  /** `{ id: generatedId, ...draft }`. */
  function NewCategory(draft: CategoryDraft, generatedId: string): (c: Category)
    ensures c.id == (if draft.id.Some? then draft.id.value else generatedId)
    ensures (c.name, c.kind, c.icon, c.color) == (draft.name, draft.kind, draft.icon, draft.color)
  {
    Category(draft.id.GetOr(generatedId), draft.name, draft.kind, draft.icon, draft.color)
  }

  /** `{ ...c, ...updates }`. */
  function MergeCategory(c: Category, updates: CategoryPatch): (r: Category)
    ensures r.id == updates.id.GetOr(c.id) && r.name == updates.name.GetOr(c.name)
    ensures r.kind == updates.kind.GetOr(c.kind) && r.icon == updates.icon.GetOr(c.icon)
    ensures r.color == updates.color.GetOr(c.color)
  {
    Category(updates.id.GetOr(c.id), updates.name.GetOr(c.name), updates.kind.GetOr(c.kind),
             updates.icon.GetOr(c.icon), updates.color.GetOr(c.color))
  }

  /** The value of a field after spreading `updates` over `current`: the update wins when present. */
  function Spread<V>(current: Option<V>, updates: Option<V>): Option<V> {
    if updates.Some? then updates else current
  }

  /** `{ ...current, ...updates }` on settings. */
  function MergeSettings(current: Settings, updates: Settings): (r: Settings)
    ensures r.currency == Spread(current.currency, updates.currency)
    ensures r.theme == Spread(current.theme, updates.theme)
    ensures r.notifications == Spread(current.notifications, updates.notifications)
    ensures r.language == Spread(current.language, updates.language)
  {
    Settings(
      Spread(current.currency, updates.currency),
      Spread(current.theme, updates.theme),
      Spread(current.notifications, updates.notifications),
      Spread(current.language, updates.language))
  }

  /** Two successive settings updates equal one update by the spread of the two,
      and repeating an update changes nothing. */
  lemma MergeSettingsCompose(current: Settings, first: Settings, second: Settings)
    ensures MergeSettings(MergeSettings(current, first), second)
         == MergeSettings(current, MergeSettings(first, second))
    ensures MergeSettings(MergeSettings(current, first), first) == MergeSettings(current, first)
    ensures MergeSettings(current, NoSettings) == current
  {
  }
}
