/** The transactions list: the type filter, the copy sorted latest first, and
    the grouping of the sorted copy by calendar day. */
module TransactionsScreen {
  import opened Calendar
  import opened Records
  import opened Seqs
  import opened Dicts
  import opened MoneyUtils
  import opened DashboardScreen

  /** The filter value that keeps every record. */
  const AllTypes: string := "all"

  /** `filter === 'all' ? transactions : transactions.filter(t => t.type === filter)`. */
  function FilterByType(ts: seq<Transaction>, filter: string): (r: seq<Transaction>)
    ensures filter == AllTypes ==> r == ts
    ensures filter != AllTypes ==> forall t :: t in r <==> t in ts && t.kind == filter
    ensures |r| <= |ts|
  {
    if filter == AllTypes then ts else OfKind(ts, filter)
  }

  /** The key a record is grouped under (`formatDate(transaction.date)`). */
  function DayOfTransaction(t: Transaction): CivilDay {
    DayKey(t.date)
  }

  /** The focus effect of the list: filter, sort a copy latest first, then group
      the sorted copy by day. Each group keeps the sorted order, the days are
      listed in order of first appearance, and every listed record sits in the
      group of its own day and in no other. */
  method GroupedByDay(ts: seq<Transaction>, filter: string) returns (sorted: seq<Transaction>, grouped: Dict<CivilDay, seq<Transaction>>)
    ensures SortedDesc(sorted, DateOf)
    ensures multiset(sorted) == multiset(FilterByType(ts, filter))
    ensures grouped.keys == Distinct(KeysOf(sorted, DayOfTransaction))
    ensures forall t, k :: t in sorted && k in grouped.entries ==> (t in grouped.entries[k] <==> DayOfTransaction(t) == k)
    ensures forall t :: t in sorted ==> DayOfTransaction(t) in grouped.entries
    ensures forall k :: k in grouped.entries ==> grouped.entries[k] != [] && SortedDesc(grouped.entries[k], DateOf)
    ensures ItemCount(grouped) == |sorted| as real
  {
    var filtered := FilterByType(ts, filter);
    sorted := SortDesc(filtered, DateOf);
    grouped := GroupBy(sorted, DayOfTransaction);
    GroupingCovers(grouped, sorted, DayOfTransaction);
    forall k | k in grouped.entries ensures SortedDesc(grouped.entries[k], DateOf) {
      BucketKeepsSorted(sorted, DayOfTransaction, k, DateOf);
    }
  }
}
