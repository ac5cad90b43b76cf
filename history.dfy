/**
 * The transaction history view: a sorted copy of the store's records,
 * newest day first, each shown with a '+' or '-' according to its kind.
 */
module History {
  import opened Calendar
  import opened Ledger
  import opened Sorting
  import Expenses

  /**
   * The sort key of the comparator `time(b.date) - time(a.date)`: a later
   * day has a smaller key, so it sorts first.
   */
  function Newness(t: Transaction): int {
    -DayNumber(t.date)
  }

  /**
   * `[...expenses].sort(...)`: a copy of the list holding the same records,
   * each day before every earlier day.
   */
  function SortedExpenses(expenses: seq<Transaction>): (sorted: seq<Transaction>)
    ensures multiset(sorted) == multiset(expenses)
    ensures |sorted| == |expenses|
    ensures forall i, j :: 0 <= i < j < |sorted| ==> !sorted[i].date.Before(sorted[j].date)
  {
    var sorted := SortBy(expenses, Newness);
    assert |sorted| == |multiset(sorted)| == |multiset(expenses)| == |expenses|;
    forall i, j | 0 <= i < j < |sorted| ensures !sorted[i].date.Before(sorted[j].date) {
      DayNumberOrder(sorted[i].date, sorted[j].date);
    }
    sorted
  }

  /** The records of `expenses` dated `d`, in their order there. */
  function OnDate(expenses: seq<Transaction>, d: CalendarDate): seq<Transaction> {
    if expenses == [] then []
    else (if expenses[0].date == d then [expenses[0]] else []) + OnDate(expenses[1..], d)
  }

  /** Records of one day are exactly the records of one sort key. */
  lemma {:induction false} OnDateIsWithRank(expenses: seq<Transaction>, d: CalendarDate)
    ensures OnDate(expenses, d) == WithRank(expenses, Newness, Newness(Transaction("", 0, "", "", d, Income)))
  {
    if expenses != [] {
      DayNumberOrder(expenses[0].date, d);
      OnDateIsWithRank(expenses[1..], d);
    }
  }

  /**
   * Records dated the same day appear in the sorted copy in the order the
   * store holds them: the sort is stable.
   */
  lemma SameDayKeepsStoreOrder(expenses: seq<Transaction>, d: CalendarDate)
    ensures OnDate(SortedExpenses(expenses), d) == OnDate(expenses, d)
  {
    var key := Newness(Transaction("", 0, "", "", d, Income));
    OnDateIsWithRank(expenses, d);
    OnDateIsWithRank(SortedExpenses(expenses), d);
    SortIsStable(expenses, Newness, key);
  }

  /**
   * Reading the history leaves the store as it is: the sort works on a copy
   * of the list, and the store's own order is unchanged.
   */
  method ShowHistory(store: Expenses.ExpenseStore) returns (sorted: seq<Transaction>)
    ensures sorted == SortedExpenses(store.expenses)
    ensures store.expenses == old(store.expenses)
  {
    var copy := store.expenses;
    sorted := SortedExpenses(copy);
  }

  /** The sign shown before a record's amount. */
  function SignSymbol(kind: Kind): (symbol: char)
    ensures symbol == '+' <==> kind == Income
    ensures symbol == '-' <==> kind == Expense
  {
    match kind
    case Income => '+'
    case Expense => '-'
  }
}
