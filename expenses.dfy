/**
 * The `useExpenses` hook: the list of transactions it holds, the three
 * operations that replace that list, and the queries the dashboard runs over
 * it (the current month's totals, the monthly series, the category
 * breakdown and the colour of a category).
 */
module Expenses {
  import opened Calendar
  import opened Sorting
  import opened Ledger

  // ---------------------------------------------------------------------------
  // The store
  // ---------------------------------------------------------------------------

  /** `expenses.filter(expense => expense.id !== id)`. */
  function WithoutId(s: seq<Transaction>, id: string): seq<Transaction> {
    if s == [] then []
    else (if s[0].id == id then [] else [s[0]]) + WithoutId(s[1..], id)
  }

  /** Every record carrying `id` is removed and every other record keeps its multiplicity. */
  lemma {:induction false} WithoutIdCounts(s: seq<Transaction>, id: string, t: Transaction)
    ensures multiset(WithoutId(s, id))[t] == if t.id == id then 0 else multiset(s)[t]
  {
    if s != [] {
      assert s == [s[0]] + s[1..];
      WithoutIdCounts(s[1..], id, t);
    }
  }

  /** Filtering keeps the survivors in their original order. */
  lemma {:induction false} WithoutIdKeepsOrder(a: seq<Transaction>, b: seq<Transaction>, id: string)
    ensures WithoutId(a + b, id) == WithoutId(a, id) + WithoutId(b, id)
  {
    if a == [] {
      assert a + b == b;
    } else {
      assert (a + b)[0] == a[0] && (a + b)[1..] == a[1..] + b;
      WithoutIdKeepsOrder(a[1..], b, id);
    }
  }

  /** Deleting an id nobody carries changes nothing, and only then. */
  lemma {:induction false} WithoutIdUnchanged(s: seq<Transaction>, id: string)
    ensures WithoutId(s, id) == s <==> forall i :: 0 <= i < |s| ==> s[i].id != id
  {
    if forall i :: 0 <= i < |s| ==> s[i].id != id {
      if s != [] {
        WithoutIdUnchanged(s[1..], id);
        assert s == [s[0]] + s[1..];
      }
    } else {
      var i :| 0 <= i < |s| && s[i].id == id;
      assert s[i] in multiset(s);
      WithoutIdCounts(s, id, s[i]);
    }
  }

  /**
   * Deleting the id just given to a new record removes that record, and with
   * it every older record that happens to carry the same id.
   */
  lemma DeleteUndoesAdd(s: seq<Transaction>, draft: Draft, id: string)
    ensures WithoutId(s + [draft.WithId(id)], id) == WithoutId(s, id)
  {
    WithoutIdKeepsOrder(s, [draft.WithId(id)], id);
    assert [draft.WithId(id)][1..] == [];
  }

  /**
   * The state the hook keeps: `expenses`, replaced as a whole by every
   * operation (React state is never mutated in place).
   */
  class ExpenseStore {
    var expenses: seq<Transaction>

    /** `useState<Expense[]>([])`; the first load from storage is not modelled. */
    constructor ()
      ensures expenses == []
    {
      expenses := [];
    }

    /** `saveExpenses`: the new list becomes the state (and is what gets persisted). */
    method Save(newExpenses: seq<Transaction>)
      modifies this
      ensures expenses == newExpenses
    {
      expenses := newExpenses;
    }

    /** `addExpense`: appends one record carrying the draft's fields and the new id. */
    method Add(draft: Draft, id: string)
      modifies this
      ensures |expenses| == |old(expenses)| + 1
      ensures expenses[..|old(expenses)|] == old(expenses)
      ensures expenses[|old(expenses)|] == draft.WithId(id)
    {
      var newExpenses := expenses + [draft.WithId(id)];
      Save(newExpenses);
    }

    /** `deleteExpense`: keeps every record whose id differs, in order; no error when none matches. */
    method Delete(id: string)
      modifies this
      ensures expenses == WithoutId(old(expenses), id)
      ensures (forall i :: 0 <= i < |old(expenses)| ==> old(expenses)[i].id != id) ==> expenses == old(expenses)
    {
      WithoutIdUnchanged(expenses, id);
      var newExpenses := WithoutId(expenses, id);
      Save(newExpenses);
    }
  }

  // ---------------------------------------------------------------------------
  // Sums the queries are specified by
  // ---------------------------------------------------------------------------

  /** Total amount of the records of `kind`. */
  function KindTotal(txs: seq<Transaction>, kind: Kind): int {
    if txs == [] then 0
    else
      var t := txs[|txs| - 1];
      KindTotal(txs[..|txs| - 1], kind) + (if t.kind == kind then t.amount else 0)
  }

  /** Total amount of the records of `kind` dated in month `k`. */
  function MonthTotal(txs: seq<Transaction>, k: CalendarMonth, kind: Kind): int {
    if txs == [] then 0
    else
      var t := txs[|txs| - 1];
      MonthTotal(txs[..|txs| - 1], k, kind) + (if MonthOf(t.date) == k && t.kind == kind then t.amount else 0)
  }

  /** Total amount of the records of `kind` dated in any month of `months`. */
  function MonthsTotal(txs: seq<Transaction>, months: set<CalendarMonth>, kind: Kind): int {
    if txs == [] then 0
    else
      var t := txs[|txs| - 1];
      MonthsTotal(txs[..|txs| - 1], months, kind) + (if MonthOf(t.date) in months && t.kind == kind then t.amount else 0)
  }

  /** The months that hold at least one record. */
  function MonthSet(txs: seq<Transaction>): set<CalendarMonth> {
    if txs == [] then {} else MonthSet(txs[..|txs| - 1]) + {MonthOf(txs[|txs| - 1].date)}
  }

  /** Total amount of the expense records of category `c`. */
  function CategoryTotal(txs: seq<Transaction>, c: string): int {
    if txs == [] then 0
    else
      var t := txs[|txs| - 1];
      CategoryTotal(txs[..|txs| - 1], c) + (if t.kind == Expense && t.category == c then t.amount else 0)
  }

  /** Total amount of the expense records whose category is in `cs`. */
  function CategoriesTotal(txs: seq<Transaction>, cs: set<string>): int {
    if txs == [] then 0
    else
      var t := txs[|txs| - 1];
      CategoriesTotal(txs[..|txs| - 1], cs) + (if t.kind == Expense && t.category in cs then t.amount else 0)
  }

  /** The categories of the expense records. */
  function CategorySet(txs: seq<Transaction>): set<string> {
    if txs == [] then {}
    else
      var t := txs[|txs| - 1];
      CategorySet(txs[..|txs| - 1]) + (if t.kind == Expense then {t.category} else {})
  }

  lemma {:induction false} MonthTotalOutside(txs: seq<Transaction>, k: CalendarMonth, kind: Kind)
    requires k !in MonthSet(txs)
    ensures MonthTotal(txs, k, kind) == 0
  {
    if txs != [] {
      MonthTotalOutside(txs[..|txs| - 1], k, kind);
    }
  }

  lemma {:induction false} MonthsTotalSplit(txs: seq<Transaction>, months: set<CalendarMonth>, k: CalendarMonth, kind: Kind)
    requires k !in months
    ensures MonthsTotal(txs, months + {k}, kind) == MonthsTotal(txs, months, kind) + MonthTotal(txs, k, kind)
  {
    if txs != [] {
      MonthsTotalSplit(txs[..|txs| - 1], months, k, kind);
    }
  }

  lemma {:induction false} MonthsTotalNone(txs: seq<Transaction>, kind: Kind)
    ensures MonthsTotal(txs, {}, kind) == 0
  {
    if txs != [] {
      MonthsTotalNone(txs[..|txs| - 1], kind);
    }
  }

  lemma {:induction false} MonthsTotalCovers(txs: seq<Transaction>, months: set<CalendarMonth>, kind: Kind)
    requires MonthSet(txs) <= months
    ensures MonthsTotal(txs, months, kind) == KindTotal(txs, kind)
  {
    if txs != [] {
      MonthsTotalCovers(txs[..|txs| - 1], months, kind);
    }
  }

  lemma {:induction false} CategoriesTotalSplit(txs: seq<Transaction>, cs: set<string>, c: string)
    requires c !in cs
    ensures CategoriesTotal(txs, cs + {c}) == CategoriesTotal(txs, cs) + CategoryTotal(txs, c)
  {
    if txs != [] {
      CategoriesTotalSplit(txs[..|txs| - 1], cs, c);
    }
  }

  lemma {:induction false} CategoriesTotalNone(txs: seq<Transaction>)
    ensures CategoriesTotal(txs, {}) == 0
  {
    if txs != [] {
      CategoriesTotalNone(txs[..|txs| - 1]);
    }
  }

  lemma {:induction false} CategoriesTotalCovers(txs: seq<Transaction>, cs: set<string>)
    requires CategorySet(txs) <= cs
    ensures CategoriesTotal(txs, cs) == KindTotal(txs, Expense)
  {
    if txs != [] {
      CategoriesTotalCovers(txs[..|txs| - 1], cs);
    }
  }

  lemma {:induction false} CategoryTotalOutside(txs: seq<Transaction>, c: string)
    requires c !in CategorySet(txs)
    ensures CategoryTotal(txs, c) == 0
  {
    if txs != [] {
      CategoryTotalOutside(txs[..|txs| - 1], c);
    }
  }

  /** A list has expense categories exactly when it has an expense record. */
  lemma {:induction false} CategorySetEmpty(txs: seq<Transaction>)
    ensures CategorySet(txs) == {} <==> forall i :: 0 <= i < |txs| ==> txs[i].kind == Income
  {
    if txs != [] {
      var init := txs[..|txs| - 1];
      CategorySetEmpty(init);
      assert forall i :: 0 <= i < |init| ==> init[i] == txs[i];
    }
  }

  // ---------------------------------------------------------------------------
  // getCurrentMonthData
  // ---------------------------------------------------------------------------

  datatype Summary = Summary(income: int, expenses: int, savings: int)

  /** `parseISO(date) >= startOfMonth(now) && parseISO(date) <= endOfMonth(now)`. */
  predicate InMonthOf(d: CalendarDate, now: CalendarDate) {
    DayNumber(FirstDay(MonthOf(now))) <= DayNumber(d) <= DayNumber(LastDay(MonthOf(now)))
  }

  /** The records the first `filter` of `getCurrentMonthData` keeps, in order. */
  function DatedInMonthOf(txs: seq<Transaction>, now: CalendarDate): seq<Transaction> {
    if txs == [] then []
    else
      var t := txs[|txs| - 1];
      DatedInMonthOf(txs[..|txs| - 1], now) + (if InMonthOf(t.date, now) then [t] else [])
  }

  lemma {:induction false} DatedInMonthTotal(txs: seq<Transaction>, now: CalendarDate, kind: Kind)
    ensures KindTotal(DatedInMonthOf(txs, now), kind) == MonthTotal(txs, MonthOf(now), kind)
  {
    if txs != [] {
      var init, t := txs[..|txs| - 1], txs[|txs| - 1];
      DatedInMonthTotal(init, now, kind);
      WithinMonthBounds(t.date, MonthOf(now));
      var kept := DatedInMonthOf(init, now);
      if InMonthOf(t.date, now) {
        assert (kept + [t])[..|kept + [t]| - 1] == kept;
      } else {
        assert kept + [] == kept;
      }
    }
  }

  /**
   * `getCurrentMonthData`, with the clock's reading passed in as `now`: the
   * income and expense totals of the records dated in now's calendar month
   * (first and last day included) and their difference.
   */
  function CurrentMonthData(txs: seq<Transaction>, now: CalendarDate): (s: Summary)
    ensures s.income == MonthTotal(txs, MonthOf(now), Income)
    ensures s.expenses == MonthTotal(txs, MonthOf(now), Expense)
    ensures s.savings == s.income - s.expenses
  {
    var current := DatedInMonthOf(txs, now);
    var income := KindTotal(current, Income);
    var spent := KindTotal(current, Expense);
    DatedInMonthTotal(txs, now, Income);
    DatedInMonthTotal(txs, now, Expense);
    Summary(income, spent, income - spent)
  }

  /** A month without records reports zero income, zero expenses and zero savings. */
  lemma QuietMonthIsZero(txs: seq<Transaction>, now: CalendarDate)
    requires forall i :: 0 <= i < |txs| ==> MonthOf(txs[i].date) != MonthOf(now)
    ensures CurrentMonthData(txs, now) == Summary(0, 0, 0)
  {
    MonthSetMembers(txs);
    MonthTotalOutside(txs, MonthOf(now), Income);
    MonthTotalOutside(txs, MonthOf(now), Expense);
  }

  lemma {:induction false} MonthSetMembers(txs: seq<Transaction>)
    ensures forall k :: k in MonthSet(txs) <==> exists i :: 0 <= i < |txs| && MonthOf(txs[i].date) == k
  {
    if txs != [] {
      var init := txs[..|txs| - 1];
      MonthSetMembers(init);
      assert forall i :: 0 <= i < |init| ==> init[i] == txs[i];
    }
  }

  // ---------------------------------------------------------------------------
  // getMonthlyData
  // ---------------------------------------------------------------------------

  /** The row the series holds for month `k`. */
  function MonthRow(txs: seq<Transaction>, k: CalendarMonth): MonthlyRow {
    var income := MonthTotal(txs, k, Income);
    var spent := MonthTotal(txs, k, Expense);
    MonthlyRow(k, income, spent, income - spent)
  }

  /** The sort key `new Date(row.month).getTime()`. */
  function RowRank(r: MonthlyRow): int {
    MonthRank(r.month)
  }

  /** The keys of the month map in insertion order: each month where it first occurs. */
  function FirstSeenMonths(txs: seq<Transaction>): (ks: seq<CalendarMonth>)
    ensures NoDuplicates(ks)
    ensures forall k :: k in ks <==> k in MonthSet(txs)
  {
    if txs == [] then []
    else
      var ks := FirstSeenMonths(txs[..|txs| - 1]);
      var k := MonthOf(txs[|txs| - 1].date);
      if k in ks then ks else ks + [k]
  }

  function RowsFor(txs: seq<Transaction>, ks: seq<CalendarMonth>): seq<MonthlyRow> {
    seq(|ks|, i requires 0 <= i < |ks| => MonthRow(txs, ks[i]))
  }

  /** The series `getMonthlyData` returns: the map's rows sorted by their month's instant. */
  function MonthlySeries(txs: seq<Transaction>): seq<MonthlyRow> {
    SortBy(RowsFor(txs, FirstSeenMonths(txs)), RowRank)
  }

  /**
   * What the series means: one row per month that holds a record and none
   * for any other month, each row carrying that month's totals, the rows in
   * strictly increasing calendar order.
   */
  ghost predicate IsMonthlySeries(txs: seq<Transaction>, rows: seq<MonthlyRow>) {
    && (forall i, j :: 0 <= i < j < |rows| ==> rows[i].month.Before(rows[j].month))
    && (forall i :: 0 <= i < |rows| ==> rows[i].month in MonthSet(txs) && rows[i] == MonthRow(txs, rows[i].month))
    && (forall k :: k in MonthSet(txs) ==> MonthRow(txs, k) in rows)
  }

  lemma MonthlySeriesMeaning(txs: seq<Transaction>)
    ensures IsMonthlySeries(txs, MonthlySeries(txs))
  {
    var ks := FirstSeenMonths(txs);
    var unsorted := RowsFor(txs, ks);
    var rows := MonthlySeries(txs);
    forall i, j | 0 <= i < |unsorted| && 0 <= j < |unsorted| && i != j
      ensures RowRank(unsorted[i]) != RowRank(unsorted[j])
    {
      MonthRankOrder(ks[i], ks[j]);
    }
    SortStrictlyAscends(unsorted, RowRank);
    forall i, j | 0 <= i < j < |rows| ensures rows[i].month.Before(rows[j].month) {
      MonthRankOrder(rows[i].month, rows[j].month);
    }
    forall i | 0 <= i < |rows|
      ensures rows[i].month in MonthSet(txs) && rows[i] == MonthRow(txs, rows[i].month)
    {
      assert rows[i] in multiset(unsorted);
    }
    forall k | k in MonthSet(txs) ensures MonthRow(txs, k) in rows {
      var i :| 0 <= i < |ks| && ks[i] == k;
      assert unsorted[i] in multiset(rows);
    }
  }

  /** Any two sequences that both satisfy `IsMonthlySeries` for a list are equal. */
  lemma {:induction false} MonthlySeriesUnique(txs: seq<Transaction>, a: seq<MonthlyRow>, b: seq<MonthlyRow>)
    requires IsMonthlySeries(txs, a) && IsMonthlySeries(txs, b)
    ensures a == b
  {
    ChronologicalRowsEqual(a, b);
  }

  /** Two strictly chronological row lists holding the same rows are the same list. */
  lemma {:induction false} ChronologicalRowsEqual(a: seq<MonthlyRow>, b: seq<MonthlyRow>)
    requires forall i, j :: 0 <= i < j < |a| ==> a[i].month.Before(a[j].month)
    requires forall i, j :: 0 <= i < j < |b| ==> b[i].month.Before(b[j].month)
    requires forall r :: r in a <==> r in b
    ensures a == b
    decreases |a| + |b|
  {
    assert a != [] ==> a[0] in b;
    assert b != [] ==> b[0] in a;
    if a == [] || b == [] {
      if a != [] || b != [] {
        assert false;
      }
    } else {
      assert a[0] in b && b[0] in a;
      assert a[0] == b[0];
      forall r ensures r in a[1..] <==> r in b[1..] {
        if r in a[1..] {
          var i :| 1 <= i < |a| && a[i] == r;
          assert a[0].month.Before(r.month);
        }
        if r in b[1..] {
          var i :| 1 <= i < |b| && b[i] == r;
          assert b[0].month.Before(r.month);
        }
        assert r in a <==> r in b;
        assert a == [a[0]] + a[1..] && b == [b[0]] + b[1..];
      }
      ChronologicalRowsEqual(a[1..], b[1..]);
      assert a == [a[0]] + a[1..] && b == [b[0]] + b[1..];
    }
  }

  /** The map entries `getMonthlyData` accumulates per month. */
  datatype Totals = Totals(income: int, expenses: int)

  /** Adds one record to its month's running totals: income, or else expenses. */
  function Counted(data: Totals, t: Transaction): (next: Totals)
    ensures next.income + next.expenses == data.income + data.expenses + t.amount
    ensures t.kind == Income ==> next.expenses == data.expenses
    ensures t.kind == Expense ==> next.income == data.income
  {
    if t.kind == Income then data.(income := data.income + t.amount)
    else data.(expenses := data.expenses + t.amount)
  }

  /**
   * The map after a pass over `done`: its months are those of `done` in the
   * order first seen, each holding that month's income and expense totals.
   */
  ghost predicate Tallied(done: seq<Transaction>, order: seq<CalendarMonth>, totals: map<CalendarMonth, Totals>) {
    && order == FirstSeenMonths(done)
    && (forall k :: k in totals <==> k in order)
    && (forall k :: k in totals ==> totals[k] == Totals(MonthTotal(done, k, Income), MonthTotal(done, k, Expense)))
  }

  /** Counting one more record keeps the map tallied. */
  lemma TallyStep(done: seq<Transaction>, t: Transaction, order: seq<CalendarMonth>, totals: map<CalendarMonth, Totals>)
    requires Tallied(done, order, totals)
    ensures var month := MonthOf(t.date);
      Tallied(done + [t],
              if month in totals then order else order + [month],
              totals[month := Counted(if month in totals then totals[month] else Totals(0, 0), t)])
  {
    var month := MonthOf(t.date);
    var after := done + [t];
    assert after[..|after| - 1] == done && after[|after| - 1] == t;
    var prior := if month in totals then totals[month] else Totals(0, 0);
    if month !in totals {
      MonthTotalOutside(done, month, Income);
      MonthTotalOutside(done, month, Expense);
    }
    assert prior == Totals(MonthTotal(done, month, Income), MonthTotal(done, month, Expense));
    var next := totals[month := Counted(prior, t)];
    forall k | k in next
      ensures next[k] == Totals(MonthTotal(after, k, Income), MonthTotal(after, k, Expense))
    {
      if k != month {
        assert next[k] == totals[k];
      }
    }
  }

  /**
   * `getMonthlyData`: one pass over the records fills a map from month to
   * running totals (a record that is not income counts as an expense), then
   * the map's rows are sorted by the instant their month label denotes.
   */
  method MonthlyData(txs: seq<Transaction>) returns (rows: seq<MonthlyRow>)
    ensures rows == MonthlySeries(txs)
    ensures IsMonthlySeries(txs, rows)
  {
    var order: seq<CalendarMonth> := [];
    var totals: map<CalendarMonth, Totals> := map[];
    for i := 0 to |txs|
      invariant Tallied(txs[..i], order, totals)
    {
      var t := txs[i];
      assert txs[..i + 1] == txs[..i] + [t];
      TallyStep(txs[..i], t, order, totals);
      var month := MonthOf(t.date);
      var data := Totals(0, 0);
      if month in totals {
        data := totals[month];
      } else {
        order := order + [month];
      }
      totals := totals[month := Counted(data, t)];
    }
    assert txs[..|txs|] == txs;
    var unsorted := seq(|order|, j requires 0 <= j < |order| && order[j] in totals =>
      MonthlyRow(order[j], totals[order[j]].income, totals[order[j]].expenses,
                 totals[order[j]].income - totals[order[j]].expenses));
    TalliedRows(txs, order, totals, unsorted);
    rows := SortBy(unsorted, RowRank);
    MonthlySeriesMeaning(txs);
  }

  /** The rows read off a tallied map are the months' rows. */
  lemma TalliedRows(txs: seq<Transaction>, order: seq<CalendarMonth>, totals: map<CalendarMonth, Totals>, unsorted: seq<MonthlyRow>)
    requires Tallied(txs, order, totals)
    requires |unsorted| == |order|
    requires forall j :: 0 <= j < |order| ==> (
      order[j] in totals && unsorted[j] ==
        MonthlyRow(order[j], totals[order[j]].income, totals[order[j]].expenses,
                   totals[order[j]].income - totals[order[j]].expenses))
    ensures unsorted == RowsFor(txs, order)
  {
  }

  /** Income of all rows together. */
  function IncomeOfRows(rows: seq<MonthlyRow>): int {
    if rows == [] then 0 else IncomeOfRows(rows[..|rows| - 1]) + rows[|rows| - 1].income
  }

  /** Expenses of all rows together. */
  function ExpensesOfRows(rows: seq<MonthlyRow>): int {
    if rows == [] then 0 else ExpensesOfRows(rows[..|rows| - 1]) + rows[|rows| - 1].expenses
  }

  function MonthsOfRows(rows: seq<MonthlyRow>): set<CalendarMonth> {
    if rows == [] then {} else MonthsOfRows(rows[..|rows| - 1]) + {rows[|rows| - 1].month}
  }

  lemma {:induction false} RowsByMonth(txs: seq<Transaction>, rows: seq<MonthlyRow>)
    requires forall i, j :: 0 <= i < j < |rows| ==> rows[i].month != rows[j].month
    requires forall i :: 0 <= i < |rows| ==> rows[i] == MonthRow(txs, rows[i].month)
    ensures IncomeOfRows(rows) == MonthsTotal(txs, MonthsOfRows(rows), Income)
    ensures ExpensesOfRows(rows) == MonthsTotal(txs, MonthsOfRows(rows), Expense)
    ensures forall k :: k in MonthsOfRows(rows) <==> exists i :: 0 <= i < |rows| && rows[i].month == k
  {
    if rows == [] {
      MonthsTotalNone(txs, Income);
      MonthsTotalNone(txs, Expense);
    } else {
      var init, r := rows[..|rows| - 1], rows[|rows| - 1];
      RowsByMonth(txs, init);
      assert forall i :: 0 <= i < |init| ==> init[i] == rows[i];
      assert r.month !in MonthsOfRows(init);
      MonthsTotalSplit(txs, MonthsOfRows(init), r.month, Income);
      MonthsTotalSplit(txs, MonthsOfRows(init), r.month, Expense);
    }
  }

  /**
   * Conservation: summed over the rows of the series, income is the income of
   * all records and expenses the expenses of all records; no record is
   * dropped or counted twice.
   */
  lemma MonthlySeriesConserves(txs: seq<Transaction>, rows: seq<MonthlyRow>)
    requires IsMonthlySeries(txs, rows)
    ensures IncomeOfRows(rows) == KindTotal(txs, Income)
    ensures ExpensesOfRows(rows) == KindTotal(txs, Expense)
  {
    forall i, j | 0 <= i < j < |rows| ensures rows[i].month != rows[j].month {
      assert rows[i].month.Before(rows[j].month);
    }
    RowsByMonth(txs, rows);
    forall k | k in MonthSet(txs) ensures k in MonthsOfRows(rows) {
      var i :| 0 <= i < |rows| && rows[i] == MonthRow(txs, k);
    }
    MonthsTotalCovers(txs, MonthsOfRows(rows), Income);
    MonthsTotalCovers(txs, MonthsOfRows(rows), Expense);
  }

  /** The series row for a month agrees with the current-month summary for any day of that month. */
  lemma SeriesAgreesWithCurrentMonth(txs: seq<Transaction>, rows: seq<MonthlyRow>, now: CalendarDate, i: int)
    requires IsMonthlySeries(txs, rows)
    requires 0 <= i < |rows| && rows[i].month == MonthOf(now)
    ensures CurrentMonthData(txs, now) == Summary(rows[i].income, rows[i].expenses, rows[i].savings)
  {
  }

  // ---------------------------------------------------------------------------
  // getCategoryColor
  // ---------------------------------------------------------------------------

  const Palette: seq<string> := [
    "#EF4444", "#F59E0B", "#8B5CF6", "#EC4899", "#06B6D4",
    "#10B981", "#3B82F6", "#F97316", "#6B7280"]

  /** `split('').reduce((acc, char) => acc + char.charCodeAt(0), 0)`. */
  function CharCodeSum(s: string): nat {
    if s == [] then 0 else CharCodeSum(s[..|s| - 1]) + s[|s| - 1] as nat
  }

  /** `getCategoryColor`: the palette colour at the name's character-code sum modulo nine. */
  function CategoryColor(name: string): (color: string)
    ensures color in Palette
  {
    Palette[CharCodeSum(name) % |Palette|]
  }

  lemma {:induction false} CharCodeSumAppend(a: string, b: string)
    ensures CharCodeSum(a + b) == CharCodeSum(a) + CharCodeSum(b)
    decreases |b|
  {
    if b == [] {
      assert a + b == a;
    } else {
      assert (a + b)[..|a + b| - 1] == a + b[..|b| - 1];
      CharCodeSumAppend(a, b[..|b| - 1]);
    }
  }

  /** The checksum ignores the order of the characters. */
  lemma {:induction false} CharCodeSumIgnoresOrder(a: string, b: string)
    requires multiset(a) == multiset(b)
    ensures CharCodeSum(a) == CharCodeSum(b)
    decreases |a|
  {
    if a == [] {
      assert |b| == |multiset(b)|;
    } else {
      var init, c := a[..|a| - 1], a[|a| - 1];
      assert a == init + [c];
      assert c in multiset(b) by {
        assert c in multiset(a);
      }
      var k :| 0 <= k < |b| && b[k] == c;
      var rest := b[..k] + b[k + 1..];
      CharCodeSumWithout(b, k);
      assert multiset(init) == multiset(a) - multiset{c};
      CharCodeSumIgnoresOrder(init, rest);
      CharCodeSumAppend(init, [c]);
      assert [c][..0] == [];
    }
  }

  /** Taking out the character at `k` takes its code out of the sum. */
  lemma CharCodeSumWithout(b: string, k: int)
    requires 0 <= k < |b|
    ensures multiset(b[..k] + b[k + 1..]) == multiset(b) - multiset{b[k]}
    ensures CharCodeSum(b) == CharCodeSum(b[..k] + b[k + 1..]) + b[k] as nat
  {
    var pre, c, post := b[..k], b[k], b[k + 1..];
    assert b == pre + ([c] + post);
    CharCodeSumSplit(pre, c, post);
    MultisetSplit(pre, c, post);
  }

  lemma MultisetSplit(pre: string, c: char, post: string)
    ensures multiset(pre + post) == multiset(pre + ([c] + post)) - multiset{c}
  {
    assert multiset(pre + ([c] + post)) == multiset(pre + post) + multiset{c};
  }

  lemma CharCodeSumSplit(pre: string, c: char, post: string)
    ensures CharCodeSum(pre + ([c] + post)) == CharCodeSum(pre + post) + c as nat
  {
    CharCodeSumAppend(pre, [c] + post);
    CharCodeSumAppend([c], post);
    CharCodeSumAppend(pre, post);
    assert CharCodeSum([c]) == c as nat by {
      assert [c][..0] == [];
    }
  }

  /** Names that are anagrams of each other get the same colour. */
  lemma ColorIgnoresLetterOrder(a: string, b: string)
    requires multiset(a) == multiset(b)
    ensures CategoryColor(a) == CategoryColor(b)
  {
    CharCodeSumIgnoresOrder(a, b);
  }

  /** The empty name sums to zero and gets the first colour. */
  lemma EmptyNameColor()
    ensures CategoryColor("") == "#EF4444"
  {
  }

  // ---------------------------------------------------------------------------
  // getCategoryData
  // ---------------------------------------------------------------------------

  /** The entry the breakdown holds for category `c`. */
  function CategoryEntry(txs: seq<Transaction>, c: string): CategoryRow {
    CategoryRow(c, CategoryTotal(txs, c), CategoryColor(c))
  }

  /** The sort key of `(a, b) => b.amount - a.amount`: larger amounts first. */
  function SpentFirst(r: CategoryRow): int {
    -r.amount
  }

  /** The keys of the category map in insertion order: each expense category where it first occurs. */
  function FirstSeenCategories(txs: seq<Transaction>): (cs: seq<string>)
    ensures NoDuplicates(cs)
    ensures forall c :: c in cs <==> c in CategorySet(txs)
  {
    if txs == [] then []
    else
      var cs := FirstSeenCategories(txs[..|txs| - 1]);
      var t := txs[|txs| - 1];
      if t.kind == Expense && t.category !in cs then cs + [t.category] else cs
  }

  function EntriesFor(txs: seq<Transaction>, cs: seq<string>): seq<CategoryRow> {
    seq(|cs|, i requires 0 <= i < |cs| => CategoryEntry(txs, cs[i]))
  }

  /** The map's entries in insertion order, before the sort. */
  function FirstSeenEntries(txs: seq<Transaction>): seq<CategoryRow> {
    EntriesFor(txs, FirstSeenCategories(txs))
  }

  /** The breakdown `getCategoryData` returns: the map's entries stably sorted by descending amount. */
  function CategoryBreakdown(txs: seq<Transaction>): seq<CategoryRow> {
    SortBy(FirstSeenEntries(txs), SpentFirst)
  }

  /**
   * What the breakdown means: one entry per expense category and none for
   * any other name, each carrying that category's total and colour, amounts
   * never increasing, and entries of equal amount in the order their
   * categories first occur among the expense records.
   */
  ghost predicate IsCategoryBreakdown(txs: seq<Transaction>, rows: seq<CategoryRow>) {
    && (forall i :: 0 <= i < |rows| ==> rows[i].name in CategorySet(txs) && rows[i] == CategoryEntry(txs, rows[i].name))
    && (forall c :: c in CategorySet(txs) ==> CategoryEntry(txs, c) in rows)
    && (forall i, j :: 0 <= i < j < |rows| ==> rows[i].name != rows[j].name)
    && (forall i, j :: 0 <= i < j < |rows| ==> rows[i].amount >= rows[j].amount)
    && (forall v :: WithRank(rows, SpentFirst, v) == WithRank(FirstSeenEntries(txs), SpentFirst, v))
  }

  lemma CategoryBreakdownMeaning(txs: seq<Transaction>)
    ensures IsCategoryBreakdown(txs, CategoryBreakdown(txs))
  {
    BreakdownHoldsEntries(txs);
    BreakdownCoversCategories(txs);
    BreakdownNamesDistinct(txs);
    forall v ensures WithRank(CategoryBreakdown(txs), SpentFirst, v) == WithRank(FirstSeenEntries(txs), SpentFirst, v) {
      SortIsStable(FirstSeenEntries(txs), SpentFirst, v);
    }
  }

  lemma BreakdownHoldsEntries(txs: seq<Transaction>)
    ensures forall i :: 0 <= i < |CategoryBreakdown(txs)| ==>
      CategoryBreakdown(txs)[i].name in CategorySet(txs)
      && CategoryBreakdown(txs)[i] == CategoryEntry(txs, CategoryBreakdown(txs)[i].name)
  {
    var unsorted := FirstSeenEntries(txs);
    var rows := CategoryBreakdown(txs);
    forall i | 0 <= i < |rows|
      ensures rows[i].name in CategorySet(txs) && rows[i] == CategoryEntry(txs, rows[i].name)
    {
      assert rows[i] in multiset(unsorted);
    }
  }

  lemma BreakdownCoversCategories(txs: seq<Transaction>)
    ensures forall c :: c in CategorySet(txs) ==> CategoryEntry(txs, c) in CategoryBreakdown(txs)
  {
    var cs := FirstSeenCategories(txs);
    var unsorted := FirstSeenEntries(txs);
    var rows := CategoryBreakdown(txs);
    forall c | c in CategorySet(txs) ensures CategoryEntry(txs, c) in rows {
      var i :| 0 <= i < |cs| && cs[i] == c;
      assert unsorted[i] in multiset(rows);
    }
  }

  lemma BreakdownNamesDistinct(txs: seq<Transaction>)
    ensures forall i, j :: 0 <= i < j < |CategoryBreakdown(txs)| ==>
      CategoryBreakdown(txs)[i].name != CategoryBreakdown(txs)[j].name
  {
    var unsorted := FirstSeenEntries(txs);
    var rows := CategoryBreakdown(txs);
    BreakdownHoldsEntries(txs);
    forall i, j | 0 <= i < j < |rows| ensures rows[i].name != rows[j].name {
      if rows[i].name == rows[j].name {
        TwoInMultiset(rows, i, j);
        assert rows[i] in multiset(unsorted);
        var p :| 0 <= p < |unsorted| && unsorted[p] == rows[i];
        EntriesOnce(txs, p);
        assert false;
      }
    }
  }

  /** Each first-seen entry occurs once, since the categories are distinct. */
  lemma EntriesOnce(txs: seq<Transaction>, p: int)
    requires 0 <= p < |FirstSeenEntries(txs)|
    ensures multiset(FirstSeenEntries(txs))[FirstSeenEntries(txs)[p]] == 1
  {
    var s := FirstSeenEntries(txs);
    var cs := FirstSeenCategories(txs);
    assert s == s[..p] + [s[p]] + s[p + 1..];
    forall k | 0 <= k < |s| && k != p ensures s[k] != s[p] {
      assert s[k].name == cs[k] && s[p].name == cs[p];
    }
    assert s[p] !in s[..p] && s[p] !in s[p + 1..];
  }

  /**
   * `getCategoryData`: one pass over the expense records fills a map from
   * category to running total (`categoryMap.get(c) || 0` plus the amount),
   * then the map's entries, coloured, are sorted by descending amount.
   */
  method CategoryData(txs: seq<Transaction>) returns (rows: seq<CategoryRow>)
    ensures rows == CategoryBreakdown(txs)
    ensures IsCategoryBreakdown(txs, rows)
  {
    var order: seq<string> := [];
    var sums: map<string, int> := map[];
    for i := 0 to |txs|
      invariant order == FirstSeenCategories(txs[..i])
      invariant forall c :: c in sums <==> c in order
      invariant forall c :: c in sums ==> sums[c] == CategoryTotal(txs[..i], c)
    {
      var t := txs[i];
      assert txs[..i + 1][..i] == txs[..i] && txs[..i + 1][i] == t;
      if t.kind == Expense {
        var current := if t.category in sums then sums[t.category] else 0;
        if t.category !in sums {
          CategoryTotalOutside(txs[..i], t.category);
          order := order + [t.category];
        }
        sums := sums[t.category := current + t.amount];
      }
    }
    assert txs[..|txs|] == txs;
    var unsorted := seq(|order|, j requires 0 <= j < |order| && order[j] in sums =>
      CategoryRow(order[j], sums[order[j]], CategoryColor(order[j])));
    assert unsorted == FirstSeenEntries(txs);
    rows := SortBy(unsorted, SpentFirst);
    CategoryBreakdownMeaning(txs);
  }

  function AmountOfRows(rows: seq<CategoryRow>): int {
    if rows == [] then 0 else AmountOfRows(rows[..|rows| - 1]) + rows[|rows| - 1].amount
  }

  function NamesOfRows(rows: seq<CategoryRow>): set<string> {
    if rows == [] then {} else NamesOfRows(rows[..|rows| - 1]) + {rows[|rows| - 1].name}
  }

  lemma {:induction false} RowsByCategory(txs: seq<Transaction>, rows: seq<CategoryRow>)
    requires forall i, j :: 0 <= i < j < |rows| ==> rows[i].name != rows[j].name
    requires forall i :: 0 <= i < |rows| ==> rows[i] == CategoryEntry(txs, rows[i].name)
    ensures AmountOfRows(rows) == CategoriesTotal(txs, NamesOfRows(rows))
    ensures forall c :: c in NamesOfRows(rows) <==> exists i :: 0 <= i < |rows| && rows[i].name == c
  {
    if rows == [] {
      CategoriesTotalNone(txs);
    } else {
      var init, r := rows[..|rows| - 1], rows[|rows| - 1];
      RowsByCategory(txs, init);
      assert forall i :: 0 <= i < |init| ==> init[i] == rows[i];
      assert r.name !in NamesOfRows(init);
      CategoriesTotalSplit(txs, NamesOfRows(init), r.name);
    }
  }

  /** Conservation: the entries' amounts add up to the total of all expense records; income is ignored. */
  lemma CategoryBreakdownConserves(txs: seq<Transaction>, rows: seq<CategoryRow>)
    requires IsCategoryBreakdown(txs, rows)
    ensures AmountOfRows(rows) == KindTotal(txs, Expense)
  {
    RowsByCategory(txs, rows);
    forall c | c in CategorySet(txs) ensures c in NamesOfRows(rows) {
      var i :| 0 <= i < |rows| && rows[i] == CategoryEntry(txs, c);
    }
    CategoriesTotalCovers(txs, NamesOfRows(rows));
  }

  /** The breakdown is empty exactly when the list holds no expense record. */
  lemma CategoryBreakdownEmpty(txs: seq<Transaction>, rows: seq<CategoryRow>)
    requires IsCategoryBreakdown(txs, rows)
    ensures rows == [] <==> forall i :: 0 <= i < |txs| ==> txs[i].kind == Income
  {
    CategorySetEmpty(txs);
    if rows != [] {
      assert rows[0].name in CategorySet(txs);
    }
  }

  // ---------------------------------------------------------------------------
  // The sample data the hook seeds an empty storage with
  // ---------------------------------------------------------------------------

  function Sample(): seq<Transaction> {
    [ Transaction("1", 75000, "Pocket Money", "Monthly Pocket Money", Date(2024, 1, 1), Income),
      Transaction("2", 8500, "Food", "Groceries", Date(2024, 1, 3), Expense),
      Transaction("3", 2500, "Transportation", "Petrol", Date(2024, 1, 5), Expense),
      Transaction("4", 1200, "Entertainment", "Movie night", Date(2024, 1, 7), Expense),
      Transaction("5", 4500, "Utilities", "Electricity bill", Date(2024, 1, 10), Expense),
      Transaction("6", 75000, "Pocket Money", "Monthly Pocket Money", Date(2024, 2, 1), Income),
      Transaction("7", 9200, "Food", "Groceries", Date(2024, 2, 3), Expense),
      Transaction("8", 1800, "Transportation", "Public transport", Date(2024, 2, 5), Expense) ]
  }

  /** Each prefix of the sample list without its last record is the next shorter prefix. */
  lemma SamplePrefixes()
    ensures Sample()[..1][..0] == Sample()[..0]
    ensures Sample()[..2][..1] == Sample()[..1]
    ensures Sample()[..3][..2] == Sample()[..2]
    ensures Sample()[..4][..3] == Sample()[..3]
    ensures Sample()[..5][..4] == Sample()[..4]
    ensures Sample()[..6][..5] == Sample()[..5]
    ensures Sample()[..7][..6] == Sample()[..6]
    ensures Sample()[..|Sample()| - 1] == Sample()[..7]
  {
  }

  lemma SampleMonthTotals()
    ensures MonthTotal(Sample(), MonthKey(2024, 1), Income) == 75000
    ensures MonthTotal(Sample(), MonthKey(2024, 1), Expense) == 16700
    ensures MonthTotal(Sample(), MonthKey(2024, 2), Income) == 75000
    ensures MonthTotal(Sample(), MonthKey(2024, 2), Expense) == 11000
  {
    var s, jan, feb := Sample(), MonthKey(2024, 1), MonthKey(2024, 2);
    SamplePrefixes();
    assert MonthTotal(s[..1], jan, Income) == 75000 && MonthTotal(s[..1], jan, Expense) == 0;
    assert MonthTotal(s[..1], feb, Income) == 0 && MonthTotal(s[..1], feb, Expense) == 0;
    assert MonthTotal(s[..2], jan, Income) == 75000 && MonthTotal(s[..2], jan, Expense) == 8500;
    assert MonthTotal(s[..2], feb, Income) == 0 && MonthTotal(s[..2], feb, Expense) == 0;
    assert MonthTotal(s[..3], jan, Income) == 75000 && MonthTotal(s[..3], jan, Expense) == 11000;
    assert MonthTotal(s[..3], feb, Income) == 0 && MonthTotal(s[..3], feb, Expense) == 0;
    assert MonthTotal(s[..4], jan, Income) == 75000 && MonthTotal(s[..4], jan, Expense) == 12200;
    assert MonthTotal(s[..4], feb, Income) == 0 && MonthTotal(s[..4], feb, Expense) == 0;
    assert MonthTotal(s[..5], jan, Income) == 75000 && MonthTotal(s[..5], jan, Expense) == 16700;
    assert MonthTotal(s[..5], feb, Income) == 0 && MonthTotal(s[..5], feb, Expense) == 0;
    assert MonthTotal(s[..6], jan, Income) == 75000 && MonthTotal(s[..6], jan, Expense) == 16700;
    assert MonthTotal(s[..6], feb, Income) == 75000 && MonthTotal(s[..6], feb, Expense) == 0;
    assert MonthTotal(s[..7], jan, Income) == 75000 && MonthTotal(s[..7], jan, Expense) == 16700;
    assert MonthTotal(s[..7], feb, Income) == 75000 && MonthTotal(s[..7], feb, Expense) == 9200;
  }

  /** The dashboard figures for January and February 2024 over the sample records. */
  lemma SampleCurrentMonth(now: CalendarDate)
    ensures now.year == 2024 && now.month == 1 ==> CurrentMonthData(Sample(), now) == Summary(75000, 16700, 58300)
    ensures now.year == 2024 && now.month == 2 ==> CurrentMonthData(Sample(), now) == Summary(75000, 11000, 64000)
  {
    SampleMonthTotals();
  }

  lemma SampleFirstSeenMonths()
    ensures FirstSeenMonths(Sample()) == [MonthKey(2024, 1), MonthKey(2024, 2)]
  {
    var s := Sample();
    SamplePrefixes();
    assert FirstSeenMonths(s[..1]) == [MonthKey(2024, 1)];
    assert FirstSeenMonths(s[..2]) == [MonthKey(2024, 1)];
    assert FirstSeenMonths(s[..3]) == [MonthKey(2024, 1)];
    assert FirstSeenMonths(s[..4]) == [MonthKey(2024, 1)];
    assert FirstSeenMonths(s[..5]) == [MonthKey(2024, 1)];
    assert FirstSeenMonths(s[..6]) == [MonthKey(2024, 1), MonthKey(2024, 2)];
    assert FirstSeenMonths(s[..7]) == [MonthKey(2024, 1), MonthKey(2024, 2)];
  }

  /** The monthly series over the sample records: January 2024, then February 2024. */
  lemma SampleMonthlySeries()
    ensures MonthlySeries(Sample()) == [
      MonthlyRow(MonthKey(2024, 1), 75000, 16700, 58300),
      MonthlyRow(MonthKey(2024, 2), 75000, 11000, 64000)]
  {
    var s := Sample();
    var expected := [
      MonthlyRow(MonthKey(2024, 1), 75000, 16700, 58300),
      MonthlyRow(MonthKey(2024, 2), 75000, 11000, 64000)];
    SampleMonthTotals();
    SampleFirstSeenMonths();
    assert MonthSet(s) == {MonthKey(2024, 1), MonthKey(2024, 2)};
    assert IsMonthlySeries(s, expected);
    MonthlySeriesMeaning(s);
    MonthlySeriesUnique(s, MonthlySeries(s), expected);
  }

  lemma SampleFirstSeenCategories()
    ensures FirstSeenCategories(Sample()) == ["Food", "Transportation", "Entertainment", "Utilities"]
  {
    var s := Sample();
    SamplePrefixes();
    JanuaryCategories();
    DistinctSampleCategories();
    assert FirstSeenCategories(s[..6]) == ["Food", "Transportation", "Entertainment", "Utilities"];
    assert FirstSeenCategories(s[..7]) == ["Food", "Transportation", "Entertainment", "Utilities"];
  }

  lemma JanuaryCategories()
    ensures FirstSeenCategories(Sample()[..5]) == ["Food", "Transportation", "Entertainment", "Utilities"]
  {
    var s := Sample();
    SamplePrefixes();
    DistinctSampleCategories();
    assert FirstSeenCategories(s[..1]) == [];
    assert FirstSeenCategories(s[..2]) == ["Food"];
    assert FirstSeenCategories(s[..3]) == ["Food", "Transportation"];
    assert FirstSeenCategories(s[..4]) == ["Food", "Transportation", "Entertainment"];
  }

  /** The sample's category names differ in length, so no two are equal. */
  lemma DistinctSampleCategories()
    ensures "Food" != "Transportation" && "Food" != "Entertainment" && "Food" != "Utilities"
    ensures "Transportation" != "Entertainment" && "Transportation" != "Utilities"
    ensures "Entertainment" != "Utilities"
  {
    assert |"Food"| == 4 && |"Transportation"| == 14 && |"Entertainment"| == 13 && |"Utilities"| == 9;
  }

  lemma SampleCategoryTotals()
    ensures CategoryTotal(Sample(), "Food") == 17700
    ensures CategoryTotal(Sample(), "Transportation") == 4300
    ensures CategoryTotal(Sample(), "Entertainment") == 1200
    ensures CategoryTotal(Sample(), "Utilities") == 4500
  {
    var s := Sample();
    SamplePrefixes();
    assert CategoryTotal(s[..1], "Food") == 0;
    assert CategoryTotal(s[..2], "Food") == 8500;
    assert CategoryTotal(s[..3], "Food") == 8500;
    assert CategoryTotal(s[..4], "Food") == 8500;
    assert CategoryTotal(s[..5], "Food") == 8500;
    assert CategoryTotal(s[..6], "Food") == 8500;
    assert CategoryTotal(s[..7], "Food") == 17700;
  }

  lemma SampleFirstSeenEntries()
    ensures FirstSeenEntries(Sample()) == [
      CategoryRow("Food", 17700, CategoryColor("Food")),
      CategoryRow("Transportation", 4300, CategoryColor("Transportation")),
      CategoryRow("Entertainment", 1200, CategoryColor("Entertainment")),
      CategoryRow("Utilities", 4500, CategoryColor("Utilities"))]
  {
    SampleFirstSeenCategories();
    SampleCategoryTotals();
  }

  /** "Food" has character-code sum 392, and 392 modulo 9 is 5. */
  lemma FoodColor()
    ensures CharCodeSum("Food") == 392
    ensures CategoryColor("Food") == "#10B981"
  {
    assert "Food"[..3] == "Foo" && "Foo"[..2] == "Fo" && "Fo"[..1] == "F" && "F"[..0] == "";
  }

  /**
   * The category breakdown over the sample records: Food, Utilities,
   * Transportation, Entertainment, largest total first.
   */
  lemma SampleCategoryBreakdown()
    ensures CategoryBreakdown(Sample()) == [
      CategoryRow("Food", 17700, CategoryColor("Food")),
      CategoryRow("Utilities", 4500, CategoryColor("Utilities")),
      CategoryRow("Transportation", 4300, CategoryColor("Transportation")),
      CategoryRow("Entertainment", 1200, CategoryColor("Entertainment"))]
  {
    SampleFirstSeenEntries();
    LargestFirstOfFour(FirstSeenEntries(Sample()));
  }

  lemma LargestFirstOfFour(e: seq<CategoryRow>)
    requires |e| == 4
    requires e[0].amount > e[3].amount > e[1].amount > e[2].amount
    ensures SortBy(e, SpentFirst) == [e[0], e[3], e[1], e[2]]
  {
    FourPermuted(e);
    FourByAmount(e);
    SortIsTheAscendingArrangement(e, [e[0], e[3], e[1], e[2]], SpentFirst);
  }

  lemma FourPermuted<T>(e: seq<T>)
    requires |e| == 4
    ensures multiset([e[0], e[3], e[1], e[2]]) == multiset(e)
  {
    assert e == [e[0], e[1], e[2], e[3]];
    assert multiset([e[0], e[3], e[1], e[2]]) == multiset{e[0], e[1], e[2], e[3]};
  }

  lemma FourByAmount(e: seq<CategoryRow>)
    requires |e| == 4
    requires e[0].amount > e[3].amount > e[1].amount > e[2].amount
    ensures DistinctRanks(e, SpentFirst)
    ensures StrictlyAscending([e[0], e[3], e[1], e[2]], SpentFirst)
  {
  }
}
