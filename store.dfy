/**
  The transaction store of main.py (class CSV): a backing file with a fixed
  header and one row per transaction, appended to and never rewritten, and
  the date-range query with its income/expense summary. The file is held in
  memory: whether it exists, its header and its rows.
*/
module Store {
  import opened Wrappers
  import opened Dates
  import opened DataEntry

  /** COLUMNS: the header of the backing file, in column order. */
  const Columns: seq<string> := ["date", "amount", "category", "description"]

  /** One line of the backing file, its fields in Columns order; the date is kept as written. */
  datatype Row = Row(date: string, amount: real, category: Category, description: string)

  /** A row whose date column has been parsed into a calendar date. */
  datatype Transaction = Transaction(date: Date, amount: real, category: Category, description: string)

  /** The backing file: absent, or present with a header and rows. */
  datatype Ledger = Ledger(present: bool, header: seq<string>, rows: seq<Row>)

  /** An absent file has no content; a present one carries the Columns header. */
  predicate LedgerValid(l: Ledger) {
    && (l.present ==> l.header == Columns)
    && (!l.present ==> l.header == [] && l.rows == [])
  }

  /** What the program itself writes: dates in MM-DD-YYYY and positive amounts. */
  predicate WellFormed(rows: seq<Row>) {
    forall i :: 0 <= i < |rows| ==> Parse(rows[i].date).Some? && rows[i].amount > 0.0
  }

  lemma WellFormedAppend(a: seq<Row>, b: seq<Row>)
    requires WellFormed(a) && WellFormed(b)
    ensures WellFormed(a + b)
  {
    forall i | 0 <= i < |a + b|
      ensures Parse((a + b)[i].date).Some? && (a + b)[i].amount > 0.0
    {
      if i >= |a| {
        assert (a + b)[i] == b[i - |a|];
      }
    }
  }

  /** initialize_csv: create the file with only the header when it is missing; otherwise leave it alone. */
  function Initialized(l: Ledger): (r: Ledger)
    requires LedgerValid(l)
    ensures LedgerValid(r) && r.present && r.header == Columns
    ensures !l.present ==> r.rows == []
    ensures l.present ==> r == l
  {
    if l.present then l else Ledger(true, Columns, [])
  }

  lemma InitializeIsIdempotent(l: Ledger)
    requires LedgerValid(l)
    ensures Initialized(Initialized(l)) == Initialized(l)
  {
  }

  /** add_entry: one more row at the end of a present file. */
  function Appended(l: Ledger, row: Row): (r: Ledger)
    requires l.present
    ensures r.present && r.header == l.header
    ensures |r.rows| == |l.rows| + 1 && r.rows[..|l.rows|] == l.rows && r.rows[|l.rows|] == row
  {
    var r := l.(rows := l.rows + [row]);
    assert r.rows[..|l.rows|] == l.rows;
    r
  }

  // ---- Loading: pd.to_datetime(df["date"], format=FORMAT) ----

  /**
    The days a pandas timestamp can hold at midnight. A timestamp counts
    nanoseconds from 1970 in 64 bits, so it spans 1677-09-21 00:12:43 to
    2262-04-11 23:47:16; midnight of 1677-09-21 already falls outside.
  */
  predicate InTimestampRange(d: Date) {
    OnOrBefore(Date(1677, 9, 22), d) && OnOrBefore(d, Date(2262, 4, 11))
  }

  /** A stored date that pd.to_datetime converts: it parses, and lies within the timestamp range. */
  predicate Loadable(date: string) {
    Parse(date).Some? && InTimestampRange(Parse(date).value)
  }

  /** Row i holds a date that parses but lies outside the timestamp range. */
  predicate OutOfRangeRow(rows: seq<Row>, i: nat) {
    i < |rows| && Parse(rows[i].date).Some? && !InTimestampRange(Parse(rows[i].date).value)
  }

  function Parsed(row: Row): (t: Transaction)
    requires Parse(row.date).Some?
  {
    Transaction(Parse(row.date).value, row.amount, row.category, row.description)
  }

  /** Convert every stored date; the first row whose date cannot be converted makes the load fail. */
  function ParseRows(rows: seq<Row>): (r: Result<seq<Transaction>, nat>)
    ensures r.Ok? <==> forall i :: 0 <= i < |rows| ==> Loadable(rows[i].date)
    ensures r.Ok? ==> |r.value| == |rows| && forall i :: 0 <= i < |rows| ==> r.value[i] == Parsed(rows[i])
    ensures r.Err? ==> r.error < |rows| && !Loadable(rows[r.error].date)
    ensures r.Err? ==> forall i :: 0 <= i < r.error ==> Loadable(rows[i].date)
    decreases |rows|
  {
    if rows == [] then Ok([])
    else if !Loadable(rows[0].date) then Err(0)
    else
      match ParseRows(rows[1..])
      case Err(i) => Err(i + 1)
      case Ok(ts) => Ok([Parsed(rows[0])] + ts)
  }

  /** Loading a file with one more row converts that row last. */
  lemma ParseRowsAppend(rows: seq<Row>, row: Row)
    requires ParseRows(rows).Ok? && Loadable(row.date)
    ensures ParseRows(rows + [row]) == Ok(ParseRows(rows).value + [Parsed(row)])
  {
    var all := rows + [row];
    assert forall i :: 0 <= i < |rows| ==> all[i] == rows[i];
    assert ParseRows(all).Ok?;
    assert ParseRows(all).value == ParseRows(rows).value + [Parsed(row)];
  }

  // ---- The range filter: (df["date"] >= start) & (df["date"] <= end) ----

  /** The mask of one row; only a range whose start is not after its end can hold a date. */
  predicate InRange(d: Date, start: Date, end: Date)
    ensures InRange(d, start, end) ==> OnOrBefore(start, end)
  {
    OnOrBeforeIsTotalOrder(start, d, end);
    OnOrBefore(start, d) && OnOrBefore(d, end)
  }

  /** The rows dated within [start, end], both ends included, in stored order. */
  function Filter(ts: seq<Transaction>, start: Date, end: Date): (r: seq<Transaction>)
    ensures forall t :: t in r <==> t in ts && InRange(t.date, start, end)
    ensures |r| <= |ts|
    decreases |ts|
  {
    if ts == [] then []
    else (if InRange(ts[0].date, start, end) then [ts[0]] else []) + Filter(ts[1..], start, end)
  }

  /** `a` is `b` with some elements left out, the rest in the same order. */
  predicate IsSubsequence(a: seq<Transaction>, b: seq<Transaction>)
    decreases |b|
  {
    if a == [] then true
    else if b == [] then false
    else (a[0] == b[0] && IsSubsequence(a[1..], b[1..])) || IsSubsequence(a, b[1..])
  }

  lemma {:induction false} FilterIsSubsequence(ts: seq<Transaction>, start: Date, end: Date)
    ensures IsSubsequence(Filter(ts, start, end), ts)
    decreases |ts|
  {
    if ts != [] {
      var rest := Filter(ts[1..], start, end);
      FilterIsSubsequence(ts[1..], start, end);
      if InRange(ts[0].date, start, end) {
        assert Filter(ts, start, end) == [ts[0]] + rest;
        assert ([ts[0]] + rest)[1..] == rest;
      } else {
        assert Filter(ts, start, end) == rest;
      }
    }
  }

  /** Filtering works row by row: filtering a concatenation concatenates the filtered parts. */
  lemma {:induction false} FilterAppend(a: seq<Transaction>, b: seq<Transaction>, start: Date, end: Date)
    ensures Filter(a + b, start, end) == Filter(a, start, end) + Filter(b, start, end)
    decreases |a|
  {
    if a == [] {
      assert a + b == b;
    } else {
      assert (a + b)[0] == a[0] && (a + b)[1..] == a[1..] + b;
      FilterAppend(a[1..], b, start, end);
    }
  }

  /** A range whose start lies after its end selects nothing. */
  lemma FilterEmptyWhenStartAfterEnd(ts: seq<Transaction>, start: Date, end: Date)
    requires Before(end, start)
    ensures Filter(ts, start, end) == []
  {
    var r := Filter(ts, start, end);
    if r != [] {
      assert r[0] in r;
      OnOrBeforeIsTotalOrder(start, r[0].date, end);
      OnOrBeforeIsTotalOrder(start, end, start);
      assert false;
    }
  }

  // ---- The summary ----

  /** filtered_df[filtered_df["category"] == c]["amount"].sum() */
  function CategoryTotal(ts: seq<Transaction>, c: Category): (r: real)
    ensures (forall i :: 0 <= i < |ts| ==> ts[i].category != c) ==> r == 0.0
    decreases |ts|
  {
    if ts == [] then 0.0
    else (if ts[0].category == c then ts[0].amount else 0.0) + CategoryTotal(ts[1..], c)
  }

  /** With positive amounts a category total is never negative, and positive exactly when the category occurs. */
  lemma {:induction false} CategoryTotalSign(ts: seq<Transaction>, c: Category)
    requires forall i :: 0 <= i < |ts| ==> ts[i].amount > 0.0
    ensures CategoryTotal(ts, c) >= 0.0
    ensures CategoryTotal(ts, c) > 0.0 <==> exists i :: 0 <= i < |ts| && ts[i].category == c
    decreases |ts|
  {
    if ts != [] {
      CategoryTotalSign(ts[1..], c);
      assert forall i :: 1 <= i < |ts| ==> ts[i] == ts[1..][i - 1];
    }
  }

  /** The sum of every amount, whatever its category. */
  function AmountTotal(ts: seq<Transaction>): (r: real)
    decreases |ts|
  {
    if ts == [] then 0.0 else ts[0].amount + AmountTotal(ts[1..])
  }

  /** Every amount is either income or expense, so the two totals add up to the grand total. */
  lemma {:induction false} IncomeAndExpenseCoverAll(ts: seq<Transaction>)
    ensures CategoryTotal(ts, Income) + CategoryTotal(ts, Expense) == AmountTotal(ts)
    decreases |ts|
  {
    if ts != [] {
      IncomeAndExpenseCoverAll(ts[1..]);
    }
  }

  lemma {:induction false} CategoryTotalAppend(a: seq<Transaction>, b: seq<Transaction>, c: Category)
    ensures CategoryTotal(a + b, c) == CategoryTotal(a, c) + CategoryTotal(b, c)
    decreases |a|
  {
    if a == [] {
      assert a + b == b;
    } else {
      assert (a + b)[0] == a[0] && (a + b)[1..] == a[1..] + b;
      CategoryTotalAppend(a[1..], b, c);
    }
  }

  datatype Totals = Totals(income: real, expense: real, net: real)

  /** Total income, total expense and net savings (income minus expense). */
  function Summarize(ts: seq<Transaction>): (r: Totals)
    ensures r.net == r.income - r.expense
    ensures r.income + r.expense == AmountTotal(ts)
  {
    IncomeAndExpenseCoverAll(ts);
    var income := CategoryTotal(ts, Income);
    var expense := CategoryTotal(ts, Expense);
    Totals(income, expense, income - expense)
  }

  // ---- get_transactions ----

  /** Why a query stops: the exceptions get_transactions lets escape. */
  datatype QueryError =
    | StoreMissing                   // pd.read_csv: FileNotFoundError
    | BadStoredDate(row: nat)        // pd.to_datetime: a stored date does not parse (ValueError)
    | StoredDateOutOfRange(row: nat) // pd.to_datetime: a stored date outside the timestamp range (OutOfBoundsDatetime)
    | BadStartDate             // datetime.strptime(start_date, FORMAT)
    | BadEndDate               // datetime.strptime(end_date, FORMAT)

  /** The selected rows, and the summary that is printed when there is at least one. */
  datatype Report = Report(selected: seq<Transaction>, totals: Option<Totals>)

  /** The exception pd.to_datetime raises at the first row it cannot convert. */
  function LoadError(rows: seq<Row>, i: nat): (e: QueryError)
    requires i < |rows| && !Loadable(rows[i].date)
    ensures e.BadStoredDate? <==> Parse(rows[i].date).None?
    ensures e.StoredDateOutOfRange? <==> Parse(rows[i].date).Some?
    ensures e.BadStoredDate? || e.StoredDateOutOfRange?
    ensures e.row == i
  {
    if Parse(rows[i].date).None? then BadStoredDate(i) else StoredDateOutOfRange(i)
  }

  /** get_transactions(start, end) on the file `l`. */
  function Query(l: Ledger, start: string, end: string): (r: Result<Report, QueryError>)
    ensures !l.present ==> r == Err(StoreMissing)
    ensures l.present && ParseRows(l.rows).Err? ==> r == Err(LoadError(l.rows, ParseRows(l.rows).error))
    ensures l.present && ParseRows(l.rows).Ok? && Parse(start).None? ==> r == Err(BadStartDate)
    ensures l.present && ParseRows(l.rows).Ok? && Parse(start).Some? && Parse(end).None? ==> r == Err(BadEndDate)
    ensures r.Ok? <==> l.present && ParseRows(l.rows).Ok? && Parse(start).Some? && Parse(end).Some?
    ensures r.Ok? ==> r.value.selected == Filter(ParseRows(l.rows).value, Parse(start).value, Parse(end).value)
    ensures r.Ok? ==> (r.value.totals.None? <==> r.value.selected == [])
    ensures r.Ok? && r.value.totals.Some? ==> r.value.totals.value.net == r.value.totals.value.income - r.value.totals.value.expense
  {
    if !l.present then Err(StoreMissing)
    else match ParseRows(l.rows)
      case Err(i) => Err(LoadError(l.rows, i))
      case Ok(ts) =>
        match Parse(start)
        case None => Err(BadStartDate)
        case Some(s) =>
          match Parse(end)
          case None => Err(BadEndDate)
          case Some(e) =>
            var selected := Filter(ts, s, e);
            Ok(Report(selected, if selected == [] then None else Some(Summarize(selected))))
  }

  /**
    The query keeps a stored row exactly when its date lies in [start, end],
    both ends included; what it keeps is a subsequence of the file in file
    order; and the summary is income, expense and their difference over the
    kept rows.
  */
  lemma QuerySelection(l: Ledger, start: string, end: string)
    requires Query(l, start, end).Ok?
    ensures var r := Query(l, start, end).value;
      && IsSubsequence(r.selected, ParseRows(l.rows).value)
      && (forall i :: 0 <= i < |l.rows| ==>
            (Parsed(l.rows[i]) in r.selected <==> InRange(Parsed(l.rows[i]).date, Parse(start).value, Parse(end).value)))
      && (forall t :: t in r.selected ==> InRange(t.date, Parse(start).value, Parse(end).value))
      && (r.totals.Some? ==> r.totals.value == Totals(CategoryTotal(r.selected, Income), CategoryTotal(r.selected, Expense),
            CategoryTotal(r.selected, Income) - CategoryTotal(r.selected, Expense)))
  {
    var ts := ParseRows(l.rows).value;
    FilterIsSubsequence(ts, Parse(start).value, Parse(end).value);
    forall i | 0 <= i < |l.rows| ensures Parsed(l.rows[i]) in ts {
      assert ts[i] == Parsed(l.rows[i]);
    }
  }

  /**
    On a file the program wrote, a query with two valid dates fails only when
    a stored date lies outside the timestamp range, and then names such a row.
  */
  lemma QueryOnWellFormedStore(l: Ledger, start: string, end: string)
    requires l.present && WellFormed(l.rows)
    requires Parse(start).Some? && Parse(end).Some?
    ensures Query(l, start, end).Ok? <==>
      forall i :: 0 <= i < |l.rows| ==> InTimestampRange(Parse(l.rows[i].date).value)
    ensures var q := Query(l, start, end);
      q.Err? ==> q.error.StoredDateOutOfRange? && OutOfRangeRow(l.rows, q.error.row)
  {
  }

  /** Every selected row has a positive amount, so the totals are never negative. */
  lemma {:induction false} TotalsOfWellFormedStore(l: Ledger, start: string, end: string)
    requires WellFormed(l.rows) && Query(l, start, end).Ok?
    ensures forall t :: t in Query(l, start, end).value.selected ==> t.amount > 0.0
    ensures Query(l, start, end).value.totals.Some? ==>
      Query(l, start, end).value.totals.value.income >= 0.0 &&
      Query(l, start, end).value.totals.value.expense >= 0.0
  {
    var ts := ParseRows(l.rows).value;
    var selected := Query(l, start, end).value.selected;
    QuerySelection(l, start, end);
    forall t | t in selected ensures t.amount > 0.0 {
      assert t in ts;
      var i :| 0 <= i < |ts| && ts[i] == t;
      assert l.rows[i].amount > 0.0;
    }
    assert forall i :: 0 <= i < |selected| ==> selected[i] in selected;
    CategoryTotalSign(selected, Income);
    CategoryTotalSign(selected, Expense);
  }

  /**
    After add_entry(d, ...) the query for the single day d finds the new row,
    last, after whatever the earlier rows had on that day; when no earlier row
    was dated d it finds exactly the new one.
  */
  lemma {:induction false} QueryFindsAddedEntry(l: Ledger, row: Row)
    requires l.present && Parse(row.date).Some?
    ensures Query(Appended(l, row), row.date, row.date).Ok? <==> ParseRows(l.rows).Ok? && Loadable(row.date)
    ensures var d := Parse(row.date).value;
      Query(Appended(l, row), row.date, row.date).Ok? ==>
      Query(Appended(l, row), row.date, row.date).value.selected
        == Filter(ParseRows(l.rows).value, d, d) + [Parsed(row)]
    ensures
      && Query(Appended(l, row), row.date, row.date).Ok?
      && (forall i :: 0 <= i < |l.rows| ==> l.rows[i].date != row.date)
      ==> Query(Appended(l, row), row.date, row.date).value.selected == [Parsed(row)]
  {
    var all := l.rows + [row];
    assert Appended(l, row).rows == all;
    assert forall i :: 0 <= i < |l.rows| ==> all[i] == l.rows[i];
    assert all[|l.rows|] == row;
    if ParseRows(l.rows).Ok? && Loadable(row.date) {
      var d := Parse(row.date).value;
      var ts := ParseRows(l.rows).value;
      ParseRowsAppend(l.rows, row);
      FilterAppend(ts, [Parsed(row)], d, d);
      assert Filter([Parsed(row)], d, d) == [Parsed(row)];
      if forall i :: 0 <= i < |l.rows| ==> l.rows[i].date != row.date {
        NothingElseOnThatDay(l.rows, row.date);
      }
    }
  }

  /** Loaded dates are canonical, so a day no stored text names selects nothing. */
  lemma NothingElseOnThatDay(rows: seq<Row>, date: string)
    requires ParseRows(rows).Ok? && Parse(date).Some?
    requires forall i :: 0 <= i < |rows| ==> rows[i].date != date
    ensures Filter(ParseRows(rows).value, Parse(date).value, Parse(date).value) == []
  {
    var d := Parse(date).value;
    forall t | t in ParseRows(rows).value ensures t.date != d {
      var i :| 0 <= i < |rows| && ParseRows(rows).value[i] == t;
      FormatParse(rows[i].date);
      FormatParse(date);
    }
  }

  /** The two example dates as the date column holds them. */
  lemma ExampleDates()
    ensures Parse("01-01-2023") == Some(Date(2023, 1, 1))
    ensures Parse("01-02-2023") == Some(Date(2023, 1, 2))
  {
    assert Format(Date(2023, 1, 1)) == "01-01-2023";
    assert Format(Date(2023, 1, 2)) == "01-02-2023";
    ParseFormat(Date(2023, 1, 1));
    ParseFormat(Date(2023, 1, 2));
  }

  /** A $100 income on 01-01-2023 and a $40 expense on 01-02-2023: income 100, expense 40, net 60. */
  lemma SummaryExample(rows: seq<Row>)
    requires rows == [Row("01-01-2023", 100.0, Income, "salary"), Row("01-02-2023", 40.0, Expense, "groceries")]
    ensures Query(Ledger(true, Columns, rows), "01-01-2023", "01-02-2023") ==
      Ok(Report([
          Transaction(Date(2023, 1, 1), 100.0, Income, "salary"),
          Transaction(Date(2023, 1, 2), 40.0, Expense, "groceries")],
        Some(Totals(100.0, 40.0, 60.0))))
  {
    var jan1, jan2 := Date(2023, 1, 1), Date(2023, 1, 2);
    var ts := [Transaction(jan1, 100.0, Income, "salary"), Transaction(jan2, 40.0, Expense, "groceries")];
    ExampleDates();
    assert ParseRows(rows) == Ok(ts) by {
      assert rows[0].date == "01-01-2023" && rows[1].date == "01-02-2023";
      assert ParseRows(rows).Ok?;
      var parsed := ParseRows(rows).value;
      assert parsed[0] == Parsed(rows[0]) == ts[0];
      assert parsed[1] == Parsed(rows[1]) == ts[1];
      assert |parsed| == 2 && parsed == ts;
    }
    assert Filter(ts, jan1, jan2) == ts by {
      assert Filter(ts[1..], jan1, jan2) == [ts[1]];
    }
    assert CategoryTotal(ts, Income) == 100.0 by {
      assert CategoryTotal(ts[1..], Income) == 0.0;
    }
    assert CategoryTotal(ts, Expense) == 40.0 by {
      assert CategoryTotal(ts[1..], Expense) == 40.0;
    }
  }

  // ---- The backing file as an object ----

  /** The CSV class: the backing file, read and written in place. */
  class TransactionStore {
    var present: bool
    var header: seq<string>
    var rows: seq<Row>

    function State(): Ledger
      reads this
    {
      Ledger(present, header, rows)
    }

    ghost predicate Valid()
      reads this
    {
      LedgerValid(State())
    }

    /** The file as found when the program starts: absent, or present with earlier rows. */
    constructor Open(existing: Option<seq<Row>>)
      ensures Valid()
      ensures present == existing.Some?
      ensures existing.Some? ==> header == Columns && rows == existing.value
    {
      present := existing.Some?;
      header := if existing.Some? then Columns else [];
      rows := if existing.Some? then existing.value else [];
    }

    /** initialize_csv */
    method InitializeCsv()
      requires Valid()
      modifies this
      ensures Valid() && present && header == Columns
      ensures old(present) ==> rows == old(rows)
      ensures !old(present) ==> rows == []
      ensures State() == Initialized(old(State()))
    {
      if !present {
        present, header, rows := true, Columns, [];
      }
    }

    /** add_entry: append one row in Columns order; earlier rows stay as they are. */
    method AddEntry(date: string, amount: real, category: Category, description: string)
      requires Valid() && present
      modifies this
      ensures Valid() && present && header == old(header)
      ensures rows == old(rows) + [Row(date, amount, category, description)]
      ensures State() == Appended(old(State()), Row(date, amount, category, description))
    {
      rows := rows + [Row(date, amount, category, description)];
    }

    /** get_transactions: load, parse, filter by [start, end] and summarise. */
    method GetTransactions(start: string, end: string) returns (r: Result<Report, QueryError>)
      requires Valid()
      ensures r == Query(State(), start, end)
    {
      r := Query(State(), start, end);
    }
  }
}
