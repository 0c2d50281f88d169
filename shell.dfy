/**
  The interactive shell of main.py: add() and the menu loop of main().
  Session is the whole run as a function of the input lines; RunMenu is the
  loop itself, driving a TransactionStore, and is proved to follow Session.
*/
module Shell {
  import opened Wrappers
  import opened Text
  import opened Dates
  import opened DataEntry
  import opened Store

  /**
    The prompts of add(), in order: date (empty means today), amount, category
    and description, each reading on from where the previous one stopped. The
    row is their four answers; there is none when a prompt runs out of input.
  */
  function CollectEntry(lines: seq<string>, today: Date): (r: Option<Answer<Row>>)
    requires ValidDate(today)
    ensures r.Some? ==> 4 <= r.value.used <= |lines|
    ensures r.Some? ==> Parse(r.value.item.date).Some? && r.value.item.amount > 0.0
    ensures r.Some? ==>
      var date := GetDate(lines, true, today);
      && date.Some? && r.value.item.date == date.value.item && date.value.used < r.value.used
      && FieldsRead(lines[date.value.used..], r.value.item.amount, r.value.item.category,
                    r.value.item.description, r.value.used - date.value.used)
    ensures r.None? <==>
      var date := GetDate(lines, true, today);
      date.None? || FieldsMissing(lines[date.value.used..])
  {
    var date := GetDate(lines, true, today);
    if date.None? then None
    else
      var rest := CollectAfterDate(lines[date.value.used..]);
      if rest.None? then None
      else
        var fields := rest.value.item;
        Some(Answer(Row(date.value.item, fields.0, fields.1, fields.2), date.value.used + rest.value.used))
  }

  /**
    The amount, category and description prompts answered one after another
    from `lines`, with these answers, in `used` lines in all.
  */
  predicate FieldsRead(lines: seq<string>, amount: real, category: Category, description: string, used: nat) {
    var a := GetAmount(lines);
    && a.Some? && amount == a.value.item
    && var c := GetCategory(lines[a.value.used..]);
    && c.Some? && category == c.value.item
    && var k := a.value.used + c.value.used;
    && k < |lines| && description == lines[k] && used == k + 1
  }

  /** One of the amount, category and description prompts runs out of input. */
  predicate FieldsMissing(lines: seq<string>) {
    var a := GetAmount(lines);
    || a.None?
    || var c := GetCategory(lines[a.value.used..]);
    || c.None?
    || a.value.used + c.value.used == |lines|
  }

  /** The amount, category and description prompts of add(), on the input left after the date. */
  function CollectAfterDate(lines: seq<string>): (r: Option<Answer<(real, Category, string)>>)
    ensures r.Some? ==> 3 <= r.value.used <= |lines| && r.value.item.0 > 0.0
    ensures r.Some? ==> FieldsRead(lines, r.value.item.0, r.value.item.1, r.value.item.2, r.value.used)
    ensures r.None? <==> FieldsMissing(lines)
  {
    var amount := GetAmount(lines);
    if amount.None? then None
    else
      var category := GetCategory(lines[amount.value.used..]);
      if category.None? then None
      else
        var k := amount.value.used + category.value.used;
        var description := GetDescription(lines[k..]);
        assert k < |lines| ==> lines[k..][0] == lines[k];
        if description.None? then None
        else Some(Answer((amount.value.item, category.value.item, description.value.item), k + 1))
  }

  /**
    Without a default get_date never looks at today's date (GetDateWithoutDefault),
    so any valid date stands in for it.
  */
  const AnyDay := Date(2000, 1, 1)

  /** The start and end prompts of menu choice 2, in that order; neither has a default. */
  function CollectRange(lines: seq<string>): (r: Option<Answer<(string, string)>>)
    ensures r.Some? ==> 2 <= r.value.used <= |lines|
    ensures r.Some? ==> Parse(r.value.item.0).Some? && Parse(r.value.item.1).Some?
    ensures r.Some? ==>
      var start := GetDate(lines, false, AnyDay);
      && start.Some? && r.value.item.0 == start.value.item
      && var end := GetDate(lines[start.value.used..], false, AnyDay);
      && end.Some? && r.value.item.1 == end.value.item
      && r.value.used == start.value.used + end.value.used
    ensures r.None? <==>
      var start := GetDate(lines, false, AnyDay);
      || start.None?
      || GetDate(lines[start.value.used..], false, AnyDay).None?
  {
    match GetDate(lines, false, AnyDay)
    case None => None
    case Some(start) =>
      match GetDate(lines[start.used..], false, AnyDay)
      case None => None
      case Some(end) => Some(Answer((start.item, end.item), start.used + end.used))
  }

  /** The plot question: input(...).lower() == 'y'. */
  function WantsPlot(answer: string): (b: bool)
    ensures b <==> answer == "y" || answer == "Y"
  {
    LowerIsLetter(answer, 'y');
    Lower(answer) == "y"
  }

  /** What the user sees happen, in order. */
  datatype Event =
    | Added(row: Row)                      // "Entry added successfully."
    | Reported(report: Report)             // the rows and summary of a query
    | Plotted(selected: seq<Transaction>)  // plot_transactions was called
    | InvalidChoice(choice: string)        // "Invalid choice. ..."

  /** How a run ends: choice 3, input running out (EOFError), or an exception from a query. */
  datatype Ending = Exited | InputEnded | Failed(error: QueryError)

  datatype Outcome = Outcome(ledger: Ledger, events: seq<Event>, ending: Ending)

  /** An outcome preceded by some events already seen. */
  function After(events: seq<Event>, o: Outcome): (r: Outcome) {
    o.(events := events + o.events)
  }

  /** One pass through the menu: back to the menu with the remaining lines, or the end of the run. */
  datatype Step =
    | Continue(ledger: Ledger, events: seq<Event>, rest: seq<string>)
    | Stop(ledger: Ledger, events: seq<Event>, ending: Ending)

  /** Menu choice 1: add() on the file, reading its answers from `rest`. */
  function AddStep(l: Ledger, rest: seq<string>, today: Date): (s: Step)
    requires LedgerValid(l) && ValidDate(today)
    ensures s.Continue? ==> |s.rest| < |rest|
    ensures LedgerValid(s.ledger)
  {
    var l' := Initialized(l);
    match CollectEntry(rest, today)
    case None => Stop(l', [], InputEnded)
    case Some(entry) => Continue(Appended(l', entry.item), [Added(entry.item)], rest[entry.used..])
  }

  /** Menu choice 2: read a date range, report on it, then ask whether to plot. */
  function QueryStep(l: Ledger, rest: seq<string>): (s: Step)
    requires LedgerValid(l)
    ensures s.Continue? ==> |s.rest| < |rest|
    ensures s.ledger == l
  {
    match CollectRange(rest)
    case None => Stop(l, [], InputEnded)
    case Some(range) => Reporting(l, Query(l, range.item.0, range.item.1), rest[range.used..])
  }

  /** After get_transactions: stop on its exception, otherwise show the report and ask whether to plot. */
  function Reporting(l: Ledger, result: Result<Report, QueryError>, rest: seq<string>): (s: Step)
    ensures s.Continue? ==> |s.rest| < |rest|
    ensures s.ledger == l
  {
    match result
    case Err(e) => Stop(l, [], Failed(e))
    case Ok(report) =>
      if rest == [] then Stop(l, [Reported(report)], InputEnded)
      else
        var plot := if WantsPlot(rest[0]) then [Plotted(report.selected)] else [];
        Continue(l, [Reported(report)] + plot, rest[1..])
  }

  /** One iteration of the while loop of main(), on a non-empty input: dispatch on the choice. */
  function MenuStep(l: Ledger, lines: seq<string>, today: Date): (s: Step)
    requires LedgerValid(l) && ValidDate(today) && lines != []
    ensures s.Continue? ==> |s.rest| < |lines|
    ensures LedgerValid(s.ledger)
  {
    var choice, rest := lines[0], lines[1..];
    if choice == "1" then AddStep(l, rest, today)
    else if choice == "2" then QueryStep(l, rest)
    else if choice == "3" then Stop(l, [], Exited)
    else Continue(l, [InvalidChoice(choice)], rest)
  }

  /** main(): the menu loop run on the file `l` and the input `lines`. */
  function Session(l: Ledger, lines: seq<string>, today: Date): (o: Outcome)
    requires LedgerValid(l) && ValidDate(today)
    ensures LedgerValid(o.ledger)
    decreases |lines|
  {
    if lines == [] then Outcome(l, [], InputEnded)
    else match MenuStep(l, lines, today)
      case Stop(l', events, ending) => Outcome(l', events, ending)
      case Continue(l', events, rest) => After(events, Session(l', rest, today))
  }

  /** Session on a non-empty input, in terms of the first MenuStep. */
  lemma SessionUnfold(l: Ledger, lines: seq<string>, today: Date)
    requires LedgerValid(l) && ValidDate(today) && lines != []
    ensures var s := MenuStep(l, lines, today);
      Session(l, lines, today) ==
        if s.Continue? then After(s.events, Session(s.ledger, s.rest, today))
        else Outcome(s.ledger, s.events, s.ending)
  {
  }

  /** The rows the Added events of a run appended, in order. */
  function AddedRows(events: seq<Event>): (rows: seq<Row>) {
    if events == [] then []
    else (if events[0].Added? then [events[0].row] else []) + AddedRows(events[1..])
  }

  lemma {:induction false} AddedRowsAppend(a: seq<Event>, b: seq<Event>)
    ensures AddedRows(a + b) == AddedRows(a) + AddedRows(b)
    decreases |a|
  {
    if a == [] {
      assert a + b == b;
    } else {
      assert (a + b)[0] == a[0] && (a + b)[1..] == a[1..] + b;
      AddedRowsAppend(a[1..], b);
    }
  }

  /** One pass through the menu appends exactly the rows it reports added, each with a valid date and a positive amount. */
  lemma StepAppendsOnly(l: Ledger, lines: seq<string>, today: Date)
    requires LedgerValid(l) && ValidDate(today) && lines != []
    ensures MenuStep(l, lines, today).ledger.rows == l.rows + AddedRows(MenuStep(l, lines, today).events)
    ensures WellFormed(AddedRows(MenuStep(l, lines, today).events))
    ensures l.present ==> MenuStep(l, lines, today).ledger.present
  {
    if lines[0] == "1" {
      AddStepAppendsOne(l, lines[1..], today);
    } else if lines[0] == "2" {
      QueryStepAddsNothing(l, lines[1..]);
    } else if lines[0] != "3" {
      NoAddedRows([InvalidChoice(lines[0])]);
    }
  }

  /** Menu choice 1 creates the file and appends at most the one row it reports added. */
  lemma AddStepAppendsOne(l: Ledger, rest: seq<string>, today: Date)
    requires LedgerValid(l) && ValidDate(today)
    ensures AddStep(l, rest, today).ledger.rows == l.rows + AddedRows(AddStep(l, rest, today).events)
    ensures WellFormed(AddedRows(AddStep(l, rest, today).events))
    ensures AddStep(l, rest, today).ledger.present
  {
    match CollectEntry(rest, today)
    case None =>
    case Some(entry) =>
      assert AddedRows([Added(entry.item)]) == [entry.item];
  }

  /** A query step never adds a row. */
  lemma QueryStepAddsNothing(l: Ledger, rest: seq<string>)
    requires LedgerValid(l)
    ensures AddedRows(QueryStep(l, rest).events) == []
  {
    match CollectRange(rest)
    case None =>
    case Some(range) =>
      ReportingAddsNothing(l, Query(l, range.item.0, range.item.1), rest[range.used..]);
  }

  lemma ReportingAddsNothing(l: Ledger, result: Result<Report, QueryError>, rest: seq<string>)
    ensures AddedRows(Reporting(l, result, rest).events) == []
  {
    var events := Reporting(l, result, rest).events;
    assert forall e :: e in events ==> !e.Added?;
    NoAddedRows(events);
  }

  lemma {:induction false} NoAddedRows(events: seq<Event>)
    requires forall e :: e in events ==> !e.Added?
    ensures AddedRows(events) == []
    decreases |events|
  {
    if events != [] {
      assert events[0] in events;
      assert forall e :: e in events[1..] ==> e in events;
      NoAddedRows(events[1..]);
    }
  }

  /**
    The file is append-only: at the end of a run it holds the rows it started
    with followed by exactly the rows the run added, every added row has a
    valid date and a positive amount, and a file that existed still exists.
  */
  lemma {:induction false} SessionAppendsOnly(l: Ledger, lines: seq<string>, today: Date)
    requires LedgerValid(l) && ValidDate(today)
    ensures Session(l, lines, today).ledger.rows == l.rows + AddedRows(Session(l, lines, today).events)
    ensures WellFormed(AddedRows(Session(l, lines, today).events))
    ensures l.present ==> Session(l, lines, today).ledger.present
    decreases |lines|
  {
    if lines != [] {
      var s := MenuStep(l, lines, today);
      StepAppendsOnly(l, lines, today);
      SessionUnfold(l, lines, today);
      if s.Continue? {
        SessionAppendsOnly(s.ledger, s.rest, today);
        AppendsCompose(l, s.ledger, s.events, Session(s.ledger, s.rest, today));
      }
    }
  }

  /** Two append-only stretches, one after the other, make one. */
  lemma AppendsCompose(l: Ledger, mid: Ledger, events: seq<Event>, o: Outcome)
    requires mid.rows == l.rows + AddedRows(events) && WellFormed(AddedRows(events))
    requires o.ledger.rows == mid.rows + AddedRows(o.events) && WellFormed(AddedRows(o.events))
    ensures After(events, o).ledger.rows == l.rows + AddedRows(After(events, o).events)
    ensures WellFormed(AddedRows(After(events, o).events))
  {
    AddedRowsAppend(events, o.events);
    WellFormedAppend(AddedRows(events), AddedRows(o.events));
  }

  /**
    How a run can stop on an exception from get_transactions: the file was never
    created, or a stored date lies outside the timestamp range.
  */
  predicate QueryFailureExplained(start: Ledger, final: Ledger, e: QueryError) {
    || (e == StoreMissing && !start.present)
    || (e.StoredDateOutOfRange? && OutOfRangeRow(final.rows, e.row))
  }

  /**
    On a file the program wrote, one pass of the menu stops on a query exception
    only when the file is missing or holds a date outside the timestamp range.
  */
  lemma StepQueryFailures(l: Ledger, lines: seq<string>, today: Date)
    requires LedgerValid(l) && ValidDate(today) && lines != [] && WellFormed(l.rows)
    ensures var s := MenuStep(l, lines, today);
      s.Stop? && s.ending.Failed? ==> QueryFailureExplained(l, s.ledger, s.ending.error)
  {
    if lines[0] == "2" {
      match CollectRange(lines[1..])
      case None =>
      case Some(range) =>
        if l.present {
          QueryOnWellFormedStore(l, range.item.0, range.item.1);
        }
    }
  }

  /**
    A run on a file the program wrote never stops on a malformed stored date:
    it stops on a query exception only when the file did not exist at the start
    and was never created, or when a date the file holds lies outside the
    timestamp range.
  */
  lemma {:induction false} SessionQueryFailures(l: Ledger, lines: seq<string>, today: Date)
    requires LedgerValid(l) && ValidDate(today) && WellFormed(l.rows)
    ensures var o := Session(l, lines, today);
      o.ending.Failed? ==> QueryFailureExplained(l, o.ledger, o.ending.error)
    decreases |lines|
  {
    if lines != [] {
      var s := MenuStep(l, lines, today);
      StepQueryFailures(l, lines, today);
      SessionUnfold(l, lines, today);
      if s.Continue? {
        StepAppendsOnly(l, lines, today);
        WellFormedAppend(l.rows, AddedRows(s.events));
        SessionQueryFailures(s.ledger, s.rest, today);
      }
    }
  }

  /** The dispatch of one menu choice. */
  lemma MenuDispatch(l: Ledger, choice: string, rest: seq<string>, today: Date)
    requires LedgerValid(l) && ValidDate(today)
    ensures choice == "3" ==> Session(l, [choice] + rest, today) == Outcome(l, [], Exited)
    ensures choice !in {"1", "2", "3"} ==>
      Session(l, [choice] + rest, today) == After([InvalidChoice(choice)], Session(l, rest, today))
    ensures choice == "1" ==> Session(l, [choice] + rest, today).ledger.present
    ensures choice == "1" ==>
      var entry := CollectEntry(rest, today);
      var s := MenuStep(l, [choice] + rest, today);
      && (entry.None? ==> s == Stop(Initialized(l), [], InputEnded))
      && (entry.Some? ==>
            s == Continue(Appended(Initialized(l), entry.value.item), [Added(entry.value.item)], rest[entry.value.used..]))
    ensures choice == "2" && CollectRange(rest).Some? ==>
      var range := CollectRange(rest).value;
      var q := Query(l, range.item.0, range.item.1);
      var after := rest[range.used..];
      var s := MenuStep(l, [choice] + rest, today);
      && (q.Err? ==> s == Stop(l, [], Failed(q.error)))
      && (q.Ok? && after != [] ==>
            && s.Continue? && s.ledger == l && s.rest == after[1..]
            && s.events != [] && s.events[0] == Reported(q.value)
            && (Plotted(q.value.selected) in s.events <==> after[0] == "y" || after[0] == "Y"))
  {
    var lines := [choice] + rest;
    assert lines[0] == choice && lines[1..] == rest;
    if choice == "1" {
      var s := MenuStep(l, lines, today);
      if s.Continue? {
        SessionAppendsOnly(s.ledger, s.rest, today);
      }
    }
  }

  /** add(): initialise the file, collect the four fields, append the row. */
  method Add(store: TransactionStore, lines: seq<string>, today: Date) returns (entry: Option<Answer<Row>>)
    requires store.Valid() && ValidDate(today)
    modifies store
    ensures store.Valid() && store.present
    ensures entry == CollectEntry(lines, today)
    ensures entry.None? ==> store.State() == Initialized(old(store.State()))
    ensures entry.Some? ==> store.State() == Appended(Initialized(old(store.State())), entry.value.item)
  {
    store.InitializeCsv();
    entry := CollectEntry(lines, today);
    if entry.Some? {
      var row := entry.value.item;
      store.AddEntry(row.date, row.amount, row.category, row.description);
    }
  }

  /** Menu choice 2 on the store: read the range, run get_transactions, ask about the plot. */
  method ViewTransactions(store: TransactionStore, rest: seq<string>) returns (step: Step)
    requires store.Valid()
    ensures step == QueryStep(store.State(), rest)
  {
    var range := CollectRange(rest);
    if range.None? {
      return Stop(store.State(), [], InputEnded);
    }
    var result := store.GetTransactions(range.value.item.0, range.value.item.1);
    step := Reporting(store.State(), result, rest[range.value.used..]);
  }

  /** The body of the while loop of main(): read a choice and carry it out on the store. */
  method RunChoice(store: TransactionStore, lines: seq<string>, today: Date) returns (step: Step)
    requires store.Valid() && ValidDate(today) && lines != []
    modifies store
    ensures store.Valid()
    ensures step == MenuStep(old(store.State()), lines, today)
    ensures store.State() == step.ledger
  {
    var choice, rest := lines[0], lines[1..];
    if choice == "1" {
      var entry := Add(store, rest, today);
      if entry.None? {
        step := Stop(store.State(), [], InputEnded);
      } else {
        step := Continue(store.State(), [Added(entry.value.item)], rest[entry.value.used..]);
      }
    } else if choice == "2" {
      step := ViewTransactions(store, rest);
    } else if choice == "3" {
      step := Stop(store.State(), [], Exited);
    } else {
      step := Continue(store.State(), [InvalidChoice(choice)], rest);
    }
  }

  /** main(): the menu loop, proved to run exactly as Session describes. */
  method RunMenu(store: TransactionStore, lines: seq<string>, today: Date) returns (events: seq<Event>, ending: Ending)
    requires store.Valid() && ValidDate(today)
    modifies store
    ensures store.Valid()
    ensures Session(old(store.State()), lines, today) == Outcome(store.State(), events, ending)
  {
    var rest := lines;
    events := [];
    while true
      invariant store.Valid()
      invariant Session(old(store.State()), lines, today) == After(events, Session(store.State(), rest, today))
      decreases |rest|
    {
      if rest == [] {
        ending := InputEnded;
        return;
      }
      var step := RunChoice(store, rest, today);
      if step.Stop? {
        events, ending := events + step.events, step.ending;
        break;
      }
      assert Session(step.ledger, step.rest, today) == Session(store.State(), step.rest, today);
      events, rest := events + step.events, step.rest;
    }
  }
}
