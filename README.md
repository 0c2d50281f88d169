# Personal finance tracker — verified model

This project models the command-line personal finance tracker. The model has two parts.

- **Data entry** (`data_entry.py`) holds the validated prompts:
  - a date in `MM-DD-YYYY`, or today's date when a default is allowed;
  - a strictly positive amount;
  - a category code `I` or `E`, in either case;
  - a free-text description.
- **The shell** (`main.py`) holds everything else:
  - the `CSV` class, which keeps the backing file of transactions under a fixed header and appends to it;
  - the date-range query, with its income, expense and net-savings summary;
  - the `add()` flow;
  - the menu loop of `main()`.

The terminal is a sequence of input lines. Each prompt is a function of the lines. It returns the first acceptable answer and the number of lines it read. It returns `None` when the lines run out, which is where Python's `input()` raises `EOFError`. As in the source, a prompt retries by calling itself on the remaining lines. Unlike the source, the model places no bound on the depth of these calls (see "## Left out").

The backing file is the class `Store.TransactionStore`. Its fields say whether the file exists, and hold its header and its rows. Its methods update those fields in place:

- `InitializeCsv`;
- `AddEntry`;
- `GetTransactions`, which changes nothing.

Each method is specified against a pure function of the file's state: `Initialized`, `Appended` and `Query`.

The menu loop `Shell.RunMenu` is a `while` loop over the store. It is proved to follow `Shell.Session`, a pure description of the whole run: the file at the end, what the user saw, and how the run ended. The properties are proved about `Session`:

- the file is append-only;
- every added row has a valid date and a positive amount;
- a query stops on an exception only in two cases: the file was never created, or it holds a date outside the range of a pandas timestamp (1677-09-22 to 2262-04-11). `get_date` accepts any year from 1 to 9999, so the program can write such a date itself. This holds with years zero-padded to four digits; see `Dates.Format` under "## Left out" for C libraries that do not pad.

Dates are compared as calendar dates `(year, month, day)`. `Dates.OnOrBeforeIsOrdinalOrder` shows that this order agrees with an independent count of days since 0001-01-01. `Dates.TextOrderIsNotChronological` shows why the query cannot compare the `MM-DD-YYYY` texts directly.

Modules:

| module | file | models |
|---|---|---|
| `Wrappers` | `wrappers.dfy` | `Option` and `Result` |
| `Text` | `text.dfy` | digits, zero padding, ASCII case mapping |
| `Dates` | `dates.dfy` | `strptime`/`strftime` with `%m-%d-%Y`, calendar validity, date order |
| `DataEntry` | `data_entry.dfy` | `data_entry.py` |
| `Store` | `store.dfy` | the `CSV` class of `main.py` |
| `Shell` | `shell.dfy` | `add()` and `main()` of `main.py` |

Two behaviours of the code are worth stating plainly:

- Only `add()` creates the file. A query on a missing file raises `FileNotFoundError` from `pd.read_csv` (`main.py:41`). The model ends such a run with `Failed(StoreMissing)`.
- A one-day query after an add returns the earlier rows of that day, then the new one. `Store.QueryFindsAddedEntry` states this, and that only the new row comes back when no earlier row has that day.

## Model

| member | source | states |
|---|---|---|
| Text.UpperIsLetter | data_entry.py:32-33 | `upper()` of an answer is the one-letter key exactly when the answer is that letter in either case |
| Text.LowerIsLetter | main.py:99 | `lower()` of an answer is `"y"` exactly when the answer is `y` or `Y` |
| Dates.Parse | data_entry.py:14 | a date that `strptime("%m-%d-%Y")` accepts is a real calendar day with a year from 1 to 9999 |
| Dates.DaysInMonth | data_entry.py:14 | the number of days `strptime` allows in a month is between 28 and 31 |
| Dates.Format | data_entry.py:16 | `strftime("%m-%d-%Y")` gives ten characters with dashes at positions 2 and 5 |
| Dates.ParseFormat | data_entry.py:14-16 | formatting a valid date and parsing the text back gives the same date |
| Dates.FormatParse | data_entry.py:14-16 | a text that parses is already canonical: `strftime` of its `strptime` gives the same text |
| Dates.NormaliseIdempotent | data_entry.py:14-16 | normalising a date text (parse, then format) is idempotent |
| Dates.OnOrBeforeIsTotalOrder | main.py:46 | the calendar comparison used by the range mask is a total order |
| Dates.OnOrBeforeIsOrdinalOrder | main.py:42-46 | comparing `(year, month, day)` agrees with comparing day numbers counted from 0001-01-01, which is how parsed timestamps compare |
| Dates.TextOrderIsNotChronological | main.py:42-46 | `MM-DD-YYYY` texts do not compare chronologically (12-31-2022 is earlier than 01-01-2023, yet its text sorts later), so the column must be parsed first |
| DataEntry.AcceptDate | data_entry.py:9-16 | one date answer is refused exactly when it does not parse and is not the empty default; an accepted answer always parses |
| DataEntry.AcceptDateText | data_entry.py:9-16 | the empty default gives today formatted; a parsing line gives the `strftime` of its `strptime`, which is the line itself; every answer is canonical |
| DataEntry.GetDate | data_entry.py:6-19 | the answer is the one accepted from the last line read, within the lines given |
| DataEntry.GetDateRefusedLines | data_entry.py:17-19 | every line before the accepted one was refused, and the same prompt was asked again |
| DataEntry.GetDateGivesUp | data_entry.py:6-19 | `get_date` runs out of input exactly when every line is refused |
| DataEntry.GetDateDefaultsToToday | data_entry.py:9-10 | an empty answer with the default allowed returns today as `MM-DD-YYYY`, after one line |
| DataEntry.GetDateRefusesEmptyWithoutDefault | data_entry.py:9-19 | without the default, an empty answer is retried with the same prompt |
| DataEntry.ImpossibleDatesRefused | data_entry.py:14-19 | `02-30-2024` (no such day), `02-03-24` (a two-digit year) and `2024-02-03` (year first) are refused |
| DataEntry.GetDateWithoutDefault | data_entry.py:9-10 | without the default, today's date has no effect on what `get_date` returns |
| DataEntry.DecimalValue | data_entry.py:23 | `float()` of a plain numeral: a negative value needs a leading minus, and a numeral starting with a digit has the value of its digits |
| DataEntry.UnsignedDecimal | data_entry.py:23 | a numeral without a sign denotes a value of at least zero |
| DataEntry.UnsignedDecimalWithPoint | data_entry.py:23 | `whole.fraction` denotes the whole digits plus the fraction digits shifted right by their count |
| DataEntry.AcceptAmount | data_entry.py:23-26 | an accepted amount is the numeral's value and is strictly positive; a positive value is accepted; a leading minus is refused |
| DataEntry.AmountOfWholeNumber | data_entry.py:23-26 | every positive whole number typed in digits is accepted with its value |
| DataEntry.AmountOfCents | data_entry.py:23-26 | every positive amount typed as dollars with two decimals is accepted with its value in cents / 100 |
| DataEntry.GetAmount | data_entry.py:21-29 | the answer is strictly positive and is the one accepted from the last line read |
| DataEntry.GetAmountRefusedLines | data_entry.py:21-29 | every line before the answer was refused, and the prompt runs out of input exactly when every line is refused |
| DataEntry.Categories | data_entry.py:4 | the one-letter codes: `I` for Income and `E` for Expense |
| DataEntry.AcceptCategory | data_entry.py:32-34 | `i`/`I` give Income, `e`/`E` give Expense, and every other answer is refused (both directions) |
| DataEntry.GetCategory | data_entry.py:31-36 | the answer is Income or Expense exactly as the last line read is `i`/`I` or `e`/`E` |
| DataEntry.GetCategoryRefusedLines | data_entry.py:33-36 | every line before the answer is not a category code, and the prompt runs out of input exactly when none is |
| DataEntry.GetDescription | data_entry.py:38-39 | the description is the next line unchanged, the empty line included |
| Store.Columns | main.py:9 | the header of the file: `date`, `amount`, `category`, `description`, in that order |
| Store.Initialized | main.py:15-21 | a missing file is created with exactly the header and no rows; an existing one is left as it is |
| Store.InitializeIsIdempotent | main.py:16-18 | initialising twice is the same as initialising once |
| Store.Appended | main.py:24-36 | add_entry puts exactly one row at the end; the earlier rows and the header are unchanged |
| Store.ParseRows | main.py:42 | converting the date column succeeds exactly when every stored date parses and lies in the timestamp range; it then yields each row with its date parsed, in order; otherwise it names the first row that fails |
| Store.InTimestampRange | main.py:42 | the days a nanosecond timestamp can hold at midnight, 1677-09-22 to 2262-04-11 |
| Store.Loadable | main.py:42 | `pd.to_datetime` converts one stored date cell: it parses as `MM-DD-YYYY` and lies in the timestamp range |
| Store.LoadError | main.py:42 | the exception at the first failing row is `BadStoredDate` exactly when its date does not parse, and `StoredDateOutOfRange` exactly when it parses but lies outside the range |
| Store.ParseRowsAppend | main.py:33-42 | loading a file with one more row yields the earlier load followed by that row |
| Store.InRange | main.py:46 | the mask of one row: the date is on or after start and on or before end; only a range whose start is not after its end can hold a date |
| Store.Filter | main.py:46-47 | a transaction is kept exactly when its date lies in the inclusive range [start, end] |
| Store.FilterIsSubsequence | main.py:46-47 | the kept rows are a subsequence of the stored ones, in stored order |
| Store.FilterAppend | main.py:46-47 | the filter works row by row: filtering a concatenation concatenates the results |
| Store.FilterEmptyWhenStartAfterEnd | main.py:46-49 | a range whose start is after its end selects nothing, without an error |
| Store.CategoryTotal | main.py:53-54 | the sum of the amounts in one category is zero when no row has that category |
| Store.CategoryTotalSign | main.py:53-54 | with positive amounts a category total is at least zero, and positive exactly when the category occurs |
| Store.IncomeAndExpenseCoverAll | main.py:53-54 | total income plus total expense is the sum of all amounts |
| Store.CategoryTotalAppend | main.py:53-54 | category sums add up over a concatenation |
| Store.Summarize | main.py:53-58 | net savings is income minus expense, and income plus expense is the total of all amounts |
| Store.Query | main.py:39-59 | each failure case in the source's order: missing file, a stored date that does not convert, bad start, bad end; success exactly when the file exists, every stored date converts and both bounds parse; the selection is the filter of the loaded rows; a summary exactly when something is selected, with net = income - expense |
| Store.QuerySelection | main.py:46-58 | each stored row is selected exactly when its date is in range, both ends included; the selection keeps stored order; the summary is the two category sums and their difference |
| Store.QueryOnWellFormedStore | main.py:41-44 | on a file the program wrote, a query with two valid dates succeeds exactly when every stored date lies in the timestamp range; otherwise it raises `OutOfBoundsDatetime` for a row holding such a date |
| Store.TotalsOfWellFormedStore | main.py:53-54 | on a file the program wrote, every selected amount is positive and both totals are at least zero |
| Store.QueryFindsAddedEntry | main.py:24-47 | after adding a row dated d, the query for [d, d] succeeds exactly when the earlier rows load and d is in the timestamp range; it then returns the earlier rows of that day followed by the new row, and only the new row when no earlier row is dated d |
| Store.NothingElseOnThatDay | main.py:42-47 | loaded dates are canonical, so a day that no stored text names selects nothing |
| Store.SummaryExample | main.py:53-58 | $100 income on 01-01-2023 and a $40 expense on 01-02-2023 give income 100, expense 40 and net 60 |
| Store.TransactionStore.Open | main.py:8-9 | the file as found at start: absent, or present under the header with its rows |
| Store.TransactionStore.InitializeCsv | main.py:14-21 | the new state is `Initialized` of the old one: created with only the header if missing, untouched otherwise |
| Store.TransactionStore.AddEntry | main.py:23-37 | the row is appended after the old rows, with its fields in column order, and nothing else changes |
| Store.TransactionStore.GetTransactions | main.py:39-59 | the result is `Query` of the file's current state, and the file is not changed |
| Shell.CollectEntry | main.py:61-66 | add() reads the date (default today), then amount, category and description on the lines after it; the row's fields are exactly those four answers, and there is no row exactly when one of the prompts runs out of input |
| Shell.CollectAfterDate | main.py:63-65 | the amount, category and description are the three prompts' answers, read in order; there are none exactly when one of those prompts runs out of input |
| Shell.CollectRange | main.py:96-97 | the start is the answer of a `get_date` without default and the end that of a second one on the following lines; both parse; there is no range exactly when one of them runs out of input |
| Shell.WantsPlot | main.py:99 | the plot is drawn exactly when the answer is `y` or `Y` |
| Shell.AddStep | main.py:61-67 | menu choice 1 consumes input and keeps the file valid |
| Shell.QueryStep | main.py:95-100 | menu choice 2 consumes input and never changes the file |
| Shell.Reporting | main.py:98-100 | after get_transactions, the step consumes input and leaves the file unchanged |
| Shell.MenuStep | main.py:88-105 | one pass of the loop consumes at least one line and keeps the file valid |
| Shell.Session | main.py:87-105 | the whole run leaves a valid file |
| Shell.StepAppendsOnly | main.py:88-105 | one pass of the menu appends exactly the rows it reports added, each well formed, and never removes the file |
| Shell.AddStepAppendsOne | main.py:61-67 | choice 1 creates the file if needed and appends at most the one row it reports |
| Shell.QueryStepAddsNothing | main.py:95-100 | choice 2 never adds a row |
| Shell.SessionAppendsOnly | main.py:87-105 | over a whole run the file ends as its starting rows followed by exactly the added rows, each with a valid date and a positive amount; a file that existed still exists |
| Shell.StepQueryFailures | main.py:95-98 | on a file the program wrote, a query step stops on an exception only when the file was never created or holds a date outside the timestamp range |
| Shell.SessionQueryFailures | main.py:87-105 | a run on a file the program wrote never stops on an unparsable stored date: it stops on an exception only when the file was missing from the start and never created, or when the final file holds a date outside the timestamp range |
| Shell.MenuDispatch | main.py:93-105 | `1` initialises the file and either stops at the end of input or appends the collected row, reports it and returns to the menu, and the run ends with the file present; `2` stops on the query's exception, otherwise reports the query's result first and plots exactly when the next answer is `y` or `Y`; `3` ends the run with nothing changed; any other choice reports an invalid choice and returns to the menu |
| Shell.Add | main.py:61-67 | the store is initialised, the four answers are collected, and the row is appended exactly when all four were read |
| Shell.ViewTransactions | main.py:95-100 | choice 2 on the store gives exactly the step `QueryStep` describes |
| Shell.RunChoice | main.py:92-105 | one pass of the loop body on the store gives exactly `MenuStep`, and the store ends in that step's state |
| Shell.RunMenu | main.py:87-105 | the loop runs exactly as `Session` describes: the final file, the events seen and how the run ended |

## Left out

- Reading and writing the file through pandas and `csv.DictWriter` (`main.py:17`, `main.py:21`, `main.py:33-36`, `main.py:41`). The file is held in memory as a header and a sequence of rows. CSV quoting, escaping and the text form of amounts are not modelled.
- An existing but empty file is not modelled. pandas raises `EmptyDataError` there, and `initialize_csv` does not catch it.
- A description is not read back as NaN when it is empty.
- `plot_transactions` (`main.py:70-85`) is left out because it is matplotlib rendering and a pandas resample. The model records only that it was called, and with which selection (`Plotted`).
- Printing is left out: the menu, the messages and the report table. The model records what the user is shown as events instead (`Added`, `Reported`, `Plotted`, `InvalidChoice`).
- Blocking `input()` is modelled as a sequence of lines. Running out of lines ends the run as `InputEnded`, where Python raises `EOFError`.
- `datetime.today()` becomes the parameter `today`.
- DataEntry.GetDate: retries without bound. The source retries by recursion (`data_entry.py:19`), so Python stops with `RecursionError` after about 1000 refused answers in a row. `DataEntry.GetDateGivesUp` holds for the model only.
- DataEntry.GetAmount: retries without bound. Python stops with `RecursionError` after about 1000 refused answers in a row (`data_entry.py:29`). `DataEntry.GetAmountRefusedLines` holds for the model only.
- DataEntry.GetCategory: retries without bound. Python stops with `RecursionError` after about 1000 refused answers in a row (`data_entry.py:36`). `DataEntry.GetCategoryRefusedLines` holds for the model only.
- DataEntry.AcceptAmount: `float()` is modelled only on plain decimal numerals with an optional sign and at most one point. Left out:
  - surrounding whitespace;
  - exponents and digit underscores;
  - `inf`, and `nan`, which Python would accept because `nan <= 0` is false;
  - binary floating-point rounding of the value.
- Store.Summarize: sums are exact sums of reals, not float sums. The `:.2f` rounding of the printed totals is not modelled.
- Dates.Parse: strict on shape. `strptime`'s leniency is left out, for example one-digit months and days such as `2-3-2024`, which the source accepts and stores as `02-03-2024`.
- Dates.Format: years are always zero-padded to four digits. The C library's `strftime` may not pad years below 1000, so `get_date` can return a text such as `01-01-999`. Two consequences are not modelled:
  - Stored in the file, such a date fails to convert with a `ValueError` rather than an `OutOfBoundsDatetime`. Either way the query raises, and the model reports `StoredDateOutOfRange`.
  - Used as a query bound, it makes `datetime.strptime` at `main.py:43-44` raise `ValueError`, while the model compares the date.
- Store.InTimestampRange: the range is that of pandas releases before 3.0, where parsed timestamps count nanoseconds in 64 bits. A start or end date outside that range is compared as a calendar date, as pandas 2 compares timestamps of different resolutions. pandas 1 may raise there instead.
- Store.ParseRows: only files whose rows have the program's own shape are represented. Left out:
  - empty or NA-like date cells (`""`, `NA`, `null`, `nan` and the like), which pandas reads as NaN and converts to NaT without an error, so such a row is never selected;
  - a header other than `Columns` (a `KeyError` at `main.py:42`);
  - a category text other than `Income` or `Expense`, which falls into neither total;
  - an amount that is not a number.
- Text.UpperIsLetter: case mapping covers ASCII letters only. Python's `str.upper()` also maps, for example, the dotless `ı` to `I`, so such an answer would be accepted as Income there but not here. The same applies to `lower()` in Text.LowerIsLetter.
- Store.TransactionStore.AddEntry: requires the file to exist. Its only caller, `add()`, creates it first. The source would create a header-less file when appending to a missing one.
- Dates.OnOrBeforeIsOrdinalOrder: pandas timestamps carry a time of day. Every parsed date is at midnight, so comparing timestamps is the same as comparing dates.
