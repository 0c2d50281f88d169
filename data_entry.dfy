/**
  The validated prompts of data_entry.py. Each prompt reads one line at a
  time and asks again, with the same prompt, until a line is acceptable.
  The terminal is a sequence of input lines; a prompt returns the first
  acceptable answer and how many lines it used, or None when the lines run
  out (where Python's input() would raise EOFError). Like the source, each
  prompt retries by calling itself on the remaining lines.
*/
module DataEntry {
  import opened Wrappers
  import opened Text
  import opened Dates

  datatype Category = Income | Expense

  /** The CATEGORIES dictionary: one-letter code to category. */
  const Categories: map<string, Category> := map["I" := Income, "E" := Expense]

  /** An accepted answer and the number of input lines read to get it. */
  datatype Answer<T> = Answer(item: T, used: nat)

  /** An answer obtained after one more refused line. */
  function Later<T>(a: Option<Answer<T>>): (r: Option<Answer<T>>)
    ensures r.None? <==> a.None?
    ensures r.Some? ==> r.value == Answer(a.value.item, a.value.used + 1)
  {
    match a
    case None => None
    case Some(x) => Some(Answer(x.item, x.used + 1))
  }

  // ---- get_date ----

  /** A line get_date refuses: not a date, and not the empty line standing for today. */
  predicate RefusedDate(line: string, allowDefault: bool) {
    Parse(line).None? && !(allowDefault && line == "")
  }

  /**
    One answer to the date prompt: empty means today when a default is allowed;
    otherwise it must parse. The source re-formats a parsed date with strftime;
    a text that parses is already in that form (FormatParse), so the answer is
    the line itself, as AcceptDateText states.
  */
  function AcceptDate(line: string, allowDefault: bool, today: Date): (r: Option<string>)
    requires ValidDate(today)
    ensures r.None? <==> RefusedDate(line, allowDefault)
    ensures r.Some? ==> Parse(r.value).Some?
  {
    if allowDefault && line == "" then
      ParseFormat(today);
      Some(Format(today))
    else if Parse(line).None? then None
    else Some(line)
  }

  /**
    What an accepted answer is: today's date formatted for the empty line, and
    for a date the strftime of its strptime; either way a text in canonical form.
  */
  lemma AcceptDateText(line: string, allowDefault: bool, today: Date)
    requires ValidDate(today)
    ensures allowDefault && line == "" ==> AcceptDate(line, allowDefault, today) == Some(Format(today))
    ensures !(allowDefault && line == "") && Parse(line).Some? ==>
      AcceptDate(line, allowDefault, today) == Some(Format(Parse(line).value))
    ensures var r := AcceptDate(line, allowDefault, today);
      r.Some? ==> Format(Parse(r.value).value) == r.value
  {
    var r := AcceptDate(line, allowDefault, today);
    if r.Some? {
      FormatParse(r.value);
    }
  }

  /** get_date: the first line that is a calendar date in MM-DD-YYYY (or empty, for today, if allowed). */
  function GetDate(lines: seq<string>, allowDefault: bool, today: Date): (r: Option<Answer<string>>)
    requires ValidDate(today)
    ensures r.Some? ==> 1 <= r.value.used <= |lines|
    ensures r.Some? ==> AcceptDate(lines[r.value.used - 1], allowDefault, today) == Some(r.value.item)
    decreases |lines|
  {
    if lines == [] then None
    else match AcceptDate(lines[0], allowDefault, today)
      case Some(text) => Some(Answer(text, 1))
      case None =>
        var retried := GetDate(lines[1..], allowDefault, today);
        if retried.None? then None
        else
          var k := retried.value.used;
          assert lines[k] == lines[1..][k - 1];
          Some(Answer(retried.value.item, k + 1))
  }

  /** get_date retries with the same prompt: every line before the accepted one was refused. */
  lemma {:induction false} GetDateRefusedLines(lines: seq<string>, allowDefault: bool, today: Date)
    requires ValidDate(today)
    ensures var r := GetDate(lines, allowDefault, today);
      r.Some? ==> forall j :: 0 <= j < r.value.used - 1 ==> RefusedDate(lines[j], allowDefault)
    decreases |lines|
  {
    if lines != [] && AcceptDate(lines[0], allowDefault, today).None? {
      var tail := lines[1..];
      var retried := GetDate(tail, allowDefault, today);
      assert GetDate(lines, allowDefault, today) == Later(retried);
      assert RefusedDate(lines[0], allowDefault);
      if retried.Some? {
        GetDateRefusedLines(tail, allowDefault, today);
        forall j | 1 <= j < retried.value.used ensures RefusedDate(lines[j], allowDefault) {
          assert lines[j] == tail[j - 1] && RefusedDate(tail[j - 1], allowDefault);
        }
      }
    }
  }

  /** get_date gives up only when the input runs out, that is when every line was refused. */
  lemma {:induction false} GetDateGivesUp(lines: seq<string>, allowDefault: bool, today: Date)
    requires ValidDate(today)
    ensures GetDate(lines, allowDefault, today).None? <==>
      forall j :: 0 <= j < |lines| ==> RefusedDate(lines[j], allowDefault)
    decreases |lines|
  {
    if lines != [] {
      if AcceptDate(lines[0], allowDefault, today).Some? {
        assert !RefusedDate(lines[0], allowDefault);
      } else {
        var tail := lines[1..];
        assert RefusedDate(lines[0], allowDefault);
        assert GetDate(lines, allowDefault, today) == Later(GetDate(tail, allowDefault, today));
        GetDateGivesUp(tail, allowDefault, today);
        forall j | 1 <= j < |lines| ensures lines[j] == tail[j - 1] { }
      }
    }
  }

  /** Day 30 of February, a two-digit year and the year-first order are all refused. */
  lemma ImpossibleDatesRefused(allowDefault: bool, today: Date)
    requires ValidDate(today)
    ensures AcceptDate("02-30-2024", allowDefault, today).None?
    ensures AcceptDate("02-03-24", allowDefault, today).None?
    ensures AcceptDate("2024-02-03", allowDefault, today).None?
  {
    assert !ValidDate(Date(2024, 2, 30));
  }

  /** Without a default, today's date plays no part in get_date. */
  lemma {:induction false} GetDateWithoutDefault(lines: seq<string>, today: Date, other: Date)
    requires ValidDate(today) && ValidDate(other)
    ensures GetDate(lines, false, today) == GetDate(lines, false, other)
    decreases |lines|
  {
    if lines != [] {
      GetDateWithoutDefault(lines[1..], today, other);
    }
  }

  /** An empty answer with the default allowed is today's date, read from one line. */
  lemma GetDateDefaultsToToday(lines: seq<string>, today: Date)
    requires ValidDate(today) && lines != [] && lines[0] == ""
    ensures GetDate(lines, true, today) == Some(Answer(Format(today), 1))
  {
  }

  /** Without a default, an empty answer is refused and the same prompt is asked again. */
  lemma GetDateRefusesEmptyWithoutDefault(lines: seq<string>, today: Date)
    requires ValidDate(today) && lines != [] && lines[0] == ""
    ensures GetDate(lines, false, today) == Later(GetDate(lines[1..], false, today))
  {
  }

  // ---- get_amount ----

  /** Position of the first '.', or |s| when there is none. */
  function PointIndex(s: string): (k: nat)
    ensures k <= |s| && (k < |s| ==> s[k] == '.')
    ensures forall i :: 0 <= i < k ==> s[i] != '.'
  {
    if s == [] || s[0] == '.' then 0 else 1 + PointIndex(s[1..])
  }

  /** An unsigned decimal numeral: digits with at most one point, at least one digit. */
  function UnsignedDecimal(s: string): (r: Option<real>)
    ensures r.Some? ==> r.value >= 0.0
  {
    var k := PointIndex(s);
    var whole := s[..k];
    var fraction := if k < |s| then s[k + 1..] else "";
    if AllDigits(whole) && AllDigits(fraction) && |whole| + |fraction| >= 1 then
      Some(DigitsValue(whole) as real + Shift(DigitsValue(fraction) as real, |fraction|))
    else None
  }

  /** float(text) for plain decimal numerals with an optional sign. */
  function DecimalValue(line: string): (r: Option<real>)
    ensures r.Some? && r.value < 0.0 ==> |line| > 0 && line[0] == '-'
    ensures |line| > 0 && IsDigit(line[0]) ==> r == UnsignedDecimal(line)
  {
    if |line| > 0 && (line[0] == '+' || line[0] == '-') then
      match UnsignedDecimal(line[1..])
      case None => None
      case Some(v) => Some(if line[0] == '-' then -v else v)
    else UnsignedDecimal(line)
  }

  /** One answer to the amount prompt: a number strictly greater than zero. */
  function AcceptAmount(line: string): (r: Option<real>)
    ensures r.Some? ==> r.value > 0.0
    ensures r.Some? ==> DecimalValue(line) == r
    ensures DecimalValue(line).Some? && DecimalValue(line).value > 0.0 ==> r == DecimalValue(line)
    ensures |line| > 0 && line[0] == '-' ==> r.None?
  {
    match DecimalValue(line)
    case None => None
    case Some(v) => if v <= 0.0 then None else Some(v)
  }

  /** get_amount: the first line holding a positive number. */
  function GetAmount(lines: seq<string>): (r: Option<Answer<real>>)
    ensures r.Some? ==> 1 <= r.value.used <= |lines| && r.value.item > 0.0
    ensures r.Some? ==> AcceptAmount(lines[r.value.used - 1]) == Some(r.value.item)
    decreases |lines|
  {
    if lines == [] then None
    else match AcceptAmount(lines[0])
      case Some(v) => Some(Answer(v, 1))
      case None =>
        var retried := GetAmount(lines[1..]);
        if retried.None? then None
        else
          var k := retried.value.used;
          assert lines[k] == lines[1..][k - 1];
          Some(Answer(retried.value.item, k + 1))
  }

  /** get_amount retries on every line that is not a positive number, and only on those. */
  lemma {:induction false} GetAmountRefusedLines(lines: seq<string>)
    ensures var r := GetAmount(lines);
      r.Some? ==> forall j :: 0 <= j < r.value.used - 1 ==> AcceptAmount(lines[j]).None?
    ensures GetAmount(lines).None? <==> forall j :: 0 <= j < |lines| ==> AcceptAmount(lines[j]).None?
    decreases |lines|
  {
    if lines != [] && AcceptAmount(lines[0]).None? {
      GetAmountRefusedLines(lines[1..]);
      assert forall j :: 1 <= j < |lines| ==> lines[j] == lines[1..][j - 1];
    }
  }

  /** A whole number of dollars written in digits is accepted with its value. */
  lemma {:induction false} AmountOfWholeNumber(n: nat)
    requires n > 0
    ensures AcceptAmount(NatText(n)) == Some(n as real)
  {
    var s := NatText(n);
    assert s[0] != '+' && s[0] != '-' && s[0] != '.';
    assert PointIndex(s) == |s|;
    assert s[..|s|] == s;
  }

  /** A numeral with a point splits into its whole and fractional digits. */
  lemma {:induction false} UnsignedDecimalWithPoint(whole: string, fraction: string)
    requires AllDigits(whole) && AllDigits(fraction) && |whole| >= 1
    ensures UnsignedDecimal(whole + "." + fraction)
      == Some(DigitsValue(whole) as real + Shift(DigitsValue(fraction) as real, |fraction|))
  {
    var s := whole + "." + fraction;
    var k := PointIndex(s);
    assert s[|whole|] == '.';
    assert k == |whole|;
    assert s[..k] == whole && s[k + 1..] == fraction;
  }

  /** An amount of cents written as dollars with two decimals is accepted with its value. */
  lemma AmountOfCents(cents: nat)
    requires cents > 0
    ensures AcceptAmount(NatText(cents / 100) + "." + Pad2(cents % 100)) == Some(cents as real / 100.0)
  {
    Pad2Digits(cents % 100);
    CentsAsDollars(cents);
    AmountWithTwoDecimals(NatText(cents / 100), Pad2(cents % 100));
  }

  lemma AmountWithTwoDecimals(whole: string, fraction: string)
    requires |whole| >= 1 && AllDigits(whole) && |fraction| == 2 && AllDigits(fraction)
    requires DigitsValue(whole) + DigitsValue(fraction) > 0
    ensures AcceptAmount(whole + "." + fraction)
      == Some(DigitsValue(whole) as real + DigitsValue(fraction) as real / 100.0)
  {
    var s := whole + "." + fraction;
    var v := DigitsValue(whole) as real + DigitsValue(fraction) as real / 100.0;
    TwoDecimals(whole, fraction);
    assert s[0] == whole[0];
    AcceptUnsigned(s, v);
  }

  lemma TwoDecimals(whole: string, fraction: string)
    requires |whole| >= 1 && AllDigits(whole) && |fraction| == 2 && AllDigits(fraction)
    ensures UnsignedDecimal(whole + "." + fraction)
      == Some(DigitsValue(whole) as real + DigitsValue(fraction) as real / 100.0)
  {
    PointAfterDigits(whole, fraction);
    ShiftTwice(DigitsValue(fraction) as real);
  }

  /** In whole + "." + fraction with a digits-only whole part, the point sits right after it. */
  lemma PointAfterDigits(whole: string, fraction: string)
    requires AllDigits(whole)
    ensures var s := whole + "." + fraction;
      PointIndex(s) == |whole| && s[..|whole|] == whole && s[|whole| + 1..] == fraction
  {
    var s := whole + "." + fraction;
    assert s[|whole|] == '.';
  }

  lemma ShiftTwice(x: real)
    ensures Shift(x, 2) == x / 100.0
  {
    assert Shift(x, 1) == x / 10.0;
  }

  /** A numeral without a sign is accepted with its value when that value is positive. */
  lemma AcceptUnsigned(s: string, v: real)
    requires |s| > 0 && IsDigit(s[0]) && UnsignedDecimal(s) == Some(v) && v > 0.0
    ensures AcceptAmount(s) == Some(v)
  {
    assert DecimalValue(s) == Some(v);
  }

  lemma CentsAsDollars(cents: nat)
    ensures (cents / 100) as real + (cents % 100) as real / 100.0 == cents as real / 100.0
  {
    assert cents == (cents / 100) * 100 + cents % 100;
  }

  // ---- get_category ----

  /** One answer to the category prompt: upper-cased, then looked up in CATEGORIES. */
  function AcceptCategory(line: string): (r: Option<Category>)
    ensures r == Some(Income) <==> line == "i" || line == "I"
    ensures r == Some(Expense) <==> line == "e" || line == "E"
    ensures r.None? <==> line !in {"i", "I", "e", "E"}
  {
    UpperIsLetter(line, 'i', 'I');
    UpperIsLetter(line, 'e', 'E');
    var key := Upper(line);
    if key in Categories then Some(Categories[key]) else None
  }

  /** get_category: the first line that is I or E in either case. */
  function GetCategory(lines: seq<string>): (r: Option<Answer<Category>>)
    ensures r.Some? ==> 1 <= r.value.used <= |lines|
    ensures r.Some? ==> (r.value.item == Income <==> lines[r.value.used - 1] in {"i", "I"})
    ensures r.Some? ==> (r.value.item == Expense <==> lines[r.value.used - 1] in {"e", "E"})
    decreases |lines|
  {
    if lines == [] then None
    else match AcceptCategory(lines[0])
      case Some(c) => Some(Answer(c, 1))
      case None =>
        var retried := GetCategory(lines[1..]);
        assert retried.Some? ==> lines[retried.value.used] == lines[1..][retried.value.used - 1];
        Later(retried)
  }

  /** get_category retries on every line other than i, I, e and E, and only on those. */
  lemma {:induction false} GetCategoryRefusedLines(lines: seq<string>)
    ensures var r := GetCategory(lines);
      r.Some? ==> forall j :: 0 <= j < r.value.used - 1 ==> lines[j] !in {"i", "I", "e", "E"}
    ensures GetCategory(lines).None? <==> forall j :: 0 <= j < |lines| ==> lines[j] !in {"i", "I", "e", "E"}
    decreases |lines|
  {
    if lines != [] && AcceptCategory(lines[0]).None? {
      GetCategoryRefusedLines(lines[1..]);
      assert forall j :: 1 <= j < |lines| ==> lines[j] == lines[1..][j - 1];
    }
  }

  // ---- get_description ----

  /** get_description: the next line, whatever it holds, the empty line included. */
  function GetDescription(lines: seq<string>): (r: Option<Answer<string>>)
    ensures r.None? <==> lines == []
    ensures r.Some? ==> r.value == Answer(lines[0], 1)
  {
    if lines == [] then None else Some(Answer(lines[0], 1))
  }
}
