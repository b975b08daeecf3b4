/** Spreadsheet cells as the sheet reader hands them over (`dtype=object`),
    and the two ways the program turns one into text: Python's `str` behind
    `_safe_str`, and the display formatting of `_format_cell`
    (src/utils.py:10-25). */
module Cells {

  import opened Wrappers
  import opened Strings

  /** One cell value. `Empty` is a missing value (pandas gives NaN for a
      blank cell). A float carries, besides its value, the text Python's
      `str()` prints for it, since its shortest round-trip decimal form is
      not computed here. */
  datatype Cell =
    | Empty
    | Text(s: string)
    | Int(i: int)
    | Float(x: real, shown: string)
    | Date(year: nat, month: nat, day: nat)
    | Time(hour: nat, minute: nat)
    | DateTime(year: nat, month: nat, day: nat, hour: nat, minute: nat)

  /** `float.is_integer()`. */
  predicate IsIntegral(x: real) {
    x == x.Floor as real
  }

  /** `strftime("%Y-%m-%d")`. */
  function DateText(y: nat, m: nat, d: nat): string {
    ZeroPad(y, 4) + "-" + ZeroPad(m, 2) + "-" + ZeroPad(d, 2)
  }

  /** `strftime("%H:%M")`. */
  function ClockText(h: nat, mi: nat): string {
    ZeroPad(h, 2) + ":" + ZeroPad(mi, 2)
  }

  /** `_safe_str`: the empty text for a missing value, Python's `str()`
      otherwise (dates print as ISO text, times with zero seconds). */
  function SafeStr(c: Cell): string {
    match c
    case Empty => ""
    case Text(s) => s
    case Int(i) => IntToString(i)
    case Float(_, shown) => shown
    case Date(y, m, d) => DateText(y, m, d)
    case Time(h, mi) => ClockText(h, mi) + ":00"
    case DateTime(y, m, d, h, mi) => DateText(y, m, d) + " " + ClockText(h, mi) + ":00"
  }

  predicate IsTemporal(c: Cell) {
    c.Date? || c.Time? || c.DateTime?
  }

  /** `_format_cell`: a total function from cells to display text. A missing
      value shows as nothing, an integral float as its integer with no
      `.0`, temporal values in fixed ISO layouts, and anything else as its
      `str()` text. */
  function FormatCell(c: Cell): (r: string)
    ensures c.Empty? ==> r == ""
  {
    match c
    case Empty => ""
    case DateTime(y, m, d, h, mi) => DateText(y, m, d) + " " + ClockText(h, mi)
    case Time(h, mi) => ClockText(h, mi)
    case Date(y, m, d) => DateText(y, m, d)
    case Float(x, shown) => if IsIntegral(x) then IntToString(x.Floor) else shown
    case Int(i) => IntToString(i)
    case Text(s) => s
  }

  /** Whole numbers show as integer text that reads back as the number:
      an integer cell, and a float cell whose value is whole (with no
      decimal point left). */
  lemma FormatCellReadsBack(c: Cell)
    ensures c.Int? ==> ParseInteger(FormatCell(c)) == Some(c.i)
    ensures c.Float? && IsIntegral(c.x) ==>
      '.' !in FormatCell(c) && ParseInteger(FormatCell(c)) == Some(c.x.Floor)
  {
    if c.Int? {
      IntToStringRoundTrip(c.i);
    }
    if c.Float? && IsIntegral(c.x) {
      IntToStringRoundTrip(c.x.Floor);
    }
  }

  /** Every other non-temporal value shows as its `str()` text. */
  lemma FormatCellPlain(c: Cell)
    requires !IsTemporal(c) && !(c.Float? && IsIntegral(c.x))
    ensures FormatCell(c) == SafeStr(c)
  {
  }

  /** A calendar date with a four-digit year, as the formats assume. */
  predicate ValidDate(y: nat, m: nat, d: nat) {
    1 <= y <= 9999 && 1 <= m <= 12 && 1 <= d <= 31
  }

  predicate ValidClock(h: nat, mi: nat) {
    h < 24 && mi < 60
  }

  lemma PadFits(n: nat, w: nat, bound: nat)
    requires n <= bound && |NatToString(bound)| <= w
    ensures |ZeroPad(n, w)| == w
    ensures DecimalValue(ZeroPad(n, w)) == n
  {
    DigitCountMonotone(n, bound);
    ValueOfZeroPad(n, w);
  }

  lemma WidthOf99()
    ensures |NatToString(99)| == 2
  {
    assert |NatToString(9)| == 1;
  }

  lemma WidthOf9999()
    ensures |NatToString(9999)| == 4
  {
    assert |NatToString(9)| == 1;
    assert |NatToString(99)| == 2;
    assert |NatToString(999)| == 3;
  }

  /** Where the parts of `a-b-c` sit when the parts are 4, 2 and 2 long. */
  lemma DateLayout(a: string, b: string, c: string)
    requires |a| == 4 && |b| == 2 && |c| == 2
    ensures var r := a + "-" + b + "-" + c;
      && |r| == 10 && r[4] == '-' && r[7] == '-'
      && r[..4] == a && r[5..7] == b && r[8..] == c
  {
  }

  /** A date shows as `YYYY-MM-DD`: ten characters, dashes at 4 and 7, and
      the three digit groups read back as year, month and day. */
  lemma FormatDateReadsBack(y: nat, m: nat, d: nat)
    requires ValidDate(y, m, d)
    ensures var r := FormatCell(Date(y, m, d));
      && |r| == 10 && r[4] == '-' && r[7] == '-'
      && IsDigits(r[..4]) && IsDigits(r[5..7]) && IsDigits(r[8..])
      && DecimalValue(r[..4]) == y && DecimalValue(r[5..7]) == m && DecimalValue(r[8..]) == d
  {
    WidthOf99();
    WidthOf9999();
    PadFits(y, 4, 9999);
    PadFits(m, 2, 99);
    PadFits(d, 2, 99);
    DateLayout(ZeroPad(y, 4), ZeroPad(m, 2), ZeroPad(d, 2));
  }

  /** A time shows as `HH:MM`, the two groups reading back as hour and
      minute. */
  lemma FormatTimeReadsBack(h: nat, mi: nat)
    requires ValidClock(h, mi)
    ensures var r := FormatCell(Time(h, mi));
      && |r| == 5 && r[2] == ':'
      && IsDigits(r[..2]) && IsDigits(r[3..])
      && DecimalValue(r[..2]) == h && DecimalValue(r[3..]) == mi
  {
    WidthOf99();
    PadFits(h, 2, 99);
    PadFits(mi, 2, 99);
    var r := FormatCell(Time(h, mi));
    assert r[..2] == ZeroPad(h, 2);
    assert r[3..] == ZeroPad(mi, 2);
  }

  /** A date-and-time shows as `YYYY-MM-DD HH:MM`: its date part and its
      clock part, each as they show on their own, joined by one space. */
  lemma FormatDateTimeReadsBack(y: nat, m: nat, d: nat, h: nat, mi: nat)
    requires ValidDate(y, m, d) && ValidClock(h, mi)
    ensures var r := FormatCell(DateTime(y, m, d, h, mi));
      && |r| == 16 && r[10] == ' '
      && r[..10] == FormatCell(Date(y, m, d))
      && r[11..] == FormatCell(Time(h, mi))
  {
    FormatDateReadsBack(y, m, d);
    FormatTimeReadsBack(h, mi);
    var r := FormatCell(DateTime(y, m, d, h, mi));
    var dt := FormatCell(Date(y, m, d));
    var tm := FormatCell(Time(h, mi));
    assert r == dt + " " + tm;
    assert r[..10] == dt;
    assert r[11..] == tm;
  }

  /** The display text differs from `str()` for temporal values: `str()`
      keeps the seconds, the display drops them. */
  lemma FormatDropsSeconds(h: nat, mi: nat)
    requires ValidClock(h, mi)
    ensures |SafeStr(Time(h, mi))| == |FormatCell(Time(h, mi))| + 3
  {
    FormatTimeReadsBack(h, mi);
  }

  /** Worked cases: an integral float loses its `.0`, a fractional one
      keeps its `str()` text. */
  lemma FormatFloatExamples()
    ensures FormatCell(Float(5.0, "5.0")) == "5"
    ensures FormatCell(Float(5.5, "5.5")) == "5.5"
  {
    assert (5.0 as real).Floor == 5;
    assert NatToString(5) == [DigitChar(5)] == "5";
    assert 5.5 != (5.5).Floor as real;
  }
}
