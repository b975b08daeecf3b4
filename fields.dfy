/** The small text readers behind the fixed-layout extractor
    (src/utils.py:28-60, 117-134): the part after a `label:` prefix, the
    package number and name split at the first colon, parenthesis removal,
    money parsing, and the per-field clean-ups. */
module Fields {

  import opened Wrappers
  import opened Strings
  import opened Cells

  /** `_after_colon`: the stripped text after the first `:`, or the whole
      stripped text when there is no colon. */
  function AfterColon(c: Cell): (r: string)
    ensures IsTrimmed(r)
  {
    var s := Trim(SafeStr(c));
    if ':' in s then Trim(s[IndexOf(s, ':') + 1..]) else s
  }

  /** A text without a colon is kept whole. */
  lemma AfterColonUnlabelled(c: Cell)
    requires ':' !in Trim(SafeStr(c))
    ensures AfterColon(c) == Trim(SafeStr(c))
  {
  }

  /** A `label: value` text reads as its value: the label is whatever
      precedes the first colon, and later colons stay in the value. */
  lemma AfterColonOfLabelled(c: Cell, prefix: string, value: string)
    requires Trim(SafeStr(c)) == prefix + ":" + value && ':' !in prefix
    ensures AfterColon(c) == Trim(value)
  {
    assert prefix + ":" + value == prefix + [':'] + value;
    SplitHalves(Trim(SafeStr(c)), ':', prefix, value);
  }

  /** `_parse_so_va_ten_goi_thau`: the package number (before the first
      colon) and name (after it), both stripped; with no colon the number is
      empty and the whole stripped text is the name. */
  function SplitPackageLabel(s: string): (r: (string, string))
    ensures IsTrimmed(r.0) && IsTrimmed(r.1)
    ensures ':' !in r.0
  {
    var t := Trim(s);
    if t == [] then ("", "")
    else if ':' in t then
      var k := IndexOf(t, ':');
      (Trim(t[..k]), Trim(t[k + 1..]))
    else ("", t)
  }

  /** Without a colon there is no number and the whole stripped text is
      the name. */
  lemma SplitPackageLabelUnlabelled(s: string)
    requires ':' !in s
    ensures SplitPackageLabel(s) == ("", Trim(s))
  {
    if ':' in Trim(s) {
      TrimKeeps(s, ':');
    }
  }

  /** `"number: name"` splits into its two stripped halves. */
  lemma SplitPackageLabelOfLabelled(s: string, number: string, name: string)
    requires Trim(s) == number + ":" + name && ':' !in number
    ensures SplitPackageLabel(s) == (Trim(number), Trim(name))
  {
    assert number + ":" + name == number + [':'] + name;
    SplitHalves(Trim(s), ':', number, name);
  }

  /** `_strip_parens`: every `(` and `)` deleted, then stripped. */
  function StripParens(s: string): (r: string)
    ensures '(' !in r && ')' !in r
    ensures IsTrimmed(r)
  {
    var t := Delete(Delete(s, '('), ')');
    DeleteMembers(Delete(s, '('), ')', '(');
    var r := Trim(t);
    if '(' in r then TrimKeeps(t, '('); r
    else if ')' in r then TrimKeeps(t, ')'); r
    else r
  }

  /** A parenthesised remark loses exactly its parentheses. */
  lemma StripParensOfWrapped(x: string)
    requires '(' !in x && ')' !in x
    ensures StripParens("(" + x + ")") == Trim(x)
  {
    assert Delete("(", '(') == [];
    assert Delete(")", ')') == [];
    DeleteAbsent(x, '(');
    DeleteAbsent(x, ')');
    DeleteAbsent(")", '(');
    DeleteAppend("(", x, '(');
    assert Delete("(" + x, '(') == x;
    DeleteAppend("(" + x, ")", '(');
    assert Delete("(" + x + ")", '(') == x + ")";
    DeleteAppend(x, ")", ')');
    assert Delete(x + ")", ')') == x;
  }

  /** `s.replace(".", "").replace(",", "").replace(" ", "")`: thousand
      separators and spaces removed. */
  function StripSeparators(s: string): (r: string)
    ensures '.' !in r && ',' !in r && ' ' !in r
  {
    var t := Delete(Delete(s, '.'), ',');
    DeleteMembers(Delete(s, '.'), ',', '.');
    DeleteMembers(t, ' ', '.');
    DeleteMembers(t, ' ', ',');
    Delete(t, ' ')
  }

  /** The text path of `_parse_money`: stripped, non-empty, and after
      removing separators a non-empty run of digits, read as a decimal. */
  function ParseAmountText(s: string): (r: Option<int>)
    ensures r.Some? ==> r.value >= 0
  {
    var t := Trim(s);
    if t == [] then None
    else
      var digits := StripSeparators(t);
      if digits != [] && IsDigits(digits) then Some(DecimalValue(digits) as int) else None
  }

  /** A text with no surrounding whitespace and no separator is an amount
      exactly when it is a non-empty run of digits, and the amount is
      their decimal value. */
  lemma ParseAmountTextAccepts(s: string)
    requires IsTrimmed(s) && '.' !in s && ',' !in s && ' ' !in s
    ensures ParseAmountText(s).Some? <==> s != [] && IsDigits(s)
    ensures ParseAmountText(s).Some? ==> ParseAmountText(s).value == DecimalValue(s)
  {
    TrimmedIsFixed(s);
    DeleteAbsent(s, '.');
    DeleteAbsent(Delete(s, '.'), ',');
    DeleteAbsent(Delete(Delete(s, '.'), ','), ' ');
  }

  /** `_parse_money`: a missing value is no amount; an integer is taken as
      it is; a float only when it is whole; any other value by its text. */
  function ParseMoney(c: Cell): (r: Option<int>)
    ensures c.Empty? ==> r == None
    ensures c.Int? ==> r == Some(c.i)
    ensures c.Float? ==> (r.Some? <==> IsIntegral(c.x)) && (r.Some? ==> r.value == c.x.Floor)
    ensures c.Text? && r.Some? ==> r.value >= 0
  {
    match c
    case Empty => None
    case Int(i) => Some(i)
    case Float(x, _) => if IsIntegral(x) then Some(x.Floor) else None
    case _ => ParseAmountText(SafeStr(c))
  }

  lemma DigitsHaveNoSeparators(d: string)
    requires IsDigits(d)
    ensures StripSeparators(d) == d
  {
    assert '.' !in d && ',' !in d && ' ' !in d by {
      forall k | 0 <= k < |d| ensures d[k] != '.' && d[k] != ',' && d[k] != ' ' {
        assert IsDigit(d[k]);
      }
    }
    DeleteAbsent(d, '.');
    DeleteAbsent(d, ',');
    DeleteAbsent(d, ' ');
  }

  /** Money parsing reads back the digits `str()` writes for a natural. */
  lemma ParseMoneyOfDigits(n: nat)
    ensures ParseMoney(Text(NatToString(n))) == Some(n)
  {
    var d := NatToString(n);
    assert IsTrimmed(d) by {
      assert IsDigit(d[0]) && IsDigit(d[|d| - 1]);
    }
    TrimmedIsFixed(d);
    DigitsHaveNoSeparators(d);
    ValueOfNatToString(n);
    assert ParseAmountText(d) == Some(n);
  }

  /** Separators anywhere are ignored: an amount written with them parses
      like the bare digit text. */
  lemma ParseMoneyIgnoresSeparators(s: string, n: nat)
    requires IsTrimmed(s) && StripSeparators(s) == NatToString(n)
    ensures ParseMoney(Text(s)) == Some(n)
  {
    assert ParseMoney(Text(s)) == ParseAmountText(s);
    TrimmedIsFixed(s);
    var digits := NatToString(n);
    assert s != [];
    ValueOfNatToString(n);
    assert DecimalValue(digits) == n;
  }

  /** A text holding any character other than a digit or a separator is
      not an amount: letters, a minus sign, a date dash or a clock colon. */
  lemma ParseAmountTextRejects(s: string, ch: char)
    requires ch in s && !IsDigit(ch) && ch != '.' && ch != ',' && ch != ' ' && !IsSpace(ch)
    ensures ParseAmountText(s) == None
  {
    var t := Trim(s);
    assert ch in t by {
      var k :| 0 <= k < |s| && s[k] == ch;
      TrimKeepsInner(s, k);
    }
    var digits := StripSeparators(t);
    assert ch in digits by {
      DeleteMembers(t, '.', ch);
      DeleteMembers(Delete(t, '.'), ',', ch);
      DeleteMembers(Delete(Delete(t, '.'), ','), ' ', ch);
    }
    assert !IsDigits(digits) by {
      var k :| 0 <= k < |digits| && digits[k] == ch;
      assert !IsDigit(digits[k]);
    }
  }

  /** Dates and times never parse as money: their text keeps a `-` or `:`. */
  lemma ParseMoneyRejectsTemporal(c: Cell)
    requires IsTemporal(c)
    ensures ParseMoney(c) == None
  {
    var s := SafeStr(c);
    match c
    case Time(h, mi) =>
      assert s[|ZeroPad(h, 2)|] == ':';
      ParseAmountTextRejects(s, ':');
    case Date(y, m, d) =>
      assert s[|ZeroPad(y, 4)|] == '-';
      ParseAmountTextRejects(s, '-');
    case DateTime(y, m, d, h, mi) =>
      assert s[|ZeroPad(y, 4)|] == '-';
      ParseAmountTextRejects(s, '-');
  }

  /** `thoi_gian_thuc_hien_goi_thau`: the stripped text before the first
      `;`, or the stripped text when there is none. */
  function DurationText(s: string): (r: string)
    ensures IsTrimmed(r)
    ensures ';' !in r
  {
    var t := Trim(s);
    if ';' in t then Trim(t[..IndexOf(t, ';')]) else t
  }

  /** A duration followed by `;` and remarks keeps only the duration. */
  lemma DurationTextOfClauses(s: string, head: string, rest: string)
    requires Trim(s) == head + ";" + rest && ';' !in head
    ensures DurationText(s) == Trim(head)
  {
    assert head + ";" + rest == head + [';'] + rest;
    SplitHalves(Trim(s), ';', head, rest);
  }

  /** `tom_tat_cong_viec`: every `None` deleted in one left-to-right pass,
      then stripped. */
  function WorkSummary(c: Cell): (r: string)
    ensures IsTrimmed(r)
  {
    Trim(RemoveAll(SafeStr(c), "None"))
  }

  /** A text without `None` is only stripped. */
  lemma WorkSummaryWithoutNone(c: Cell)
    requires !Occurs(SafeStr(c), "None")
    ensures WorkSummary(c) == Trim(SafeStr(c))
  {
    RemoveAllAbsent(SafeStr(c), "None");
  }

  /** The first `None` of a summary is deleted, and the text before it is
      kept as it is. */
  lemma WorkSummaryDropsNone(x: string, y: string)
    requires !Occurs(x + "Non", "None")
    ensures WorkSummary(Text(x + "None" + y)) == Trim(x + RemoveAll(y, "None"))
  {
    assert "None"[..3] == "Non";
    RemoveAllAfterClean(x, "None", y);
  }

  /** The two selection-method fields: line breaks become spaces, then
      stripped. */
  function OneLine(c: Cell): (r: string)
    ensures IsTrimmed(r)
    ensures '\n' !in r
  {
    var s := ReplaceChar(SafeStr(c), '\n', ' ');
    assert '\n' !in s;
    Trim(s)
  }

  /** A single-line text is only stripped. */
  lemma OneLineOfSingleLine(c: Cell)
    requires '\n' !in SafeStr(c)
    ensures OneLine(c) == Trim(SafeStr(c))
  {
    var s := SafeStr(c);
    assert ReplaceChar(s, '\n', ' ') == s;
  }
}
