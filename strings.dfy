/** The string operations the sheet readers are built from: Python's
    `str.strip`, `str.split(sep, 1)`, `str.replace`, `str.isdigit`, `int(s)`,
    `str(n)` and the zero-padded `f"{n:0{w}d}"` format, each stated as a
    function over `seq<char>` together with the facts the readers rely on. */
module Strings {

  import opened Wrappers

  /** The characters Python's `str.isspace()` accepts, which are the ones
      `str.strip()` with no argument removes. */
  predicate IsSpace(c: char) {
    || c == ' ' || c == '\t' || c == '\n' || c == '\r' || c == '\U{0B}' || c == '\U{0C}'
    || ('\U{1C}' <= c <= '\U{1F}')
    || c == '\U{85}' || c == '\U{A0}' || c == '\U{1680}'
    || ('\U{2000}' <= c <= '\U{200A}')
    || c == '\U{2028}' || c == '\U{2029}' || c == '\U{202F}' || c == '\U{205F}' || c == '\U{3000}'
  }

  predicate AllSpace(s: string) {
    forall k :: 0 <= k < |s| ==> IsSpace(s[k])
  }

  /** Neither end of `s` is whitespace: what `strip()` always returns. */
  predicate IsTrimmed(s: string) {
    s == [] || (!IsSpace(s[0]) && !IsSpace(s[|s| - 1]))
  }

  function TrimStart(s: string): (r: string)
    ensures |r| <= |s| && r == s[|s| - |r|..]
    ensures AllSpace(s[..|s| - |r|])
    ensures r == [] || !IsSpace(r[0])
  {
    if s != [] && IsSpace(s[0]) then TrimStart(s[1..]) else s
  }

  function TrimEnd(s: string): (r: string)
    ensures |r| <= |s| && r == s[..|r|]
    ensures AllSpace(s[|r|..])
    ensures r == [] || !IsSpace(r[|r| - 1])
  {
    if s != [] && IsSpace(s[|s| - 1]) then TrimEnd(s[..|s| - 1]) else s
  }

  /** Python's `s.strip()`. */
  function Trim(s: string): (r: string)
    ensures IsTrimmed(r)
    ensures |r| <= |s|
  {
    var t := TrimStart(s);
    var r := TrimEnd(t);
    assert r != [] ==> r[0] == t[0];
    r
  }

  /** Stripping adds no character. */
  lemma TrimKeeps(s: string, c: char)
    requires c in Trim(s)
    ensures c in s
  {
    var t := TrimStart(s);
    var r := TrimEnd(t);
    var k :| 0 <= k < |r| && r[k] == c;
    assert t[k] == c;
    assert s[|s| - |t| + k] == c;
  }

  lemma {:induction false} TrimStartStopsBefore(s: string, k: nat)
    requires k < |s| && !IsSpace(s[k])
    ensures |s| - |TrimStart(s)| <= k
  {
    if s != [] && IsSpace(s[0]) {
      assert s[1..][k - 1] == s[k];
      TrimStartStopsBefore(s[1..], k - 1);
    }
  }

  lemma {:induction false} TrimEndStopsAfter(s: string, k: nat)
    requires k < |s| && !IsSpace(s[k])
    ensures k < |TrimEnd(s)|
  {
    if s != [] && IsSpace(s[|s| - 1]) {
      assert s[..|s| - 1][k] == s[k];
      TrimEndStopsAfter(s[..|s| - 1], k);
    }
  }

  /** Stripping keeps every character that is not whitespace. */
  lemma TrimKeepsInner(s: string, k: nat)
    requires k < |s| && !IsSpace(s[k])
    ensures s[k] in Trim(s)
  {
    var t := TrimStart(s);
    var off := |s| - |t|;
    TrimStartStopsBefore(s, k);
    assert t[k - off] == s[k];
    TrimEndStopsAfter(t, k - off);
    assert TrimEnd(t)[k - off] == s[k];
  }

  lemma {:induction false} TrimStartPadded(a: string, m: string)
    requires AllSpace(a)
    requires m == [] || !IsSpace(m[0])
    ensures TrimStart(a + m) == m
    decreases |a|
  {
    if a == [] {
      assert a + m == m;
    } else {
      assert (a + m)[1..] == a[1..] + m;
      TrimStartPadded(a[1..], m);
    }
  }

  lemma {:induction false} TrimEndPadded(m: string, b: string)
    requires AllSpace(b)
    requires m == [] || !IsSpace(m[|m| - 1])
    ensures TrimEnd(m + b) == m
    decreases |b|
  {
    if b == [] {
      assert m + b == m;
    } else {
      assert (m + b)[..|m + b| - 1] == m + b[..|b| - 1];
      TrimEndPadded(m, b[..|b| - 1]);
    }
  }

  /** `strip()` removes exactly the surrounding whitespace: a trimmed text
      wrapped in whitespace on both sides strips back to itself. */
  lemma TrimPadded(a: string, m: string, b: string)
    requires AllSpace(a) && AllSpace(b) && IsTrimmed(m)
    ensures Trim(a + m + b) == m
  {
    assert a + m + b == a + (m + b);
    if m == [] {
      assert AllSpace(m + b);
      TrimStartPadded(a + m + b, []);
      assert a + m + b + [] == a + m + b;
      assert TrimStart(a + m + b) == [];
    } else {
      TrimStartPadded(a, m + b);
      TrimEndPadded(m, b);
    }
  }

  /** Stripping twice is stripping once. */
  lemma TrimIdempotent(s: string)
    ensures Trim(Trim(s)) == Trim(s)
  {
    var t := Trim(s);
    assert [] + t + [] == t;
    TrimPadded([], t, []);
  }

  /** The position of the first `x` in `s`: where `split(x, 1)` cuts. */
  function IndexOf<T(==)>(s: seq<T>, x: T): (k: nat)
    requires x in s
    ensures k < |s| && s[k] == x && x !in s[..k]
  {
    if s[0] == x then 0
    else
      var k := 1 + IndexOf(s[1..], x);
      assert s[..k] == [s[0]] + s[1..][..k - 1];
      k
  }

  /** `s.replace(c, "")` for a single character `c`. */
  function Delete(s: string, c: char): (r: string)
    ensures |r| <= |s|
    ensures c !in r
  {
    if s == [] then [] else (if s[0] == c then [] else [s[0]]) + Delete(s[1..], c)
  }

  /** Deleting `c` keeps every other character, and adds none. */
  lemma {:induction false} DeleteMembers(s: string, c: char, d: char)
    ensures d in Delete(s, c) <==> d in s && d != c
  {
    if s != [] {
      DeleteMembers(s[1..], c, d);
      assert d in s <==> d == s[0] || d in s[1..];
    }
  }

  lemma TrimmedIsFixed(s: string)
    requires IsTrimmed(s)
    ensures Trim(s) == s
  {
    assert [] + s + [] == s;
    TrimPadded([], s, []);
  }

  /** `split(x, 1)` cuts at the first `x`: after a prefix free of `x`. */
  lemma {:induction false} IndexOfSplit<T>(a: seq<T>, x: T, b: seq<T>)
    requires x !in a
    ensures x in a + [x] + b && IndexOf(a + [x] + b, x) == |a|
  {
    var s := a + [x] + b;
    assert s[|a|] == x;
    if a != [] {
      assert s[0] == a[0] != x;
      assert s[1..] == a[1..] + [x] + b;
      IndexOfSplit(a[1..], x, b);
    }
  }

  /** The two halves `split(x, 1)` gives for `a + x + b` when `a` holds no
      `x`: `a` and `b`. */
  lemma SplitHalves(s: string, x: char, a: string, b: string)
    requires s == a + [x] + b && x !in a
    ensures x in s && IndexOf(s, x) == |a|
    ensures s[..IndexOf(s, x)] == a && s[IndexOf(s, x) + 1..] == b
  {
    IndexOfSplit(a, x, b);
    assert s[..|a|] == a;
    assert s[|a| + 1..] == b;
  }

  lemma {:induction false} DeleteAbsent(s: string, c: char)
    requires c !in s
    ensures Delete(s, c) == s
  {
    if s != [] {
      DeleteAbsent(s[1..], c);
      assert s == [s[0]] + s[1..];
    }
  }

  lemma {:induction false} DeleteAppend(a: string, b: string, c: char)
    ensures Delete(a + b, c) == Delete(a, c) + Delete(b, c)
  {
    if a == [] {
      assert a + b == b;
    } else {
      var head := if a[0] == c then [] else [a[0]];
      assert (a + b)[0] == a[0] && (a + b)[1..] == a[1..] + b;
      assert Delete(a + b, c) == head + Delete(a[1..] + b, c);
      DeleteAppend(a[1..], b, c);
      assert head + (Delete(a[1..], c) + Delete(b, c)) == (head + Delete(a[1..], c)) + Delete(b, c);
    }
  }

  /** `s.replace(a, b)` for single characters `a` and `b`. */
  function ReplaceChar(s: string, a: char, b: char): (r: string)
    ensures |r| == |s|
    ensures forall k :: 0 <= k < |s| ==> r[k] == (if s[k] == a then b else s[k])
  {
    if s == [] then [] else [if s[0] == a then b else s[0]] + ReplaceChar(s[1..], a, b)
  }

  /** `p` occurs somewhere in `s`. */
  predicate Occurs(s: string, p: string)
    decreases |s|
  {
    |p| <= |s| && (s[..|p|] == p || Occurs(s[1..], p))
  }

  /** `s.replace(p, "")`: a left-to-right scan that deletes each
      non-overlapping occurrence of `p`. */
  function RemoveAll(s: string, p: string): (r: string)
    requires p != []
    ensures |r| <= |s|
    decreases |s|
  {
    if |s| < |p| then s
    else if s[..|p|] == p then RemoveAll(s[|p|..], p)
    else [s[0]] + RemoveAll(s[1..], p)
  }

  /** Text without an occurrence of `p` passes through unchanged. */
  lemma {:induction false} RemoveAllAbsent(s: string, p: string)
    requires p != [] && !Occurs(s, p)
    ensures RemoveAll(s, p) == s
    decreases |s|
  {
    if |s| >= |p| {
      RemoveAllAbsent(s[1..], p);
      assert s == [s[0]] + s[1..];
    }
  }

  /** Every occurrence the scan meets is deleted: a text holding `p`
      loses at least `|p|` characters. */
  lemma {:induction false} RemoveAllShrinks(s: string, p: string)
    requires p != [] && Occurs(s, p)
    ensures |RemoveAll(s, p)| <= |s| - |p|
    decreases |s|
  {
    if s[..|p|] != p {
      RemoveAllShrinks(s[1..], p);
    }
  }

  /** A text after a prefix has the prefix's occurrences too. */
  lemma OccursAfterPrefix(t: string, p: string)
    requires |t| >= 1 && Occurs(t[1..], p)
    ensures Occurs(t, p)
  {
  }

  /** One step of the scan where the text does not start with `p`. */
  lemma RemoveAllStep(s: string, p: string)
    requires p != [] && |s| >= |p| && s[..|p|] != p
    ensures RemoveAll(s, p) == [s[0]] + RemoveAll(s[1..], p)
  {
  }

  /** When `x` is clean, `x + p + y` does not start with `p`, and the rest
      of `x` is clean too. */
  lemma CleanStep(x: string, p: string, y: string)
    requires p != [] && x != [] && !Occurs(x + p[..|p| - 1], p)
    ensures (x + p + y)[..|p|] != p
    ensures !Occurs(x[1..] + p[..|p| - 1], p)
  {
    var t := x + p[..|p| - 1];
    assert (x + p + y)[..|p|] == t[..|p|];
    assert t[1..] == x[1..] + p[..|p| - 1];
    if Occurs(t[1..], p) {
      OccursAfterPrefix(t, p);
    }
  }

  /** The first occurrence is deleted and the scan goes on after it: when
      nothing in `x`, not even overlapping the start of `p`, spells `p`,
      `replace` on `x + p + y` keeps `x` and deletes that `p`. */
  lemma {:induction false} RemoveAllAfterClean(x: string, p: string, y: string)
    requires p != [] && !Occurs(x + p[..|p| - 1], p)
    ensures RemoveAll(x + p + y, p) == x + RemoveAll(y, p)
    decreases |x|
  {
    if x == [] {
      RemoveAllHit(p, y);
      assert x + p + y == p + y;
    } else {
      CleanStep(x, p, y);
      RemoveAllStep(x + p + y, p);
      ConsSplit3(x, p, y);
      RemoveAllAfterClean(x[1..], p, y);
      ConsSplit(x, RemoveAll(y, p));
    }
  }

  lemma ConsSplit3<T>(a: seq<T>, b: seq<T>, c: seq<T>)
    requires a != []
    ensures (a + b + c)[0] == a[0] && (a + b + c)[1..] == a[1..] + b + c
  {
  }

  /** How a non-empty `a` sits at the front of `a + b`. */
  lemma ConsSplit<T>(a: seq<T>, b: seq<T>)
    requires a != []
    ensures (a + b)[0] == a[0] && (a + b)[1..] == a[1..] + b
    ensures [a[0]] + (a[1..] + b) == a + b
  {
  }

  /** A text that starts with `p` loses it. */
  lemma RemoveAllHit(p: string, y: string)
    requires p != []
    ensures RemoveAll(p + y, p) == RemoveAll(y, p)
  {
    assert (p + y)[..|p|] == p && (p + y)[|p|..] == y;
  }


  /** One pass only: removing an occurrence can join its neighbours into a
      new one, which is kept. */
  lemma RemoveAllSinglePass()
    ensures RemoveAll("NNoneone", "None") == "None"
  {
    assert "NNoneone"[..4][1] != "None"[1];
    assert "NNoneone"[1..][..4] == "None";
    assert "NNoneone"[1..][4..] == "one";
    assert RemoveAll("one", "None") == "one";
  }

  predicate IsDigit(c: char) {
    '0' <= c <= '9'
  }

  /** Every character is an ASCII digit (the empty text qualifies here;
      callers that follow `str.isdigit()` also demand a non-empty text). */
  predicate IsDigits(s: string) {
    forall k :: 0 <= k < |s| ==> IsDigit(s[k])
  }

  /** A digit text as `str(n)` writes it: non-empty, no leading zero. */
  predicate Canonical(s: string) {
    IsDigits(s) && |s| >= 1 && (s[0] == '0' ==> |s| == 1)
  }

  function DigitChar(d: nat): (c: char)
    requires d < 10
    ensures IsDigit(c)
  {
    (d + '0' as int) as char
  }

  function DigitValue(c: char): (d: nat)
    requires IsDigit(c)
    ensures d < 10
  {
    c as int - '0' as int
  }

  /** `int(s)` for a text of ASCII digits. */
  function DecimalValue(s: string): nat
    requires IsDigits(s)
  {
    if s == [] then 0 else 10 * DecimalValue(s[..|s| - 1]) + DigitValue(s[|s| - 1])
  }

  /** `str(n)` for a natural number. */
  function NatToString(n: nat): (r: string)
    ensures Canonical(r)
    ensures r[0] == '0' <==> n == 0
    ensures |r| == 1 <==> n < 10
  {
    (if n < 10 then [] else NatToString(n / 10)) + [DigitChar(n % 10)]
  }

  /** `int(str(n)) == n`. */
  lemma {:induction false} ValueOfNatToString(n: nat)
    ensures DecimalValue(NatToString(n)) == n
  {
    var r := NatToString(n);
    assert r[..|r| - 1] == if n < 10 then [] else NatToString(n / 10);
    if n >= 10 {
      ValueOfNatToString(n / 10);
    }
  }

  lemma {:induction false} ValuePositive(s: string)
    requires IsDigits(s) && s != [] && s[0] != '0'
    ensures DecimalValue(s) > 0
    decreases |s|
  {
    if |s| > 1 {
      ValuePositive(s[..|s| - 1]);
    }
  }

  /** `str(int(s)) == s` for a canonical digit text: the two conversions are
      inverse bijections between naturals and canonical texts. */
  lemma {:induction false} NatToStringOfValue(s: string)
    requires Canonical(s)
    ensures NatToString(DecimalValue(s)) == s
    decreases |s|
  {
    if |s| > 1 {
      var init := s[..|s| - 1];
      ValuePositive(init);
      NatToStringOfValue(init);
      var v := DecimalValue(s);
      assert v / 10 == DecimalValue(init) && v % 10 == DigitValue(s[|s| - 1]);
      assert s == init + [s[|s| - 1]];
    } else {
      assert s == [s[0]];
    }
  }

  /** More value never means fewer digits. */
  lemma {:induction false} DigitCountMonotone(a: nat, b: nat)
    requires a <= b
    ensures |NatToString(a)| <= |NatToString(b)|
  {
    if a >= 10 {
      DigitCountMonotone(a / 10, b / 10);
    }
  }

  /** `str(i)` for any integer: a minus sign before the digits of `-i`. */
  function IntToString(i: int): (r: string)
    ensures '.' !in r
  {
    if i < 0 then "-" + NatToString(-i) else NatToString(i)
  }

  /** Reads back what `IntToString` writes: an optional `-` and a canonical
      digit text (no `-0`). */
  function ParseInteger(s: string): Option<int> {
    if |s| > 1 && s[0] == '-' && Canonical(s[1..]) && s[1] != '0' then
      var magnitude: int := DecimalValue(s[1..]);
      Some(-magnitude)
    else if Canonical(s) then Some(DecimalValue(s) as int)
    else None
  }

  lemma IntToStringRoundTrip(i: int)
    ensures ParseInteger(IntToString(i)) == Some(i)
  {
    var r := IntToString(i);
    if i < 0 {
      var d := NatToString(-i);
      assert r == "-" + d && r[1..] == d;
      assert r[0] == '-' && d[0] != '0';
      ValueOfNatToString(-i);
    } else {
      assert r[0] != '-';
      ValueOfNatToString(i);
    }
  }

  function Max(a: int, b: int): int {
    if a < b then b else a
  }

  function Zeros(k: nat): (r: string)
    ensures |r| == k
    ensures forall j :: 0 <= j < k ==> r[j] == '0'
  {
    seq(k, _ => '0')
  }

  /** `f"{n:0{w}d}"`: the digits of `n`, left-padded with zeros to width `w`. */
  function ZeroPad(n: nat, w: nat): (r: string)
    ensures |r| == Max(w, |NatToString(n)|)
    ensures IsDigits(r)
  {
    var d := NatToString(n);
    if |d| < w then Zeros(w - |d|) + d else d
  }

  lemma {:induction false} ValueOfZeros(k: nat)
    ensures DecimalValue(Zeros(k)) == 0
  {
    if k > 0 {
      assert Zeros(k)[..k - 1] == Zeros(k - 1);
      ValueOfZeros(k - 1);
    }
  }

  /** Leading zeros do not change a number's value. */
  lemma {:induction false} ValueIgnoresLeadingZeros(k: nat, s: string)
    requires IsDigits(s)
    ensures DecimalValue(Zeros(k) + s) == DecimalValue(s)
    decreases |s|
  {
    if s == [] {
      assert Zeros(k) + s == Zeros(k);
      ValueOfZeros(k);
    } else {
      var t := Zeros(k) + s;
      assert t[..|t| - 1] == Zeros(k) + s[..|s| - 1];
      ValueIgnoresLeadingZeros(k, s[..|s| - 1]);
    }
  }

  /** A zero-padded number still reads back as that number. */
  lemma ValueOfZeroPad(n: nat, w: nat)
    ensures DecimalValue(ZeroPad(n, w)) == n
  {
    var d := NatToString(n);
    ValueOfNatToString(n);
    if |d| < w {
      assert ZeroPad(n, w) == Zeros(w - |d|) + d;
      ValueIgnoresLeadingZeros(w - |d|, d);
    } else {
      assert ZeroPad(n, w) == d;
    }
  }

  /** Distinct numbers give distinct padded texts, whatever the width. */
  lemma ZeroPadInjective(a: nat, b: nat, w: nat)
    requires ZeroPad(a, w) == ZeroPad(b, w)
    ensures a == b
  {
    ValueOfZeroPad(a, w);
    ValueOfZeroPad(b, w);
  }
}
