/** The text helpers of the report: `split` by a character and by a string,
    `parseInt` and number-to-text, the month/year header derived from the
    report date, and the sign token of a percentage. */
module Formatting {
  import opened Yields

  datatype Option<T> = None | Some(value: T)

  // ---------------------------------------------------------------------------
  // String splitting
  // ---------------------------------------------------------------------------

  /** The inverse of splitting: the parts glued back with `sep` between them. */
  function Join(parts: seq<string>, sep: char): string
    requires |parts| >= 1
  {
    if |parts| == 1 then parts[0] else parts[0] + [sep] + Join(parts[1..], sep)
  }

  /** `s.split(sep)` for a one-character separator: never empty, no part holds
      the separator, and joining the parts gives `s` back. */
  function Split(s: string, sep: char): (parts: seq<string>)
    ensures |parts| >= 1
    ensures forall i :: 0 <= i < |parts| ==> sep !in parts[i]
    ensures Join(parts, sep) == s
    decreases |s|
  {
    if s == [] then [""]
    else
      var rest := Split(s[1..], sep);
      if s[0] == sep then
        var parts := [""] + rest;
        assert parts[1..] == rest;
        parts
      else
        var parts := [[s[0]] + rest[0]] + rest[1..];
        assert parts[1..] == rest[1..];
        assert s == [s[0]] + s[1..];
        parts
  }

  /** Splitting undoes joining when no part holds the separator. */
  lemma {:induction false} SplitJoin(parts: seq<string>, sep: char)
    requires |parts| >= 1
    requires forall i :: 0 <= i < |parts| ==> sep !in parts[i]
    ensures Split(Join(parts, sep), sep) == parts
    decreases |Join(parts, sep)|, |parts|
  {
    var s := Join(parts, sep);
    var q := Split(s, sep);
    if |parts| == 1 {
      SplitWithout(parts[0], sep);
    } else {
      var tail := Join(parts[1..], sep);
      assert s == parts[0] + [sep] + tail;
      SplitJoin(parts[1..], sep);
      SplitAround(parts[0], sep, tail);
      assert q == [parts[0]] + parts[1..];
    }
  }

  lemma {:induction false} SplitWithout(s: string, sep: char)
    requires sep !in s
    ensures Split(s, sep) == [s]
    decreases |s|
  {
    if s != [] {
      SplitWithout(s[1..], sep);
      assert s == [s[0]] + s[1..];
    }
  }

  lemma {:induction false} SplitAround(head: string, sep: char, tail: string)
    requires sep !in head
    ensures Split(head + [sep] + tail, sep) == [head] + Split(tail, sep)
    decreases |head|
  {
    var s := head + [sep] + tail;
    if head == [] {
      assert s[1..] == tail;
    } else {
      assert s[1..] == head[1..] + [sep] + tail;
      SplitAround(head[1..], sep, tail);
      assert [head[0]] + head[1..] == head;
    }
  }

  /** `sep` occurs in `s` starting at index `i`. */
  predicate OccursAt(s: string, sep: string, i: nat) {
    i + |sep| <= |s| && s[i..i + |sep|] == sep
  }

  lemma OccursInTail(s: string, sep: string, i: nat)
    requires 1 <= i && |s| > 0
    ensures OccursAt(s, sep, i) <==> OccursAt(s[1..], sep, i - 1)
  {
    if i + |sep| <= |s| {
      var t := s[1..];
      var u, v := s[i..i + |sep|], t[i - 1..i - 1 + |sep|];
      forall j | 0 <= j < |sep| ensures u[j] == v[j] {
        assert s[i + j] == t[i - 1 + j];
      }
      assert u == v;
    }
  }

  /** `s.split(sep)[0]`: the text before the first occurrence of `sep`, or all of `s`. */
  function BeforeFirst(s: string, sep: string): (r: string)
    requires |sep| > 0
    ensures r <= s
    ensures forall i: nat :: i < |r| ==> !OccursAt(s, sep, i)
    ensures |r| == |s| || OccursAt(s, sep, |r|)
    decreases |s|
  {
    if |s| < |sep| then s
    else if s[..|sep|] == sep then ""
    else
      var rest := BeforeFirst(s[1..], sep);
      var r := [s[0]] + rest;
      assert forall i: nat :: 1 <= i < |r| ==> !OccursAt(s, sep, i) by {
        forall i: nat | 1 <= i < |r| ensures !OccursAt(s, sep, i) {
          OccursInTail(s, sep, i);
        }
      }
      OccursInTail(s, sep, |r|);
      r
  }

  /** Text cut at an occurrence of `sep` whose first character appears nowhere before it. */
  lemma BeforeFirstAt(s: string, sep: string, n: nat)
    requires |sep| > 0 && OccursAt(s, sep, n)
    requires forall i :: 0 <= i < n ==> s[i] != sep[0]
    ensures BeforeFirst(s, sep) == s[..n]
  {
    var r := BeforeFirst(s, sep);
    forall i: nat | i < n ensures !OccursAt(s, sep, i) {
      assert i + |sep| <= |s| ==> s[i..i + |sep|][0] == s[i];
    }
  }

  /** The first piece of a one-character split: a prefix of `s` without `sep`
      that ends at the end of `s` or at a `sep`. */
  lemma SplitHead(s: string, sep: char)
    ensures var h := Split(s, sep)[0];
      && h <= s && sep !in h && (|h| == |s| || s[|h|] == sep)
  {
    var parts := Split(s, sep);
    if |parts| > 1 {
      assert s == parts[0] + [sep] + Join(parts[1..], sep);
    }
  }

  /** The two ways of taking the first piece of a split agree on a
      one-character separator. */
  lemma BeforeFirstIsSplitHead(s: string, sep: char)
    ensures BeforeFirst(s, [sep]) == Split(s, sep)[0]
  {
    var r := BeforeFirst(s, [sep]);
    var h := Split(s, sep)[0];
    SplitHead(s, sep);
    forall i | 0 <= i < |r| ensures s[i] != sep {
      assert s[i..i + 1] == [s[i]];
    }
    assert |r| < |s| ==> s[|r|..|r| + 1][0] == s[|r|];
    FirstSeparator(s, sep, |r|, |h|);
  }

  /** Two cut points that both end a separator-free prefix at `sep` or at the end are the same. */
  lemma FirstSeparator(s: string, sep: char, a: nat, b: nat)
    requires a <= |s| && b <= |s|
    requires forall i :: 0 <= i < a ==> s[i] != sep
    requires forall i :: 0 <= i < b ==> s[i] != sep
    requires (a == |s| || s[a] == sep) && (b == |s| || s[b] == sep)
    ensures a == b
  {
  }

  // ---------------------------------------------------------------------------
  // parseInt(str, 10) and number-to-text
  // ---------------------------------------------------------------------------

  /** The characters `parseInt` skips before the number: the white space and
      line terminators of ECMAScript. */
  predicate IsWhite(ch: char) {
    || '\U{9}' <= ch <= '\U{D}'        // tab, line feed, vertical tab, form feed, carriage return
    || ch == ' ' || ch == '\U{A0}' || ch == '\U{1680}'
    || '\U{2000}' <= ch <= '\U{200A}'  // the typographic spaces
    || ch == '\U{2028}' || ch == '\U{2029}' || ch == '\U{202F}' || ch == '\U{205F}'
    || ch == '\U{3000}' || ch == '\U{FEFF}'
  }

  predicate IsDigit(ch: char) {
    '0' <= ch <= '9'
  }

  predicate AllDigits(s: string) {
    forall i :: 0 <= i < |s| ==> IsDigit(s[i])
  }

  /** `s` without its leading white space. */
  function TrimStart(s: string): (t: string)
    ensures |t| <= |s| && t == s[|s| - |t|..]
    ensures t == [] || !IsWhite(t[0])
    ensures forall i :: 0 <= i < |s| - |t| ==> IsWhite(s[i])
  {
    if s != [] && IsWhite(s[0]) then TrimStart(s[1..]) else s
  }

  /** The longest run of decimal digits at the start of `s`. */
  function DigitRun(s: string): (ds: string)
    ensures ds <= s && AllDigits(ds)
    ensures |ds| == |s| || !IsDigit(s[|ds|])
  {
    if s != [] && IsDigit(s[0]) then [s[0]] + DigitRun(s[1..]) else []
  }

  /** Decimal value of a digit string, read from the left. */
  function DigitsValue(ds: string): nat
    requires AllDigits(ds)
  {
    if ds == [] then 0 else DigitsValue(ds[..|ds| - 1]) * 10 + (ds[|ds| - 1] - '0') as nat
  }

  /** `parseInt(s, 10)`: skip white space, take an optional sign, then the
      leading digits; no digits at all is NaN, here `None`. */
  function ParseInt(s: string): (n: Option<int>)
    ensures n.None? <==> DigitRun(Unsigned(TrimStart(s))) == []
  {
    var t := TrimStart(s);
    var body := Unsigned(t);
    var ds := DigitRun(body);
    if ds == [] then None
    else if t[0] == '-' then Some(-(DigitsValue(ds) as int))
    else Some(DigitsValue(ds))
  }

  /** `t` without a leading sign character. */
  function Unsigned(t: string): string {
    if t != [] && (t[0] == '-' || t[0] == '+') then t[1..] else t
  }

  /** Decimal rendering of a natural number, without leading zeros. */
  function NatToString(n: nat): (s: string)
    ensures |s| > 0 && AllDigits(s)
    ensures s[0] == '0' ==> n == 0
    decreases n
  {
    var d := ['0' + (n % 10) as char];
    if n < 10 then d else NatToString(n / 10) + d
  }

  /** Reading back the decimal rendering of a number gives the number. */
  lemma {:induction false} NatToStringRoundTrip(n: nat)
    ensures DigitsValue(NatToString(n)) == n
    decreases n
  {
    var s := NatToString(n);
    if n >= 10 {
      NatToStringRoundTrip(n / 10);
      assert s[..|s| - 1] == NatToString(n / 10);
    }
  }

  /** How an integer below 10^21 in magnitude is interpolated into a template
      string: a `-` for negative numbers, then the decimal digits. */
  function IntToString(n: int): (s: string)
    ensures |s| > 0
    ensures s[0] == '-' <==> n < 0
    ensures AllDigits(if n < 0 then s[1..] else s)
  {
    if n < 0 then "-" + NatToString(-n) else NatToString(n)
  }

  /** Text of a `parseInt` result: the number, or `NaN`. */
  function NumberText(n: Option<int>): (r: string)
    ensures r == "NaN" <==> n.None?
  {
    match n
    case None => "NaN"
    case Some(v) => IntToString(v)
  }

  /** `parseInt` reads back any interpolated integer. */
  lemma ParseIntRoundTrip(n: int)
    ensures ParseInt(IntToString(n)) == Some(n)
  {
    var m: nat := if n < 0 then -n else n;
    NatToStringRoundTrip(m);
    if n < 0 {
      ParseNegatedDigits(NatToString(m));
    } else {
      ParseDigits(NatToString(m));
    }
  }

  /** A string of digits only is read as its decimal value. */
  lemma ParseDigits(ds: string)
    requires |ds| > 0 && AllDigits(ds)
    ensures ParseInt(ds) == Some(DigitsValue(ds))
  {
    assert TrimStart(ds) == ds && Unsigned(ds) == ds by {
      assert IsDigit(ds[0]);
    }
    DigitRunWhole(ds);
  }

  /** A minus sign followed by digits only is read as the negated value. */
  lemma ParseNegatedDigits(ds: string)
    requires |ds| > 0 && AllDigits(ds)
    ensures ParseInt("-" + ds) == Some(-(DigitsValue(ds) as int))
  {
    var s := "-" + ds;
    assert s[0] == '-' && s[1..] == ds;
    assert TrimStart(s) == s;
    DigitRunWhole(ds);
    ReadNegative(s, ds);
  }

  lemma DigitRunWhole(ds: string)
    requires AllDigits(ds)
    ensures DigitRun(ds) == ds
  {
    DigitRunAll(ds, "");
    assert ds + "" == ds;
  }

  /** A minus sign, with no white space before it, followed by digits only. */
  lemma ReadNegative(s: string, ds: string)
    requires |ds| > 0 && AllDigits(ds) && DigitRun(ds) == ds
    requires |s| > 0 && s[0] == '-' && TrimStart(s) == s && Unsigned(s) == ds
    ensures ParseInt(s) == Some(-(DigitsValue(ds) as int))
  {
    var t := TrimStart(s);
    assert t == s && t[0] == '-';
    assert DigitRun(Unsigned(t)) == ds;
  }

  /** A digit string followed by a non-digit is read up to the non-digit. */
  lemma {:induction false} DigitRunAll(ds: string, rest: string)
    requires AllDigits(ds)
    requires rest == [] || !IsDigit(rest[0])
    ensures DigitRun(ds + rest) == ds
    decreases |ds|
  {
    if ds != [] {
      assert (ds + rest)[1..] == ds[1..] + rest;
      DigitRunAll(ds[1..], rest);
    }
  }

  // ---------------------------------------------------------------------------
  // formatDate
  // ---------------------------------------------------------------------------

  datatype DateLabel = DateLabel(monthStr: string, yearStr: string)

  const Placeholder := DateLabel("--", "--")

  /** `formatDate`: the year is the text before the first `-`, the month the
      integer value of the text between the first and second `-`, followed by `月`. */
  function FormatDate(dateStr: string): (r: DateLabel)
    ensures '-' !in dateStr ==> r == Placeholder
    ensures '-' in dateStr ==>
      && |r.yearStr| < |dateStr|
      && dateStr[..|r.yearStr|] == r.yearStr
      && dateStr[|r.yearStr|] == '-'
      && '-' !in r.yearStr
      && |r.monthStr| > 0 && r.monthStr[|r.monthStr| - 1] == '月'
  {
    if dateStr == "" then Placeholder
    else
      var parts := Split(dateStr, '-');
      if |parts| < 2 then
        assert dateStr == parts[0];
        Placeholder
      else
        var year := parts[0];
        var month := ParseInt(parts[1]);
        assert dateStr == year + ['-'] + Join(parts[1..], '-');
        DateLabel(NumberText(month) + "月", year)
  }

  /** A date whose second field is all digits: the header shows that field's
      value without leading zeros, and the first field verbatim. */
  lemma FormatDateDigits(year: string, month: string, rest: string)
    requires '-' !in year
    requires |month| > 0 && AllDigits(month)
    requires rest == [] || rest[0] == '-'
    ensures FormatDate(year + "-" + month + rest)
         == DateLabel(NatToString(DigitsValue(month)) + "月", year)
  {
    DateFields(year, month, rest);
    FormatDateOfFields(year + "-" + month + rest, year, month);
    ParseDigits(month);
  }

  /** The first two fields of such a date are the year and the month. */
  lemma DateFields(year: string, month: string, rest: string)
    requires '-' !in year
    requires AllDigits(month)
    requires rest == [] || rest[0] == '-'
    ensures var parts := Split(year + "-" + month + rest, '-');
      |parts| >= 2 && parts[0] == year && parts[1] == month
  {
    assert '-' !in month by {
      forall i | 0 <= i < |month| ensures month[i] != '-' {
        assert IsDigit(month[i]);
      }
    }
    assert year + "-" + month + rest == year + ['-'] + (month + rest);
    SplitAround(year, '-', month + rest);
    if rest == [] {
      assert month + rest == month;
      SplitWithout(month, '-');
    } else {
      assert month + rest == month + ['-'] + rest[1..];
      SplitAround(month, '-', rest[1..]);
    }
  }

  /** The header is read off the first two fields of the split. */
  lemma FormatDateOfFields(s: string, year: string, month: string)
    requires |Split(s, '-')| >= 2 && Split(s, '-')[0] == year && Split(s, '-')[1] == month
    ensures FormatDate(s) == DateLabel(NumberText(ParseInt(month)) + "月", year)
  {
    assert s != "";
  }

  /** The date the application starts with, e.g. `2024-03-15`. */
  lemma FormatDateExample()
    ensures FormatDate("2024-03-15") == DateLabel("3月", "2024")
  {
    ExampleFields();
    FormatDateDigits("2024", "03", "-15");
  }

  lemma ExampleFields()
    ensures "2024" + "-" + "03" + "-15" == "2024-03-15"
    ensures AllDigits("03") && NatToString(DigitsValue("03")) + "月" == "3月"
  {
    assert IsDigit("03"[0]) && IsDigit("03"[1]);
    assert DigitsValue("03") == 3 by {
      assert "03"[..1] == "0";
      assert "0"[..0] == "";
    }
  }

  // ---------------------------------------------------------------------------
  // formatPct
  // ---------------------------------------------------------------------------

  /** `(val > 0 ? '+' : '') + val.toFixed(2) + '%'`. The two-decimal rendering
      of a finite value is passed in as `fixed`; an infinity renders as
      `Infinity` with its sign. A `+` is added exactly when the value is
      positive: zero and negative values carry no added sign. */
  function FormatPct(val: Ratio, fixed: string): (s: string)
    ensures |s| > 0 && s[|s| - 1] == '%'
    ensures val.IsPositive() ==> s[0] == '+' && s[1..] == FixedText(val, fixed) + "%"
    ensures !val.IsPositive() ==> s == FixedText(val, fixed) + "%"
  {
    (if val.IsPositive() then "+" else "") + FixedText(val, fixed) + "%"
  }

  /** What `toFixed(2)` yields: the supplied rendering, or `Infinity` with its sign. */
  function FixedText(val: Ratio, fixed: string): (r: string)
    ensures val.Finite? ==> r == fixed
    ensures !val.Finite? ==> r == (if val.NegInfinity? then "-" else "") + "Infinity"
  {
    match val
    case Finite(_) => fixed
    case PosInfinity => "Infinity"
    case NegInfinity => "-Infinity"
  }

  /** A leading `+` appears exactly for positive values, given a rendering that
      does not itself begin with `+` (as `toFixed` never does). */
  lemma FormatPctSign(val: Ratio, fixed: string)
    requires fixed == [] || fixed[0] != '+'
    ensures FormatPct(val, fixed)[0] == '+' <==> val.IsPositive()
  {
  }
}
