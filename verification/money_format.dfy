/** The cents formatter of src/utils/utils.js: integer cents become
    `[-]{symbol}{integer part with a comma every three digits}.{two digits}`,
    and a `{num1, num2}` range becomes `"{first} - {second}"`. */
module MoneyFormat {
  import opened Text
  import opened Wrappers

  function Abs(x: int): (r: nat)
    ensures r == x || r == -x
  {
    if x < 0 then -x else x
  }

  /** `(n / 100).toFixed(2)` for non-negative integer cents `n`: whole units,
      a point, and the two digits of the remainder. */
  function ToFixed2(n: nat): string {
    DigitsOf(n / 100) + "." + [DigitChar(n % 100 / 10), DigitChar(n % 10)]
  }

  // ---------------------------------------------------------------------------
  // The regular expression /\B(?=(\d{3})+(?!\d))/g replaced by ","
  // ---------------------------------------------------------------------------

  /** `\w` in a JavaScript regular expression. */
  predicate IsWordChar(c: char) {
    IsDigit(c) || 'a' <= c <= 'z' || 'A' <= c <= 'Z' || c == '_'
  }

  /** The number of consecutive digits of `t` starting at position `p`. */
  function DigitRun(t: string, p: nat): nat
    requires p <= |t|
    decreases |t| - p
  {
    if p < |t| && IsDigit(t[p]) then 1 + DigitRun(t, p + 1) else 0
  }

  /** The pattern matches (with an empty match) just before position `p`:
      `\B` holds because the character before is a word character like the
      digit after it, and `(\d{3})+(?!\d)` holds because the digit run from
      `p` has a positive length that is a multiple of three. */
  predicate CommaBefore(t: string, p: nat)
    requires p < |t|
  {
    p > 0 && IsWordChar(t[p - 1]) && DigitRun(t, p) > 0 && DigitRun(t, p) % 3 == 0
  }

  /** `t[p..]` with a comma inserted at every match position. */
  function InsertSeparators(t: string, p: nat): string
    requires p <= |t|
    decreases |t| - p
  {
    if p == |t| then []
    else (if CommaBefore(t, p) then [','] else []) + [t[p]] + InsertSeparators(t, p + 1)
  }

  /** `t.replace(/\B(?=(\d{3})+(?!\d))/g, ',')`. */
  function ReplaceThousands(t: string): string {
    InsertSeparators(t, 0)
  }

  /** `formatSingleAmount(cents, currencySymbol)`. */
  function FormatSingleAmount(cents: int, symbol: string): string {
    (if cents < 0 then "-" + symbol else symbol) + ReplaceThousands(ToFixed2(Abs(cents)))
  }

  /** A money value as the formatter sees it: a number of cents, or a range
      object whose two endpoints are numbers of cents (kept in given order). */
  datatype Amount = Scalar(cents: int) | Range(num1: int, num2: int)

  /** The string `formatAmountDisplay` produces for a formattable amount. */
  function FormatAmount(a: Amount, symbol: string): string {
    match a
    case Scalar(c) => FormatSingleAmount(c, symbol)
    case Range(n1, n2) => FormatSingleAmount(n1, symbol) + " - " + FormatSingleAmount(n2, symbol)
  }

  // ---------------------------------------------------------------------------
  // Layout: grouping of the integer part
  // ---------------------------------------------------------------------------

  /** Digits `d[i..]`, a comma before every position that is not the first and
      is followed by a multiple of three digits. */
  function CommaSplice(d: string, i: nat): string
    requires i <= |d|
    decreases |d| - i
  {
    if i == |d| then []
    else (if i > 0 && (|d| - i) % 3 == 0 then [','] else []) + [d[i]] + CommaSplice(d, i + 1)
  }

  function GroupThousands(d: string): string {
    CommaSplice(d, 0)
  }

  /** `\d{1,3}(,\d{3})*`: a leading group of one to three digits, then groups
      of exactly three digits each introduced by a comma. */
  predicate WellGrouped(g: string)
    decreases |g|
  {
    (1 <= |g| <= 3 && AllDigits(g))
    || (|g| >= 5 && g[|g| - 4] == ',' && AllDigits(g[|g| - 3..]) && WellGrouped(g[..|g| - 4]))
  }

  function RemoveCommas(s: string): (r: string)
    ensures |r| <= |s|
  {
    if s == [] then [] else (if s[0] == ',' then [] else [s[0]]) + RemoveCommas(s[1..])
  }

  lemma {:induction false} RemoveCommasAppend(x: string, y: string)
    ensures RemoveCommas(x + y) == RemoveCommas(x) + RemoveCommas(y)
  {
    if x == [] {
      assert x + y == y;
    } else {
      assert (x + y)[1..] == x[1..] + y;
      RemoveCommasAppend(x[1..], y);
    }
  }

  lemma {:induction false} RemoveCommasOfDigits(d: string)
    requires AllDigits(d)
    ensures RemoveCommas(d) == d
  {
    if d != [] {
      RemoveCommasOfDigits(d[1..]);
    }
  }

  lemma {:induction false} WellGroupedDigits(g: string)
    requires WellGrouped(g)
    ensures AllDigits(RemoveCommas(g)) && |RemoveCommas(g)| >= 1
    decreases |g|
  {
    if 1 <= |g| <= 3 && AllDigits(g) {
      RemoveCommasOfDigits(g);
    } else {
      var a, b := g[..|g| - 4], g[|g| - 3..];
      assert g == a + [','] + b;
      RemoveCommasAppend(a + [','], b);
      RemoveCommasAppend(a, [',']);
      RemoveCommasOfDigits(b);
      WellGroupedDigits(a);
    }
  }

  lemma {:induction false} CommaSpliceShort(d: string, i: nat)
    requires |d| <= 3 && i <= |d|
    ensures CommaSplice(d, i) == d[i..]
    decreases |d| - i
  {
    if i < |d| {
      CommaSpliceShort(d, i + 1);
    }
  }

  lemma CommaSpliceLastGroup(a: string, b: string)
    requires |a| >= 1 && |b| == 3
    ensures CommaSplice(a + b, |a|) == [','] + b
  {
    var d := a + b;
    assert CommaSplice(d, |a| + 3) == [];
    assert CommaSplice(d, |a| + 2) == [b[2]];
    assert CommaSplice(d, |a| + 1) == [b[1], b[2]];
  }

  lemma {:induction false} CommaSpliceSplit(a: string, b: string, i: nat)
    requires |a| >= 1 && |b| == 3 && i <= |a|
    ensures CommaSplice(a + b, i) == CommaSplice(a, i) + [','] + b
    decreases |a| - i
  {
    var d := a + b;
    if i == |a| {
      CommaSpliceLastGroup(a, b);
    } else {
      var sep := if i > 0 && (|a| - i) % 3 == 0 then [','] else [];
      assert (|d| - i) % 3 == (|a| - i) % 3 by {
        assert |d| - i == (|a| - i) + 3;
      }
      assert d[i] == a[i];
      CommaSpliceSplit(a, b, i + 1);
      assert CommaSplice(d, i) == sep + [a[i]] + CommaSplice(d, i + 1);
      assert CommaSplice(a, i) == sep + [a[i]] + CommaSplice(a, i + 1);
    }
  }

  /** One more group of three digits after a comma keeps the layout. */
  lemma GroupStep(ga: string, a: string, b: string)
    requires WellGrouped(ga) && RemoveCommas(ga) == a
    requires AllDigits(b) && |b| == 3
    ensures WellGrouped(ga + [','] + b)
    ensures RemoveCommas(ga + [','] + b) == a + b
  {
    var g := ga + [','] + b;
    assert WellGrouped(g) by {
      assert |ga| >= 1;
      assert g[..|g| - 4] == ga && g[|g| - 4] == ',' && g[|g| - 3..] == b;
    }
    assert RemoveCommas(g) == a + b by {
      RemoveCommasAppend(ga + [','], b);
      RemoveCommasAppend(ga, [',']);
      RemoveCommasOfDigits(b);
      assert RemoveCommas([',']) == [];
    }
  }

  /** Grouping a numeral gives the `\d{1,3}(,\d{3})*` layout and loses no digit. */
  lemma {:induction false} GroupThousandsLayout(d: string)
    requires AllDigits(d) && |d| >= 1
    ensures WellGrouped(GroupThousands(d))
    ensures RemoveCommas(GroupThousands(d)) == d
    decreases |d|
  {
    if |d| <= 3 {
      CommaSpliceShort(d, 0);
      RemoveCommasOfDigits(d);
    } else {
      var a, b := d[..|d| - 3], d[|d| - 3..];
      assert d == a + b;
      GroupThousandsLayout(a);
      assert GroupThousands(d) == GroupThousands(a) + [','] + b by {
        CommaSpliceSplit(a, b, 0);
      }
      GroupStep(GroupThousands(a), a, b);
    }
  }

  // ---------------------------------------------------------------------------
  // The regular expression only touches the integer part
  // ---------------------------------------------------------------------------

  lemma {:induction false} DigitRunOfIntPart(d: string, f: string, i: nat)
    requires AllDigits(d) && i <= |d|
    ensures DigitRun(d + ['.'] + f, i) == |d| - i
    decreases |d| - i
  {
    var t := d + ['.'] + f;
    if i < |d| {
      DigitRunOfIntPart(d, f, i + 1);
    } else {
      assert t[i] == '.';
    }
  }

  lemma {:induction false} SeparatorsOfFixed(d: string, f: string, i: nat)
    requires AllDigits(d) && |d| >= 1 && AllDigits(f) && |f| == 2 && i <= |d|
    ensures InsertSeparators(d + ['.'] + f, i) == CommaSplice(d, i) + ['.'] + f
    decreases |d| - i
  {
    var t := d + ['.'] + f;
    if i == |d| {
      assert t[|d|] == '.' && t[|d| + 1] == f[0] && t[|d| + 2] == f[1];
      DigitRunOfIntPart(d, f, |d|);
      assert DigitRun(t, |d| + 2) == 1 by {
        assert DigitRun(t, |d| + 3) == 0;
      }
      assert InsertSeparators(t, |d| + 3) == [];
      assert InsertSeparators(t, |d| + 2) == [f[1]];
      assert InsertSeparators(t, |d| + 1) == [f[0], f[1]];
    } else {
      DigitRunOfIntPart(d, f, i);
      assert t[i] == d[i];
      assert i > 0 ==> t[i - 1] == d[i - 1];
      SeparatorsOfFixed(d, f, i + 1);
    }
  }

  /** The two digits of `n % 100`. */
  function CentDigits(n: nat): string {
    [DigitChar(n % 100 / 10), DigitChar(n % 10)]
  }

  /** What follows the sign and the symbol: grouped whole units, a point, and
      the two cent digits. */
  function FormatBody(n: nat): string {
    GroupThousands(DigitsOf(n / 100)) + "." + CentDigits(n)
  }

  function SignPrefix(cents: int): string {
    if cents < 0 then "-" else ""
  }

  /** A formatted amount is a sign exactly when negative, then the symbol,
      then the body of `|cents|`. */
  lemma FormatSingleAmountPieces(cents: int, symbol: string)
    ensures FormatSingleAmount(cents, symbol) == SignPrefix(cents) + symbol + FormatBody(Abs(cents))
  {
    var n := Abs(cents);
    SeparatorsOfFixed(DigitsOf(n / 100), CentDigits(n), 0);
  }

  lemma CentDigitsValue(n: nat)
    ensures AllDigits(CentDigits(n)) && DigitsValue(CentDigits(n)) == n % 100
  {
    var f := CentDigits(n);
    assert f[..1] == [f[0]];
    assert [f[0]][..0] == [];
    assert DigitValue(f[0]) == n % 100 / 10;
    assert DigitValue(f[1]) == n % 10;
    assert DigitsValue(f[..1]) == n % 100 / 10;
    assert DigitsValue(f) == (n % 100 / 10) * 10 + n % 10;
  }

  // ---------------------------------------------------------------------------
  // Properties of the formatter
  // ---------------------------------------------------------------------------

  /** The body of `n` cents has the layout `\d{1,3}(,\d{3})*\.\d{2}`; its integer
      part has no leading zero and reads back, commas dropped, as `n / 100`, and
      its two final digits read back as `n % 100`. */
  lemma FormatBodyLayout(n: nat)
    ensures var b := FormatBody(n);
            && |b| >= 4
            && b[|b| - 3] == '.'
            && AllDigits(b[|b| - 2..])
            && DigitsValue(b[|b| - 2..]) == n % 100
            && WellGrouped(b[..|b| - 3])
            && AllDigits(RemoveCommas(b[..|b| - 3]))
            && DigitsValue(RemoveCommas(b[..|b| - 3])) == n / 100
            && (b[0] == '0' ==> b[..|b| - 3] == "0")
  {
    var d := DigitsOf(n / 100);
    var g := GroupThousands(d);
    var b := FormatBody(n);
    GroupThousandsLayout(d);
    DigitsValueOfDigitsOf(n / 100);
    CentDigitsValue(n);
    WellGroupedDigits(g);
    assert b[..|b| - 3] == g;
    assert b[|b| - 2..] == CentDigits(n);
    if |d| <= 3 {
      CommaSpliceShort(d, 0);
    } else {
      assert d[..|d| - 3] + d[|d| - 3..] == d;
      CommaSpliceSplit(d[..|d| - 3], d[|d| - 3..], 0);
      CommaSpliceHead(d[..|d| - 3]);
    }
    assert b[0] == g[0] == d[0];
  }

  lemma {:induction false} CommaSpliceHead(d: string)
    requires |d| >= 1
    ensures |GroupThousands(d)| >= 1 && GroupThousands(d)[0] == d[0]
  {
  }

  /** The reading the layout permits: strip an optional minus and the symbol,
      split at the point, drop the commas and read the digits. */
  function ParseBody(b: string): Option<nat> {
    if |b| >= 4 && b[|b| - 3] == '.' && AllDigits(b[|b| - 2..]) && WellGrouped(b[..|b| - 3]) then
      WellGroupedDigits(b[..|b| - 3]);
      Some(DigitsValue(RemoveCommas(b[..|b| - 3])) * 100 + DigitsValue(b[|b| - 2..]))
    else None
  }

  function ParseAmount(t: string, symbol: string): Option<int> {
    var negative := |t| > 0 && t[0] == '-';
    var u := if negative then t[1..] else t;
    if IsPrefix(symbol, u) then
      match ParseBody(u[|symbol|..])
      case Some(v) => var w: int := v; Some(if negative then -w else w)
      case None => None
    else None
  }

  lemma ParseFormatBody(n: nat)
    ensures ParseBody(FormatBody(n)) == Some(n)
  {
    FormatBodyLayout(n);
  }

  lemma FormatBodyHead(n: nat)
    ensures |FormatBody(n)| > 0 && IsDigit(FormatBody(n)[0])
  {
    FormatBodyLayout(n);
    var b := FormatBody(n);
    WellGroupedHead(b[..|b| - 3]);
    assert b[..|b| - 3][0] == b[0];
  }

  lemma ParseNegative(symbol: string, b: string)
    requires ParseBody(b).Some?
    ensures ParseAmount("-" + symbol + b, symbol) == Some(0 - ParseBody(b).value as int)
  {
    var t := "-" + symbol + b;
    assert t[1..] == symbol + b;
    assert (symbol + b)[..|symbol|] == symbol;
    assert (symbol + b)[|symbol|..] == b;
  }

  lemma ParseNonNegative(symbol: string, b: string)
    requires symbol == [] || symbol[0] != '-'
    requires |b| > 0 && IsDigit(b[0])
    requires ParseBody(b).Some?
    ensures ParseAmount(symbol + b, symbol) == Some(ParseBody(b).value)
  {
    var t := symbol + b;
    assert t[0] != '-' by {
      if |symbol| == 0 { assert t[0] == b[0]; } else { assert t[0] == symbol[0]; }
    }
    assert t[..|symbol|] == symbol;
    assert t[|symbol|..] == b;
  }

  /** Reading a formatted amount back gives the cents it was made from, for any
      symbol that does not itself begin with a minus sign. */
  lemma FormatRoundTrip(cents: int, symbol: string)
    requires symbol == [] || symbol[0] != '-'
    ensures ParseAmount(FormatSingleAmount(cents, symbol), symbol) == Some(cents)
  {
    FormatSingleAmountPieces(cents, symbol);
    ParseFormatBody(Abs(cents));
    FormatBodyHead(Abs(cents));
    if cents < 0 {
      ParseNegative(symbol, FormatBody(Abs(cents)));
    } else {
      assert SignPrefix(cents) + symbol == symbol;
      ParseNonNegative(symbol, FormatBody(Abs(cents)));
    }
  }

  lemma {:induction false} WellGroupedHead(g: string)
    requires WellGrouped(g)
    ensures IsDigit(g[0])
    decreases |g|
  {
    if !(1 <= |g| <= 3 && AllDigits(g)) {
      WellGroupedHead(g[..|g| - 4]);
    }
  }

  /** The output begins with a minus sign exactly when the cents are negative
      (for a symbol that does not itself begin with one). */
  lemma FormatSign(cents: int, symbol: string)
    requires symbol == [] || symbol[0] != '-'
    ensures var t := FormatSingleAmount(cents, symbol); |t| > 0 && (t[0] == '-' <==> cents < 0)
  {
    FormatSingleAmountPieces(cents, symbol);
    FormatBodyHead(Abs(cents));
    var t := FormatSingleAmount(cents, symbol);
    if cents >= 0 && |symbol| == 0 {
      assert t[0] == FormatBody(Abs(cents))[0];
    } else if cents >= 0 {
      assert t[0] == symbol[0];
    }
  }

  /** Distinct cents never share a display string. */
  lemma FormatInjective(c1: int, c2: int, symbol: string)
    requires symbol == [] || symbol[0] != '-'
    requires FormatSingleAmount(c1, symbol) == FormatSingleAmount(c2, symbol)
    ensures c1 == c2
  {
    FormatRoundTrip(c1, symbol);
    FormatRoundTrip(c2, symbol);
  }

  /** Zero is `{symbol}0.00`, with no sign. */
  lemma FormatZero(symbol: string)
    ensures FormatSingleAmount(0, symbol) == symbol + "0.00"
  {
    FormatSingleAmountPieces(0, symbol);
    CommaSpliceShort("0", 0);
    assert DigitsOf(0) == "0";
  }

  /** A range shows both endpoints, each with its own sign, in given order. */
  lemma FormatRangeParts(n1: int, n2: int, symbol: string)
    requires symbol == [] || symbol[0] != '-'
    ensures var t := FormatAmount(Range(n1, n2), symbol);
            var a := FormatSingleAmount(n1, symbol);
            && t[..|a|] == a
            && t[|a|..|a| + 3] == " - "
            && ParseAmount(t[..|a|], symbol) == Some(n1)
            && ParseAmount(t[|a| + 3..], symbol) == Some(n2)
  {
    var t := FormatAmount(Range(n1, n2), symbol);
    var a := FormatSingleAmount(n1, symbol);
    var b := FormatSingleAmount(n2, symbol);
    assert t[..|a|] == a && t[|a|..|a| + 3] == " - " && t[|a| + 3..] == b by {
      assert t == a + " - " + b;
    }
    FormatRoundTrip(n1, symbol);
    FormatRoundTrip(n2, symbol);
  }
}
