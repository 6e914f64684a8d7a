/** The amount helpers at the end of src/v1/routes/ai.js: bills are shown
    without a sign, transactions with one, and a schedule's amount becomes a
    fixed, approximate or range bill amount. */
module BillFormat {
  import opened Wrappers
  import opened Text
  import opened MoneyFormat

  /** `formatBillAmount(cents, symbol)`. `None` stands for a value that is
      not a number (`undefined`, or a range object), whose `Math.abs` is
      `NaN` and whose `toFixed(2)` is the string "NaN". */
  function FormatBillAmount(cents: Option<int>, symbol: string): string {
    var fixed := match cents
      case Some(c) => ToFixed2(Abs(c))
      case None => "NaN";
    symbol + ReplaceThousands(fixed)
  }

  /** A bill amount never shows a sign: it is the formatted absolute value,
      the same for `c` and `-c`, and reads back as `|c|`. */
  lemma BillAmountUnsigned(c: int, symbol: string)
    requires symbol == [] || symbol[0] != '-'
    ensures FormatBillAmount(Some(c), symbol) == FormatSingleAmount(Abs(c), symbol)
    ensures FormatBillAmount(Some(c), symbol) == FormatBillAmount(Some(-c), symbol)
    ensures var t := FormatBillAmount(Some(c), symbol); |t| > 0 && t[0] != '-'
    ensures ParseAmount(FormatBillAmount(Some(c), symbol), symbol) == Some(Abs(c))
  {
    assert Abs(c) == Abs(-c);
    assert Abs(Abs(c)) == Abs(c);
    FormatSign(Abs(c), symbol);
    FormatRoundTrip(Abs(c), symbol);
  }

  /** A value that is not a number shows as the symbol followed by "NaN". */
  lemma BillAmountNaN(symbol: string)
    ensures FormatBillAmount(None, symbol) == symbol + "NaN"
  {
    var t := "NaN";
    assert DigitRun(t, 2) == 0;
    assert DigitRun(t, 1) == 0;
    assert InsertSeparators(t, 3) == [];
    assert InsertSeparators(t, 2) == "N";
    assert InsertSeparators(t, 1) == "aN";
  }

  /** `formatTransactionAmount(cents, symbol)`: `None` for `null` and
      `undefined`, otherwise a signed amount. */
  function FormatTransactionAmount(cents: Option<int>, symbol: string): (r: Option<string>)
    ensures r.Some? <==> cents.Some?
  {
    match cents
    case None => None
    case Some(c) =>
      var formatted := ReplaceThousands(ToFixed2(Abs(c)));
      Some(if c < 0 then "-" + symbol + formatted else symbol + formatted)
  }

  /** `formatTransactionAmount(cents, symbol)` on a number. */
  function Signed(cents: int, symbol: string): string {
    FormatTransactionAmount(Some(cents), symbol).value
  }

  /** The transaction formatter writes exactly what the shared formatter of
      src/utils/utils.js writes, so its strings read back as the cents. */
  lemma TransactionAmountShared(c: int, symbol: string)
    requires symbol == [] || symbol[0] != '-'
    ensures FormatTransactionAmount(Some(c), symbol) == Some(FormatSingleAmount(c, symbol))
    ensures ParseAmount(FormatTransactionAmount(Some(c), symbol).value, symbol) == Some(c)
  {
    FormatRoundTrip(c, symbol);
  }

  // ---------------------------------------------------------------------------
  // transformAmount and getAmountValue
  // ---------------------------------------------------------------------------

  /** The amount fields `transformAmount` spreads into a bill. */
  datatype BillAmount =
    | RangeBill(low: int, high: int, display: string)
    | Approximate(amount: Option<Amount>, display: string)
    | Fixed(amount: Option<Amount>, display: string)

  /** `schedule.amountOp || 'is'`. */
  function AmountOp(op: Option<string>): (r: string)
    ensures r != ""
  {
    if op.Some? && op.value != "" then op.value else "is"
  }

  /** The amount as `Math.abs` sees it: a number, or `NaN` (`None`). */
  function AsNumber(amount: Option<Amount>): Option<int> {
    if amount.Some? && amount.value.Scalar? then Some(amount.value.cents) else None
  }

  /** `transformAmount(schedule, symbol)` on `schedule.amountOp` and
      `schedule.amount` (`None` when absent). */
  function TransformAmount(op: Option<string>, amount: Option<Amount>, symbol: string): (r: BillAmount)
    ensures r.RangeBill? <==> AmountOp(op) == "isbetween" && amount.Some? && amount.value.Range?
    ensures r.Approximate? <==> AmountOp(op) == "isapprox"
    ensures r.RangeBill? ==> r.low == amount.value.num1 && r.high == amount.value.num2
    ensures !r.RangeBill? ==> r.amount == amount
  {
    var kind := AmountOp(op);
    if kind == "isbetween" && amount.Some? && amount.value.Range? then
      RangeBill(amount.value.num1, amount.value.num2,
                FormatBillAmount(Some(amount.value.num1), symbol) + " to "
                + FormatBillAmount(Some(amount.value.num2), symbol))
    else if kind == "isapprox" then
      Approximate(amount, "~" + FormatBillAmount(AsNumber(amount), symbol))
    else
      Fixed(amount, FormatBillAmount(AsNumber(amount), symbol))
  }

  /** A missing or empty operator is the operator 'is'. */
  lemma TransformDefaultOp(amount: Option<Amount>, symbol: string)
    ensures TransformAmount(None, amount, symbol) == TransformAmount(Some("is"), amount, symbol)
    ensures TransformAmount(Some(""), amount, symbol) == TransformAmount(Some("is"), amount, symbol)
    ensures TransformAmount(None, amount, symbol).Fixed?
  {
  }

  /** A range display names both ends, unsigned, joined by " to ". */
  lemma RangeDisplay(n1: int, n2: int, symbol: string)
    requires symbol == [] || symbol[0] != '-'
    ensures var r := TransformAmount(Some("isbetween"), Some(Range(n1, n2)), symbol);
            var a := FormatBillAmount(Some(n1), symbol);
            var b := FormatBillAmount(Some(n2), symbol);
            && r.RangeBill?
            && r.display == a + " to " + b
            && ParseAmount(a, symbol) == Some(Abs(n1))
            && ParseAmount(b, symbol) == Some(Abs(n2))
  {
    var r := TransformAmount(Some("isbetween"), Some(Range(n1, n2)), symbol);
    assert r.RangeBill? && r.display == FormatBillAmount(Some(n1), symbol) + " to " + FormatBillAmount(Some(n2), symbol) by {
      assert AmountOp(Some("isbetween")) == "isbetween";
    }
    BillAmountReads(n1, symbol);
    BillAmountReads(n2, symbol);
  }

  lemma BillAmountReads(c: int, symbol: string)
    requires symbol == [] || symbol[0] != '-'
    ensures ParseAmount(FormatBillAmount(Some(c), symbol), symbol) == Some(Abs(c))
  {
    BillAmountUnsigned(c, symbol);
  }

  /** A scalar amount shows unsigned, after a "~" when approximate. */
  lemma ScalarDisplay(op: Option<string>, c: int, symbol: string)
    requires symbol == [] || symbol[0] != '-'
    ensures var r := TransformAmount(op, Some(Scalar(c)), symbol);
            && (r.Approximate? ==> |r.display| > 0 && r.display[0] == '~'
                                   && ParseAmount(r.display[1..], symbol) == Some(Abs(c)))
            && (r.Fixed? ==> ParseAmount(r.display, symbol) == Some(Abs(c)))
  {
    var t := FormatBillAmount(Some(c), symbol);
    var r := TransformAmount(op, Some(Scalar(c)), symbol);
    assert r.Approximate? ==> r.display == "~" + t;
    assert r.Fixed? ==> r.display == t;
    assert ParseAmount(t, symbol) == Some(Abs(c)) by {
      BillAmountReads(c, symbol);
    }
    assert ("~" + t)[1..] == t;
  }

  /** `getAmountValue(bill)`: the lower end of a range, the amount when it is
      a number, and 0 otherwise. */
  function GetAmountValue(b: BillAmount): (v: int)
    ensures b.RangeBill? ==> v == b.low
  {
    match b
    case RangeBill(low, _, _) => low
    case Approximate(a, _) => if AsNumber(a).Some? then AsNumber(a).value else 0
    case Fixed(a, _) => if AsNumber(a).Some? then AsNumber(a).value else 0
  }

  /** The value a bill adds to a total: the scalar amount whatever the
      operator, the lower end of a range under 'isbetween', and nothing for a
      range under any other operator or for an absent amount. */
  lemma AmountValueOfTransform(op: Option<string>, amount: Option<Amount>, symbol: string)
    ensures amount.Some? && amount.value.Scalar? ==>
              GetAmountValue(TransformAmount(op, amount, symbol)) == amount.value.cents
    ensures amount.Some? && amount.value.Range? ==>
              GetAmountValue(TransformAmount(op, amount, symbol))
              == (if AmountOp(op) == "isbetween" then amount.value.num1 else 0)
    ensures amount.None? ==> GetAmountValue(TransformAmount(op, amount, symbol)) == 0
  {
  }
}
