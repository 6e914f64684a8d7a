/** `formatAmountDisplay` and `addDisplayFields` of src/utils/utils.js: every
    member whose key is a money field gains a sibling `<key>_display` holding
    the formatted amount, at every depth of a JSON tree. */
module DisplayFields {
  import opened Wrappers
  import opened Text
  import opened Json
  import opened MoneyFormat

  /** The keys whose values are amounts in cents. */
  const MONEY_FIELDS: seq<string> := [
    "amount", "balance", "spent", "budgeted", "available",
    "totalBudgeted", "totalSpent", "totalBalance", "totalIncome",
    "incomeAvailable", "lastMonthOverspent", "forNextMonth", "toBudget",
    "fromLastMonth",
    "total_budgeted", "total_spent", "total_available",
    "upcoming_total", "past_due_total", "paid_total", "paid_amount",
    "payment_made", "total_payment_made", "remaining_debt", "total_remaining_debt"
  ]

  /** `MONEY_FIELDS.includes(k)`. */
  predicate IsMoneyField(k: string) {
    k in MONEY_FIELDS
  }

  const SUFFIX: string := "_display"

  function DisplayKey(k: string): string {
    k + SUFFIX
  }

  predicate IsDisplayKey(k: string) {
    |k| >= |SUFFIX| && k[|k| - |SUFFIX|..] == SUFFIX
  }

  /** The key a display key was made from. */
  function BaseKey(k: string): string
    requires IsDisplayKey(k)
  {
    k[..|k| - |SUFFIX|]
  }

  lemma BaseOfDisplayKey(k: string)
    ensures IsDisplayKey(DisplayKey(k)) && BaseKey(DisplayKey(k)) == k
  {
    assert DisplayKey(k)[|k|..] == SUFFIX;
  }

  lemma DisplayKeyOfBase(k: string)
    requires IsDisplayKey(k)
    ensures DisplayKey(BaseKey(k)) == k
  {
  }

  /** No money field is itself a display key (none ends in 'y'), so display
      keys are never annotated again. */
  lemma MoneyFieldNotDisplayKey(k: string)
    requires IsMoneyField(k)
    ensures !IsDisplayKey(k)
  {
    assert forall i :: 0 <= i < |MONEY_FIELDS| ==> MONEY_FIELDS[i][|MONEY_FIELDS[i]| - 1] != 'y';
  }

  // ---------------------------------------------------------------------------
  // formatAmountDisplay
  // ---------------------------------------------------------------------------

  /** An object whose `num1` and `num2` members are both defined, whatever
      their values (`amount.num1 !== undefined && amount.num2 !== undefined`). */
  predicate IsRangeObject(v: Json) {
    v.JObj? && Lookup(v.members, "num1").Some? && Lookup(v.members, "num2").Some?
  }

  /** `Number(s)` on the strings the model reads: the empty string is 0, an
      optional sign followed by decimal digits is that integer, and every
      other string is `NaN` (`None`). */
  function StringToNumber(s: string): Option<int> {
    if s == [] then Some(0)
    else if AllDigits(s) then Some(DigitsValue(s))
    else if |s| > 1 && s[0] == '-' && AllDigits(s[1..]) then Some(0 - DigitsValue(s[1..]))
    else if |s| > 1 && s[0] == '+' && AllDigits(s[1..]) then Some(DigitsValue(s[1..]))
    else None
  }

  /** The number `formatSingleAmount` works with when handed a range end:
      `Math.abs` and `< 0` coerce `null` to 0, booleans to 0 and 1, strings
      by `Number`, an array through the string its items join to, and a
      plain object to `NaN` (`None`). */
  function ToNumber(v: Json): Option<int>
    decreases v
  {
    match v
    case JNull => Some(0)
    case JBool(b) => Some(if b then 1 else 0)
    case JNum(n) => Some(n)
    case JStr(s) => StringToNumber(s)
    case JArr(xs) =>
      if xs == [] then Some(0)
      // `String([true])` is "true", which is `NaN`; every other single item
      // joins to a string that reads back as the item's own number
      else if |xs| == 1 && !xs[0].JBool? then ToNumber(xs[0])
      else None
    case JObj(_) => None
  }

  lemma NegativeNumeral(d: string)
    requires d != [] && AllDigits(d)
    ensures StringToNumber("-" + d) == Some(0 - DigitsValue(d))
  {
    var t := "-" + d;
    assert t[1..] == d;
    assert !AllDigits(t) by { assert !IsDigit(t[0]); }
  }

  /** A number written by `String(i)` reads back as `i`. */
  lemma NumberOfString(i: int)
    ensures ToNumber(JStr(IntToString(i))) == Some(i)
  {
    if i < 0 {
      var d := DigitsOf(-i);
      assert IntToString(i) == "-" + d;
      DigitsValueOfDigitsOf(-i);
      NegativeNumeral(d);
    } else {
      DigitsValueOfDigitsOf(i);
    }
  }

  /** `formatSingleAmount(x, symbol)` on a coerced number: `NaN` is not
      negative and `NaN.toFixed(2)` is "NaN", which gains no comma. */
  function FormatCoerced(x: Option<int>, symbol: string): (r: string)
    ensures x.None? ==> r == symbol + "NaN"
  {
    match x
    case Some(c) => FormatSingleAmount(c, symbol)
    case None => NaNText(symbol)
  }

  function NaNText(symbol: string): (r: string)
    ensures r == symbol + "NaN"
  {
    var t := "NaN";
    assert DigitRun(t, 2) == 0 && DigitRun(t, 1) == 0;
    assert InsertSeparators(t, 3) == [];
    assert InsertSeparators(t, 2) == "N";
    assert InsertSeparators(t, 1) == "aN";
    symbol + ReplaceThousands(t)
  }

  /** `formatAmountDisplay(value, symbol)`: `None` stands for `null`. A
      number is formatted with its sign; a range object shows both coerced
      ends, in given order, around " - "; anything else is `null`. */
  function FormatAmountDisplay(v: Json, symbol: string): (r: Option<string>)
    ensures r.Some? <==> v.JNum? || IsRangeObject(v)
    ensures v.JNum? ==> r == Some(FormatSingleAmount(v.n, symbol))
    ensures IsRangeObject(v) ==>
              r == Some(FormatCoerced(ToNumber(Lookup(v.members, "num1").value), symbol) + " - "
                        + FormatCoerced(ToNumber(Lookup(v.members, "num2").value), symbol))
    ensures IsRangeObject(v) && Lookup(v.members, "num1").value.JNum? && Lookup(v.members, "num2").value.JNum? ==>
              r == Some(FormatAmount(Range(Lookup(v.members, "num1").value.n, Lookup(v.members, "num2").value.n), symbol))
  {
    if IsRangeObject(v) then
      Some(FormatCoerced(ToNumber(Lookup(v.members, "num1").value), symbol) + " - "
           + FormatCoerced(ToNumber(Lookup(v.members, "num2").value), symbol))
    else if v.JNum? then Some(FormatSingleAmount(v.n, symbol))
    else None
  }

  /** The example the coercion exists for: a `null` lower end shows as zero,
      a string end that is not a number as "NaN", and `true` as one cent. */
  lemma CoercedRangeEnds(symbol: string)
    ensures FormatAmountDisplay(JObj([Member("num1", JNull), Member("num2", JNum(5))]), symbol)
            == Some(FormatSingleAmount(0, symbol) + " - " + FormatSingleAmount(5, symbol))
    ensures FormatAmountDisplay(JObj([Member("num1", JStr("x")), Member("num2", JBool(true))]), symbol)
            == Some(symbol + "NaN - " + FormatSingleAmount(1, symbol))
  {
    var u := [Member("num1", JNull), Member("num2", JNum(5))];
    assert Lookup(u, "num1") == Some(JNull) by { LookupAt(u, 0); }
    assert Lookup(u, "num2") == Some(JNum(5)) by { LookupAt(u, 1); }
    var v := [Member("num1", JStr("x")), Member("num2", JBool(true))];
    assert Lookup(v, "num1") == Some(JStr("x")) by { LookupAt(v, 0); }
    assert Lookup(v, "num2") == Some(JBool(true)) by { LookupAt(v, 1); }
    assert ToNumber(JStr("x")) == None by {
      assert !AllDigits("x") by { assert !IsDigit("x"[0]); }
    }
    assert symbol + "NaN" + " - " == symbol + "NaN - ";
  }

  // ---------------------------------------------------------------------------
  // The annotated tree, stated declaratively
  // ---------------------------------------------------------------------------

  /** The string an existing member `k` of `ms` ends up holding because it is
      the display key of a money field of `ms` whose value formats. */
  function DisplayFor(ms: seq<Member>, k: string, symbol: string): Option<string> {
    if IsDisplayKey(k) && IsMoneyField(BaseKey(k)) then
      match Lookup(ms, BaseKey(k))
      case Some(v) => FormatAmountDisplay(v, symbol)
      case None => None
    else None
  }

  /** The member appended for money field `m` when its display key is new. */
  function NewDisplay(m: Member, all: seq<Member>, symbol: string): seq<Member> {
    if IsMoneyField(m.key) && FormatAmountDisplay(m.val, symbol).Some? && DisplayKey(m.key) !in Keys(all)
    then [Member(DisplayKey(m.key), JStr(FormatAmountDisplay(m.val, symbol).value))]
    else []
  }

  /** The display members appended after the original ones, in the order of
      their money fields. */
  function Appended(ms: seq<Member>, all: seq<Member>, symbol: string): seq<Member>
    decreases |ms|
  {
    if ms == [] then []
    else Appended(ms[..|ms| - 1], all, symbol) + NewDisplay(ms[|ms| - 1], all, symbol)
  }

  /** The value `addDisplayFields` returns: arrays element by element; objects
      keep every member in place (a display key of a formattable money field
      holds the formatted string, every other value is annotated in turn) and
      gain the display members that were missing; other values are unchanged. */
  function Annotate(v: Json, symbol: string): Json
    decreases v, 2
  {
    match v
    case JArr(xs) => JArr(AnnotatedItems(xs, |xs|, symbol))
    case JObj(ms) => JObj(AnnotatedMembers(ms, |ms|, symbol) + Appended(ms, ms, symbol))
    case _ => v
  }

  /** The first `n` items of an annotated array. */
  function AnnotatedItems(xs: seq<Json>, n: nat, symbol: string): (r: seq<Json>)
    requires n <= |xs|
    ensures |r| == n
    decreases JArr(xs), 1, n
  {
    if n == 0 then [] else AnnotatedItems(xs, n - 1, symbol) + [Annotate(xs[n - 1], symbol)]
  }

  /** The first `n` original members of an annotated object, each in its place. */
  function AnnotatedMembers(ms: seq<Member>, n: nat, symbol: string): (r: seq<Member>)
    requires n <= |ms|
    ensures |r| == n
    decreases JObj(ms), 1, n
  {
    if n == 0 then []
    else AnnotatedMembers(ms, n - 1, symbol) + [Member(ms[n - 1].key, AnnotatedValue(ms, n - 1, symbol))]
  }

  function AnnotatedValue(ms: seq<Member>, i: nat, symbol: string): Json
    requires i < |ms|
    decreases JObj(ms), 0
  {
    match DisplayFor(ms, ms[i].key, symbol)
    case Some(d) => JStr(d)
    case None => Annotate(ms[i].val, symbol)
  }

  lemma {:induction false} AnnotatedItemsAt(xs: seq<Json>, n: nat, symbol: string, i: nat)
    requires i < n <= |xs|
    ensures AnnotatedItems(xs, n, symbol)[i] == Annotate(xs[i], symbol)
    decreases n
  {
    if i < n - 1 {
      AnnotatedItemsAt(xs, n - 1, symbol, i);
    }
  }

  lemma {:induction false} AnnotatedMembersAt(ms: seq<Member>, n: nat, symbol: string, i: nat)
    requires i < n <= |ms|
    ensures AnnotatedMembers(ms, n, symbol)[i] == Member(ms[i].key, AnnotatedValue(ms, i, symbol))
    decreases n
  {
    if i < n - 1 {
      AnnotatedMembersAt(ms, n - 1, symbol, i);
    }
  }
}

module DisplayFieldsLoop {
  import opened Wrappers
  import opened Json
  import opened MoneyFormat
  import opened DisplayFields

  // ---------------------------------------------------------------------------
  // The state of the loop in addDisplayFields
  // ---------------------------------------------------------------------------

  /** The value of member `j` once the money fields among the first `d` keys
      have written their display keys and the first `a` keys have been
      annotated recursively. */
  function StageValue(ms: seq<Member>, d: nat, a: nat, j: nat, symbol: string): Json
    requires a <= d <= |ms| && j < |ms|
  {
    match DisplayFor(ms[..d], ms[j].key, symbol)
    case Some(s) => JStr(s)
    case None => if j < a then Annotate(ms[j].val, symbol) else ms[j].val
  }

  function StageMembers(ms: seq<Member>, d: nat, a: nat, symbol: string): (r: seq<Member>)
    requires a <= d <= |ms|
    ensures |r| == |ms|
    ensures Keys(r) == Keys(ms)
  {
    seq(|ms|, j requires 0 <= j < |ms| => Member(ms[j].key, StageValue(ms, d, a, j, symbol)))
  }

  /** The object under construction after that stage. */
  function Stage(ms: seq<Member>, d: nat, a: nat, symbol: string): seq<Member>
    requires a <= d <= |ms|
  {
    StageMembers(ms, d, a, symbol) + Appended(ms[..d], ms, symbol)
  }

  lemma StageStart(ms: seq<Member>, symbol: string)
    ensures Stage(ms, 0, 0, symbol) == ms
  {
    assert ms[..0] == [];
    forall j | 0 <= j < |ms|
      ensures StageMembers(ms, 0, 0, symbol)[j] == ms[j]
    {
      assert DisplayFor([], ms[j].key, symbol) == None;
    }
  }

  lemma StageDone(ms: seq<Member>, symbol: string)
    ensures JObj(Stage(ms, |ms|, |ms|, symbol)) == Annotate(JObj(ms), symbol)
  {
    assert ms[..|ms|] == ms;
    forall j | 0 <= j < |ms|
      ensures StageMembers(ms, |ms|, |ms|, symbol)[j] == AnnotatedMembers(ms, |ms|, symbol)[j]
    {
      AnnotatedMembersAt(ms, |ms|, symbol, j);
    }
    assert StageMembers(ms, |ms|, |ms|, symbol) == AnnotatedMembers(ms, |ms|, symbol);
  }

  /** Display members are appended only for money fields of `ms` and only
      under keys `all` does not already have. */
  lemma {:induction false} AppendedKeys(ms: seq<Member>, all: seq<Member>, symbol: string)
    ensures forall p :: 0 <= p < |Appended(ms, all, symbol)| ==>
              var k := Appended(ms, all, symbol)[p].key;
              IsDisplayKey(k) && BaseKey(k) in Keys(ms) && IsMoneyField(BaseKey(k)) && k !in Keys(all)
    decreases |ms|
  {
    if ms != [] {
      var init := ms[..|ms| - 1];
      AppendedKeys(init, all, symbol);
      BaseOfDisplayKey(ms[|ms| - 1].key);
      assert forall k :: k in Keys(init) ==> k in Keys(ms);
    }
  }

  /** Taking one more key into account changes the display of exactly one key. */
  lemma DisplayForPrefixStep(ms: seq<Member>, i: nat, k: string, symbol: string)
    requires DistinctKeys(ms) && i < |ms|
    ensures DisplayFor(ms[..i + 1], k, symbol)
         == if k == DisplayKey(ms[i].key) && IsMoneyField(ms[i].key)
            then FormatAmountDisplay(ms[i].val, symbol)
            else DisplayFor(ms[..i], k, symbol)
  {
    var key := ms[i].key;
    BaseOfDisplayKey(key);
    assert ms[..i + 1] == ms[..i] + [ms[i]];
    if IsDisplayKey(k) && IsMoneyField(BaseKey(k)) {
      var b := BaseKey(k);
      if b == key {
        assert b !in Keys(ms[..i]);
        LookupAppendRight(ms[..i], [ms[i]], b);
      } else if b in Keys(ms[..i]) {
        LookupAppendLeft(ms[..i], [ms[i]], b);
      } else {
        LookupAppendRight(ms[..i], [ms[i]], b);
      }
    }
  }

  /** Step `i` never writes the display of its own key. */
  lemma DisplayForOwnKey(ms: seq<Member>, i: nat, symbol: string)
    requires DistinctKeys(ms) && i < |ms|
    ensures DisplayFor(ms[..i + 1], ms[i].key, symbol) == DisplayFor(ms[..i], ms[i].key, symbol)
  {
    DisplayForPrefixStep(ms, i, ms[i].key, symbol);
    assert |DisplayKey(ms[i].key)| > |ms[i].key|;
  }

  /** Reading `result[key]` for the key of step `i` sees that member's current value. */
  lemma LookupStage(ms: seq<Member>, d: nat, a: nat, i: nat, symbol: string)
    requires DistinctKeys(ms) && a <= d <= |ms| && i < |ms|
    ensures Lookup(Stage(ms, d, a, symbol), ms[i].key) == Some(StageValue(ms, d, a, i, symbol))
  {
    var f := StageMembers(ms, d, a, symbol);
    assert ms[i].key in Keys(f);
    LookupAppendLeft(f, Appended(ms[..d], ms, symbol), ms[i].key);
    LookupAt(f, i);
  }

  /** A key that is not a formattable money field writes no display member. */
  lemma StageDisplaySkip(ms: seq<Member>, i: nat, symbol: string)
    requires DistinctKeys(ms) && i < |ms|
    requires !(IsMoneyField(ms[i].key) && FormatAmountDisplay(ms[i].val, symbol).Some?)
    ensures Stage(ms, i, i, symbol) == Stage(ms, i + 1, i, symbol)
  {
    var key := ms[i].key;
    assert ms[..i + 1][..i] == ms[..i];
    assert NewDisplay(ms[i], ms, symbol) == [];
    forall j | 0 <= j < |ms|
      ensures StageValue(ms, i, i, j, symbol) == StageValue(ms, i + 1, i, j, symbol)
    {
      DisplayForPrefixStep(ms, i, ms[j].key, symbol);
      if ms[j].key == DisplayKey(key) && IsMoneyField(key) {
        BaseOfDisplayKey(key);
        assert key !in Keys(ms[..i]);
      }
    }
    assert StageMembers(ms, i, i, symbol) == StageMembers(ms, i + 1, i, symbol);
  }

  lemma AppendedStep(ms: seq<Member>, all: seq<Member>, i: nat, symbol: string)
    requires i < |ms|
    ensures Appended(ms[..i + 1], all, symbol) == Appended(ms[..i], all, symbol) + NewDisplay(ms[i], all, symbol)
  {
    assert ms[..i + 1][..i] == ms[..i];
  }

  /** A formattable money field writes its display key: in place when the
      object has that key, at the end otherwise. */
  lemma StageDisplayPut(ms: seq<Member>, i: nat, symbol: string)
    requires DistinctKeys(ms) && i < |ms|
    requires IsMoneyField(ms[i].key) && FormatAmountDisplay(ms[i].val, symbol).Some?
    ensures Put(Stage(ms, i, i, symbol), DisplayKey(ms[i].key), JStr(FormatAmountDisplay(ms[i].val, symbol).value))
         == Stage(ms, i + 1, i, symbol)
  {
    AppendedStep(ms, ms, i, symbol);
    if DisplayKey(ms[i].key) in Keys(ms) {
      StageDisplayInPlace(ms, i, symbol);
    } else {
      StageDisplayAppend(ms, i, symbol);
    }
  }

  lemma StageMembersDisplayStep(ms: seq<Member>, i: nat, symbol: string, j: nat)
    requires DistinctKeys(ms) && i < |ms| && j < |ms|
    requires IsMoneyField(ms[i].key)
    ensures StageMembers(ms, i + 1, i, symbol)[j]
         == if ms[j].key == DisplayKey(ms[i].key) && FormatAmountDisplay(ms[i].val, symbol).Some?
            then Member(ms[j].key, JStr(FormatAmountDisplay(ms[i].val, symbol).value))
            else StageMembers(ms, i, i, symbol)[j]
  {
    DisplayForPrefixStep(ms, i, ms[j].key, symbol);
    if ms[j].key == DisplayKey(ms[i].key) {
      BaseOfDisplayKey(ms[i].key);
      assert ms[i].key !in Keys(ms[..i]);
    }
  }

  lemma StageDisplayInPlace(ms: seq<Member>, i: nat, symbol: string)
    requires DistinctKeys(ms) && i < |ms|
    requires IsMoneyField(ms[i].key) && FormatAmountDisplay(ms[i].val, symbol).Some?
    requires DisplayKey(ms[i].key) in Keys(ms)
    ensures Put(Stage(ms, i, i, symbol), DisplayKey(ms[i].key), JStr(FormatAmountDisplay(ms[i].val, symbol).value))
         == StageMembers(ms, i + 1, i, symbol) + Appended(ms[..i], ms, symbol)
  {
    var dk := DisplayKey(ms[i].key);
    var m := Member(dk, JStr(FormatAmountDisplay(ms[i].val, symbol).value));
    var f := StageMembers(ms, i, i, symbol);
    var a := Appended(ms[..i], ms, symbol);
    var g := StageMembers(ms, i + 1, i, symbol);
    var q := FirstIndex(ms, dk);
    assert Put(f + a, dk, m.val) == (f + a)[q := m] by {
      FirstIndexSameKeys(f, ms, dk);
      FirstIndexAppendLeft(f, a, dk);
    }
    assert g == f[q := m] by {
      forall j | 0 <= j < |ms|
        ensures g[j] == f[q := m][j]
      {
        StageMembersDisplayStep(ms, i, symbol, j);
        if j == q {
          assert ms[j].key == dk;
        } else {
          assert ms[j].key != dk;
        }
      }
    }
    UpdateAppend(f, a, q, m);
  }

  lemma StageDisplayAppend(ms: seq<Member>, i: nat, symbol: string)
    requires DistinctKeys(ms) && i < |ms|
    requires IsMoneyField(ms[i].key) && FormatAmountDisplay(ms[i].val, symbol).Some?
    requires DisplayKey(ms[i].key) !in Keys(ms)
    ensures Put(Stage(ms, i, i, symbol), DisplayKey(ms[i].key), JStr(FormatAmountDisplay(ms[i].val, symbol).value))
         == StageMembers(ms, i + 1, i, symbol) + Appended(ms[..i], ms, symbol) + NewDisplay(ms[i], ms, symbol)
  {
    var key := ms[i].key;
    var dk := DisplayKey(key);
    var f := StageMembers(ms, i, i, symbol);
    var a := Appended(ms[..i], ms, symbol);
    var g := StageMembers(ms, i + 1, i, symbol);
    BaseOfDisplayKey(key);
    AppendedKeys(ms[..i], ms, symbol);
    assert key !in Keys(ms[..i]);
    assert dk !in Keys(a);
    assert dk !in Keys(f + a);
    forall j | 0 <= j < |ms|
      ensures g[j] == f[j]
    {
      StageMembersDisplayStep(ms, i, symbol, j);
    }
    assert g == f;
  }
  /** Step `i` annotates the value it read, unless that value is a display
      string written earlier or a primitive, which annotation leaves alone. */
  lemma StageRecurse(ms: seq<Member>, i: nat, symbol: string)
    requires DistinctKeys(ms) && i < |ms|
    ensures var value := StageValue(ms, i + 1, i, i, symbol);
            && ((value.JObj? || value.JArr?) ==>
                  Put(Stage(ms, i + 1, i, symbol), ms[i].key, Annotate(value, symbol)) == Stage(ms, i + 1, i + 1, symbol))
            && (!(value.JObj? || value.JArr?) ==> Stage(ms, i + 1, i, symbol) == Stage(ms, i + 1, i + 1, symbol))
  {
    var value := StageValue(ms, i + 1, i, i, symbol);
    StageMembersStep(ms, i, symbol);
    if value.JObj? || value.JArr? {
      StageRecurseNested(ms, i, symbol);
    } else {
      var f := StageMembers(ms, i + 1, i, symbol);
      var g := StageMembers(ms, i + 1, i + 1, symbol);
      assert f == g;
    }
  }

  /** Annotating member `i` changes that member of the staged members and
      no other. */
  lemma StageMembersStep(ms: seq<Member>, i: nat, symbol: string)
    requires i < |ms|
    ensures var f := StageMembers(ms, i + 1, i, symbol);
            var g := StageMembers(ms, i + 1, i + 1, symbol);
            var value := StageValue(ms, i + 1, i, i, symbol);
            && (forall j :: 0 <= j < |ms| && j != i ==> f[j] == g[j])
            && ((value.JObj? || value.JArr?) ==> g[i] == Member(ms[i].key, Annotate(value, symbol)))
            && (!(value.JObj? || value.JArr?) ==> g[i] == f[i])
  {
  }

  lemma StageRecurseNested(ms: seq<Member>, i: nat, symbol: string)
    requires DistinctKeys(ms) && i < |ms|
    requires var f := StageMembers(ms, i + 1, i, symbol);
             var g := StageMembers(ms, i + 1, i + 1, symbol);
             && (forall j :: 0 <= j < |ms| && j != i ==> f[j] == g[j])
             && g[i] == Member(ms[i].key, Annotate(StageValue(ms, i + 1, i, i, symbol), symbol))
    ensures Put(Stage(ms, i + 1, i, symbol), ms[i].key, Annotate(StageValue(ms, i + 1, i, i, symbol), symbol))
            == Stage(ms, i + 1, i + 1, symbol)
  {
    var f := StageMembers(ms, i + 1, i, symbol);
    var g := StageMembers(ms, i + 1, i + 1, symbol);
    var a := Appended(ms[..i + 1], ms, symbol);
    var m := g[i];
    assert ms[i].key in Keys(f);
    FirstIndexAppendLeft(f, a, ms[i].key);
    LookupAt(f, i);
    assert Put(f + a, ms[i].key, m.val) == (f + a)[i := m];
    UpdateAppend(f, a, i, m);
    assert f[i := m] == g;
  }


  // ---------------------------------------------------------------------------
  // addDisplayFields
  // ---------------------------------------------------------------------------

  /** `addDisplayFields(data, symbol)`: arrays are mapped, objects are copied
      and then filled key by key over a snapshot of their keys, other values
      are returned as they are. */
  method AddDisplayFields(data: Json, symbol: string) returns (r: Json)
    requires WellFormed(data)
    ensures r == Annotate(data, symbol)
    decreases data
  {
    match data {
      case JArr(xs) =>
        var out: seq<Json> := [];
        for i := 0 to |xs|
          invariant out == AnnotatedItems(xs, i, symbol)
        {
          var item := AddDisplayFields(xs[i], symbol);
          out := out + [item];
        }
        r := JArr(out);
      case JObj(ms) =>
        var result := ms;
        var keys := Keys(ms);
        StageStart(ms, symbol);
        for i := 0 to |keys|
          invariant result == Stage(ms, i, i, symbol)
        {
          var key := keys[i];
          LookupStage(ms, i, i, i, symbol);
          var value := Lookup(result, key).value;
          DisplayForOwnKey(ms, i, symbol);
          if IsMoneyField(key) {
            MoneyFieldNotDisplayKey(key);
            var display := FormatAmountDisplay(value, symbol);
            if display.Some? {
              StageDisplayPut(ms, i, symbol);
              result := Put(result, DisplayKey(key), JStr(display.value));
            } else {
              StageDisplaySkip(ms, i, symbol);
            }
          } else {
            StageDisplaySkip(ms, i, symbol);
          }
          StageRecurse(ms, i, symbol);
          if value.JObj? || value.JArr? {
            var annotated := AddDisplayFields(value, symbol);
            result := Put(result, key, annotated);
          }
        }
        StageDone(ms, symbol);
        r := JObj(result);
      case _ =>
        r := data;
    }
  }
}
