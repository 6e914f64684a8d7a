/** `validateAmountFields` and `stripAmountMajor` of src/utils/utils.js: a
    request carries an amount twice, as integer cents (`amount`) and in major
    units (`amount_major`); both must be present and agree after rounding,
    and `amount_major` is removed before the data goes further. */
module AmountValidation {
  import opened Wrappers
  import opened Text
  import opened Json

  /** JavaScript `Math.round`: the nearest integer, halves rounded up (toward
      positive infinity, so `Math.round(-2.5) == -2`). */
  function Round(x: real): (r: int)
    ensures r as real - 0.5 <= x < r as real + 0.5
  {
    (x + 0.5).Floor
  }

  /** `Math.round` returns exactly the integers within half a unit below and
      strictly less than half a unit above. */
  lemma RoundCharacterization(x: real, c: int)
    ensures Round(x) == c <==> c as real - 0.5 <= x < c as real + 0.5
  {
    if c as real - 0.5 <= x < c as real + 0.5 {
      assert c as real <= x + 0.5 < c as real + 1.0;
    }
  }

  /** Multiplying both sides by a positive number keeps an inequality. */
  lemma ScaleMono(x: real, y: real, b: real)
    requires b > 0.0
    ensures x <= y ==> x * b <= y * b
    ensures x < y ==> x * b < y * b
  {
  }

  /** The value of `amount`: cents, or an object that may hold `num1`/`num2`. */
  datatype CentsValue = Cents(cents: int) | CentsObject(num1: Option<int>, num2: Option<int>)

  /** The value of `amount_major`: a number of major units, or an object. */
  datatype MajorValue = Major(major: real) | MajorObject(mnum1: Option<real>, mnum2: Option<real>)

  datatype ValidationError =
    | MissingPartner
    | RangeMajorExpected
    | RangeMismatch
    | AmountMismatch

  /** The fixed part of each error message, after the field name. */
  function Message(e: ValidationError, fieldName: string): (msg: string)
    ensures IsPrefix(fieldName, msg)
  {
    match e
    case MissingPartner => fieldName + " must include both 'amount' (cents) and 'amount_major' (pesos) fields"
    case RangeMajorExpected => fieldName + " amount_major must be a range object when amount is a range"
    case RangeMismatch => fieldName + " amount mismatch: amount.num1"
    case AmountMismatch => fieldName + " amount mismatch: amount"
  }

  /** `amount` is a range: an object whose `num1` is defined. */
  predicate IsCentsRange(a: CentsValue) {
    a.CentsObject? && a.num1.Some?
  }

  /** `Math.round(x * 100)` where an absent or non-numeric `x` gives `NaN`,
      which no amount equals. */
  function ExpectedCents(m: Option<real>): Option<int> {
    match m
    case Some(x) => Some(Round(x * 100.0))
    case None => None
  }

  /** `amount.numK !== expected`, with `undefined` and `NaN` never equal. */
  predicate Agrees(c: Option<int>, expected: Option<int>) {
    c.Some? && expected.Some? && c.value == expected.value
  }

  /** `validateAmountFields(data, fieldName)`; `None` stands for an
      `undefined` field, and the error's message is `Message(e, fieldName)`. */
  function ValidateAmountFields(amount: Option<CentsValue>, major: Option<MajorValue>): (r: Result<(), ValidationError>)
    ensures r == Failure(MissingPartner) <==> amount.Some? != major.Some?
    ensures r == Failure(RangeMajorExpected) <==>
              amount.Some? && major.Some? && IsCentsRange(amount.value)
              && !(major.value.MajorObject? && major.value.mnum1.Some?)
  {
    if amount.None? && major.None? then Success(())
    else if amount.Some? && major.None? then Failure(MissingPartner)
    else if amount.None? && major.Some? then Failure(MissingPartner)
    else if IsCentsRange(amount.value) then
      if !(major.value.MajorObject? && major.value.mnum1.Some?) then Failure(RangeMajorExpected)
      else if !Agrees(amount.value.num1, ExpectedCents(major.value.mnum1))
           || !Agrees(amount.value.num2, ExpectedCents(major.value.mnum2))
      then Failure(RangeMismatch)
      else Success(())
    else
      match (amount.value, major.value)
      case (Cents(c), Major(m)) => if c == Round(m * 100.0) then Success(()) else Failure(AmountMismatch)
      case _ => Failure(AmountMismatch)
  }

  /** Scalar path: the pair validates exactly when `amount_major * 100` lies
      within half a cent of `amount` (the upper half excluded). */
  lemma ValidateScalar(c: int, m: real)
    ensures ValidateAmountFields(Some(Cents(c)), Some(Major(m))).Success?
        <==> c as real - 0.5 <= m * 100.0 < c as real + 0.5
  {
    RoundCharacterization(m * 100.0, c);
  }

  /** Every amount validates against its own exact value in major units. */
  lemma ValidateCanonical(c: int)
    ensures ValidateAmountFields(Some(Cents(c)), Some(Major(c as real / 100.0))) == Success(())
  {
    assert c as real / 100.0 * 100.0 == c as real;
    RoundCharacterization(c as real, c);
  }

  /** Range path: both bounds must be present and each must agree with its
      counterpart in major units. */
  lemma ValidateRange(c1: int, c2: Option<int>, m1: real, m2: Option<real>)
    ensures ValidateAmountFields(Some(CentsObject(Some(c1), c2)), Some(MajorObject(Some(m1), m2))).Success?
        <==> c1 == Round(m1 * 100.0) && c2.Some? && m2.Some? && c2.value == Round(m2.value * 100.0)
  {
  }

  /** The outcome only depends on which fields are present and on the
      rounding: a successful validation of a present pair always implies
      both amounts sit within half a cent of each other. */
  lemma ValidatePassBound(amount: Option<CentsValue>, major: Option<MajorValue>)
    requires ValidateAmountFields(amount, major).Success? && amount.Some?
    ensures major.Some?
    ensures amount.value.Cents? ==>
              && major.value.Major?
              && -0.5 < amount.value.cents as real - major.value.major * 100.0 <= 0.5
    ensures amount.value.CentsObject? ==>
              && major.value.MajorObject?
              && amount.value.num1.Some? && amount.value.num2.Some?
              && major.value.mnum1.Some? && major.value.mnum2.Some?
              && -0.5 < amount.value.num1.value as real - major.value.mnum1.value * 100.0 <= 0.5
              && -0.5 < amount.value.num2.value as real - major.value.mnum2.value * 100.0 <= 0.5
  {
  }

  // ---------------------------------------------------------------------------
  // stripAmountMajor
  // ---------------------------------------------------------------------------

  const MAJOR_KEY: string := "amount_major"

  /** The members other than those named `k`, in order. */
  function Without(ms: seq<Member>, k: string): (r: seq<Member>)
    ensures |r| <= |ms|
    ensures forall m :: m in r ==> m in ms && m.key != k
    ensures forall m :: m in ms && m.key != k ==> m in r
  {
    if ms == [] then []
    else (if ms[0].key == k then [] else [ms[0]]) + Without(ms[1..], k)
  }

  lemma {:induction false} LookupWithout(ms: seq<Member>, k: string, j: string)
    ensures Lookup(Without(ms, k), j) == if j == k then None else Lookup(ms, j)
    decreases |ms|
  {
    if ms != [] {
      var rest := Without(ms[1..], k);
      LookupWithout(ms[1..], k, j);
      if ms[0].key != k {
        assert Without(ms, k) == [ms[0]] + rest;
        if j != ms[0].key {
          LookupAppendRight([ms[0]], rest, j);
          LookupAppendRight([ms[0]], ms[1..], j);
          assert ms == [ms[0]] + ms[1..];
        }
      } else {
        assert Without(ms, k) == rest;
        if j != k {
          LookupAppendRight([ms[0]], ms[1..], j);
          assert ms == [ms[0]] + ms[1..];
        }
      }
    }
  }

  /** The members `{...array}` spreads out of an array: one per index, keyed
      by the index written in decimal. */
  function IndexMembers(xs: seq<Json>): seq<Member> {
    seq(|xs|, i requires 0 <= i < |xs| => Member(IntToString(i), xs[i]))
  }

  /** `stripAmountMajor(data)`: falsy and non-object values pass through;
      objects (and arrays, spread into index-keyed objects) lose their
      `amount_major` member. */
  function StripAmountMajor(v: Json): (r: Json)
  {
    match v
    case JObj(ms) => JObj(Without(ms, MAJOR_KEY))
    case JArr(xs) => JObj(Without(IndexMembers(xs), MAJOR_KEY))
    case _ => v
  }

  /** On an object exactly `amount_major` disappears: every other key reads
      the same value, and the member order is kept. */
  lemma StripObject(ms: seq<Member>, k: string)
    ensures var r := StripAmountMajor(JObj(ms));
            && r.JObj? && Lookup(r.members, MAJOR_KEY) == None
            && (k != MAJOR_KEY ==> Lookup(r.members, k) == Lookup(ms, k))
  {
    LookupWithout(ms, MAJOR_KEY, k);
    LookupWithout(ms, MAJOR_KEY, MAJOR_KEY);
  }

  /** An object without `amount_major` comes back unchanged. */
  lemma {:induction false} WithoutAbsent(ms: seq<Member>, k: string)
    requires k !in Keys(ms)
    ensures Without(ms, k) == ms
    decreases |ms|
  {
    if ms != [] {
      assert Keys(ms[1..]) == Keys(ms)[1..];
      WithoutAbsent(ms[1..], k);
      assert ms == [ms[0]] + ms[1..];
    }
  }

  lemma {:induction false} WithoutKeys(ms: seq<Member>, k: string)
    ensures k !in Keys(Without(ms, k))
  {
    var r := Without(ms, k);
    assert forall i :: 0 <= i < |r| ==> r[i] in r;
  }

  /** Stripping twice is stripping once. */
  lemma StripIdempotent(v: Json)
    ensures StripAmountMajor(StripAmountMajor(v)) == StripAmountMajor(v)
  {
    match v
    case JObj(ms) =>
      WithoutKeys(ms, MAJOR_KEY);
      WithoutAbsent(Without(ms, MAJOR_KEY), MAJOR_KEY);
    case JArr(xs) =>
      WithoutKeys(IndexMembers(xs), MAJOR_KEY);
      WithoutAbsent(Without(IndexMembers(xs), MAJOR_KEY), MAJOR_KEY);
    case _ =>
  }

  /** Indices written in decimal never repeat and are never "amount_major". */
  lemma IndexMembersKeys(xs: seq<Json>)
    ensures DistinctKeys(IndexMembers(xs))
    ensures MAJOR_KEY !in Keys(IndexMembers(xs))
  {
    var ms := IndexMembers(xs);
    forall p, q | 0 <= p < q < |ms|
      ensures ms[p].key != ms[q].key
    {
      if DigitsOf(p) == DigitsOf(q) {
        DigitsOfInjective(p, q);
      }
    }
    forall i | 0 <= i < |ms|
      ensures ms[i].key != MAJOR_KEY
    {
      assert ms[i].key == DigitsOf(i);
      assert MAJOR_KEY[0] == 'a';
    }
  }

  /** An array is spread into an object holding its items under "0", "1", ... */
  lemma StripArray(xs: seq<Json>, i: nat)
    requires i < |xs|
    ensures Lookup(StripAmountMajor(JArr(xs)).members, IntToString(i)) == Some(xs[i])
  {
    var ms := IndexMembers(xs);
    IndexMembersKeys(xs);
    WithoutAbsent(ms, MAJOR_KEY);
    LookupAt(ms, i);
  }
}
