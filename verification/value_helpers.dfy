/** `isEmpty` and `parseNumericBoolean` of src/utils/utils.js. */
module ValueHelpers {
  import opened Text
  import opened Json

  // ---------------------------------------------------------------------------
  // isEmpty
  // ---------------------------------------------------------------------------

  /** The names `for (const prop in obj)` visits, all of them own properties:
      an object's keys, the indices of an array or a string (written in
      decimal), and nothing for numbers, booleans and `null`. */
  function PropertyNames(v: Json): (ps: seq<string>)
    ensures v.JObj? ==> |ps| == |v.members|
    ensures v.JArr? ==> |ps| == |v.items|
    ensures v.JStr? ==> |ps| == |v.s|
    ensures !(v.JObj? || v.JArr? || v.JStr?) ==> ps == []
  {
    match v
    case JObj(ms) => Keys(ms)
    case JArr(xs) => Indices(|xs|)
    case JStr(s) => Indices(|s|)
    case _ => []
  }

  function Indices(n: nat): (ps: seq<string>)
    ensures |ps| == n
  {
    seq(n, i requires 0 <= i < n => IntToString(i))
  }

  /** `Object.hasOwn(obj, prop)`. */
  predicate HasOwn(v: Json, prop: string) {
    prop in PropertyNames(v)
  }

  /** What `isEmpty` answers: a falsy value, or a value without an own
      enumerable property. */
  predicate Empty(v: Json) {
    !Truthy(v) || forall p :: p in PropertyNames(v) ==> !HasOwn(v, p)
  }

  /** `isEmpty(obj)`. */
  method IsEmpty(v: Json) returns (r: bool)
    ensures r <==> Empty(v)
  {
    if !Truthy(v) {
      return true;
    }
    var props := PropertyNames(v);
    for i := 0 to |props|
      invariant forall j :: 0 <= j < i ==> !HasOwn(v, props[j])
    {
      if HasOwn(v, props[i]) {
        return false;
      }
    }
    return true;
  }

  /** Only a non-empty object, array or string is not empty; `0`, `false`,
      `null` and `""` are empty, and so are `{}`, `[]`, `true` and every
      other number. */
  lemma EmptyCases(v: Json)
    ensures Empty(v) <==> !((v.JObj? && v.members != []) || (v.JArr? && v.items != []) || (v.JStr? && v.s != ""))
  {
    var ps := PropertyNames(v);
    if |ps| > 0 {
      assert ps[0] in ps;
    }
  }

  // ---------------------------------------------------------------------------
  // parseNumericBoolean
  // ---------------------------------------------------------------------------

  /** `parseNumericBoolean(x)`: the numbers 0 and 1 become `false` and `true`;
      every other value is returned as it is. */
  function ParseNumericBoolean(v: Json): (r: Json)
    ensures r.JNum? ==> r == v && r.n != 0 && r.n != 1
    ensures r.JBool? ==> v == r || v == JNum(if r.b then 1 else 0)
    ensures !(r.JNum? || r.JBool?) ==> r == v
  {
    if v == JNum(0) then JBool(false)
    else if v == JNum(1) then JBool(true)
    else v
  }

  /** The conversion keeps truthiness and is idempotent. */
  lemma ParseNumericBooleanFacts(v: Json)
    ensures Truthy(ParseNumericBoolean(v)) == Truthy(v)
    ensures ParseNumericBoolean(ParseNumericBoolean(v)) == ParseNumericBoolean(v)
  {
  }

  /** Booleans stored as 0/1 come back as the booleans they encode. */
  lemma ParseNumericBooleanRoundTrip(b: bool)
    ensures ParseNumericBoolean(JNum(if b then 1 else 0)) == JBool(b)
    ensures ParseNumericBoolean(JBool(b)) == JBool(b)
  {
  }
}
