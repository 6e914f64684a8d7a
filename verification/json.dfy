/** JSON-shaped JavaScript values as the utilities see them: objects are
    ordered sequences of members (insertion order, as `Object.keys` reports it). */
module Json {
  import opened Wrappers

  datatype Json =
    | JNull
    | JBool(b: bool)
    | JNum(n: int)
    | JStr(s: string)
    | JArr(items: seq<Json>)
    | JObj(members: seq<Member>)

  datatype Member = Member(key: string, val: Json)

  function Keys(ms: seq<Member>): (ks: seq<string>)
    ensures |ks| == |ms|
    ensures forall i :: 0 <= i < |ms| ==> ks[i] == ms[i].key
  {
    seq(|ms|, i requires 0 <= i < |ms| => ms[i].key)
  }

  /** The position of the first member named `k`, or `|ms|` when there is none. */
  function FirstIndex(ms: seq<Member>, k: string): (i: nat)
    ensures i <= |ms|
    ensures i < |ms| ==> ms[i].key == k
    ensures forall j :: 0 <= j < i ==> ms[j].key != k
    ensures i == |ms| <==> k !in Keys(ms)
    decreases |ms|
  {
    if ms == [] then 0
    else if ms[0].key == k then 0
    else
      assert Keys(ms)[1..] == Keys(ms[1..]);
      1 + FirstIndex(ms[1..], k)
  }

  /** Property access `obj[k]`: the value of the member named `k`, if any. */
  function Lookup(ms: seq<Member>, k: string): (r: Option<Json>)
    ensures r.Some? <==> k in Keys(ms)
  {
    var i := FirstIndex(ms, k);
    if i < |ms| then Some(ms[i].val) else None
  }

  /** A JavaScript object never has two members with the same key. */
  predicate DistinctKeys(ms: seq<Member>) {
    forall i, j :: 0 <= i < j < |ms| ==> ms[i].key != ms[j].key
  }

  /** Every object at every depth has distinct keys. */
  predicate WellFormed(v: Json)
    decreases v
  {
    match v
    case JArr(xs) => forall i :: 0 <= i < |xs| ==> WellFormed(xs[i])
    case JObj(ms) => DistinctKeys(ms) && forall i :: 0 <= i < |ms| ==> WellFormed(ms[i].val)
    case _ => true
  }

  lemma LookupAt(ms: seq<Member>, j: nat)
    requires DistinctKeys(ms) && j < |ms|
    ensures Lookup(ms, ms[j].key) == Some(ms[j].val)
  {
  }

  /** Two member lists with the same keys in the same order find a key at the
      same position. */
  lemma FirstIndexSameKeys(a: seq<Member>, b: seq<Member>, k: string)
    requires Keys(a) == Keys(b)
    ensures FirstIndex(a, k) == FirstIndex(b, k)
  {
  }

  lemma FirstIndexAppendLeft(a: seq<Member>, b: seq<Member>, k: string)
    requires k in Keys(a)
    ensures FirstIndex(a + b, k) == FirstIndex(a, k)
  {
    var i := FirstIndex(a, k);
    assert (a + b)[i].key == k;
  }

  lemma LookupAppendLeft(a: seq<Member>, b: seq<Member>, k: string)
    requires k in Keys(a)
    ensures Lookup(a + b, k) == Lookup(a, k)
  {
    var i := FirstIndex(a, k);
    assert (a + b)[i].key == k;
  }

  lemma {:induction false} FirstIndexAppendRight(a: seq<Member>, b: seq<Member>, k: string)
    requires k !in Keys(a)
    ensures FirstIndex(a + b, k) == |a| + FirstIndex(b, k)
    decreases |a|
  {
    if a == [] {
      assert a + b == b;
    } else {
      assert Keys(a)[0] == a[0].key;
      assert Keys(a)[1..] == Keys(a[1..]);
      assert (a + b)[1..] == a[1..] + b;
      FirstIndexAppendRight(a[1..], b, k);
    }
  }

  lemma LookupAppendRight(a: seq<Member>, b: seq<Member>, k: string)
    requires k !in Keys(a)
    ensures Lookup(a + b, k) == Lookup(b, k)
  {
    FirstIndexAppendRight(a, b, k);
    var i := FirstIndex(b, k);
    if i < |b| {
      assert (a + b)[|a| + i] == b[i];
    }
  }


  /** `obj[k] = v`: overwrite the member named `k` in place, or append one. */
  function Put(ms: seq<Member>, k: string, v: Json): (r: seq<Member>)
    ensures k in Keys(ms) ==> r == ms[FirstIndex(ms, k) := Member(k, v)]
    ensures k !in Keys(ms) ==> r == ms + [Member(k, v)]
  {
    var i := FirstIndex(ms, k);
    if i < |ms| then ms[i := Member(k, v)] else ms + [Member(k, v)]
  }

  lemma UpdateAppend(f: seq<Member>, a: seq<Member>, q: nat, m: Member)
    requires q < |f|
    ensures (f + a)[q := m] == f[q := m] + a
  {
    var l, r := (f + a)[q := m], f[q := m] + a;
    assert forall j :: 0 <= j < |l| ==> l[j] == r[j];
  }

  /** JavaScript truthiness: `null`, `false`, `0` and `""` are falsy. */
  predicate Truthy(v: Json) {
    match v
    case JNull => false
    case JBool(b) => b
    case JNum(n) => n != 0
    case JStr(s) => s != ""
    case _ => true
  }
}
