/** What `addDisplayFields` promises about the tree it returns: the shape and
    the original keys are kept, only money fields gain display members, each
    of those holds `formatAmountDisplay` of its field, and annotating twice
    changes nothing more. */
module DisplayFieldsFacts {
  import opened Wrappers
  import opened Json
  import opened MoneyFormat
  import opened DisplayFields
  import opened DisplayFieldsLoop

  // ---------------------------------------------------------------------------
  // The appended display members
  // ---------------------------------------------------------------------------

  /** Each appended member is the display of one formattable money field of
      `ms`, under a key `all` does not have. */
  lemma {:induction false} AppendedMember(ms: seq<Member>, all: seq<Member>, symbol: string, p: nat)
    returns (j: nat)
    requires p < |Appended(ms, all, symbol)|
    ensures j < |ms| && IsMoneyField(ms[j].key) && FormatAmountDisplay(ms[j].val, symbol).Some?
    ensures DisplayKey(ms[j].key) !in Keys(all)
    ensures Appended(ms, all, symbol)[p]
         == Member(DisplayKey(ms[j].key), JStr(FormatAmountDisplay(ms[j].val, symbol).value))
    decreases |ms|
  {
    var init := ms[..|ms| - 1];
    if p < |Appended(init, all, symbol)| {
      j := AppendedMember(init, all, symbol, p);
    } else {
      j := |ms| - 1;
    }
  }

  /** Two display members are never appended under the same key. */
  lemma {:induction false} AppendedDistinct(ms: seq<Member>, all: seq<Member>, symbol: string)
    requires DistinctKeys(ms)
    ensures DistinctKeys(Appended(ms, all, symbol))
    decreases |ms|
  {
    if ms != [] {
      var init := ms[..|ms| - 1];
      var last := ms[|ms| - 1];
      AppendedDistinct(init, all, symbol);
      AppendedKeys(init, all, symbol);
      BaseOfDisplayKey(last.key);
      var a := Appended(init, all, symbol);
      assert forall q :: 0 <= q < |init| ==> init[q].key != last.key;
      assert forall p :: 0 <= p < |a| ==> BaseKey(a[p].key) in Keys(init);
    }
  }

  /** The display member appended for a money field can be read back. */
  lemma {:induction false} AppendedLookup(ms: seq<Member>, all: seq<Member>, symbol: string, i: nat)
    requires DistinctKeys(ms) && i < |ms|
    requires IsMoneyField(ms[i].key) && FormatAmountDisplay(ms[i].val, symbol).Some?
    requires DisplayKey(ms[i].key) !in Keys(all)
    ensures Lookup(Appended(ms, all, symbol), DisplayKey(ms[i].key))
         == Some(JStr(FormatAmountDisplay(ms[i].val, symbol).value))
    decreases |ms|
  {
    var init := ms[..|ms| - 1];
    var last := ms[|ms| - 1];
    var k := DisplayKey(ms[i].key);
    if i == |ms| - 1 {
      AppendedKeys(init, all, symbol);
      BaseOfDisplayKey(last.key);
      var a := Appended(init, all, symbol);
      assert forall q :: 0 <= q < |init| ==> init[q].key != last.key;
      assert forall p :: 0 <= p < |a| ==> BaseKey(a[p].key) in Keys(init);
      LookupAppendRight(Appended(init, all, symbol), NewDisplay(last, all, symbol), k);
    } else {
      AppendedLookup(init, all, symbol, i);
      LookupAppendLeft(Appended(init, all, symbol), NewDisplay(last, all, symbol), k);
    }
  }

  lemma {:induction false} AppendedNone(ms: seq<Member>, all: seq<Member>, symbol: string)
    requires forall j :: 0 <= j < |ms| ==> NewDisplay(ms[j], all, symbol) == []
    ensures Appended(ms, all, symbol) == []
    decreases |ms|
  {
    if ms != [] {
      AppendedNone(ms[..|ms| - 1], all, symbol);
    }
  }

  // ---------------------------------------------------------------------------
  // Shape, keys and values of the annotated tree
  // ---------------------------------------------------------------------------

  lemma AppendRight<X>(a: seq<X>, b: seq<X>, p: nat)
    requires |a| <= p < |a| + |b|
    ensures (a + b)[p] == b[p - |a|]
  {
  }

  /** The members of an annotated object: first the original ones, each in
      its place, then the appended display members. */
  lemma AnnotatedObject(ms: seq<Member>, symbol: string)
    ensures var am := AnnotatedMembers(ms, |ms|, symbol);
            var r := Annotate(JObj(ms), symbol).members;
            && r == am + Appended(ms, ms, symbol) && |r| == |ms| + |Appended(ms, ms, symbol)|
            && Keys(am) == Keys(ms)
            && (forall i :: 0 <= i < |ms| ==> r[i] == am[i] == Member(ms[i].key, AnnotatedValue(ms, i, symbol)))
  {
    var am := AnnotatedMembers(ms, |ms|, symbol);
    forall i | 0 <= i < |ms|
      ensures am[i] == Member(ms[i].key, AnnotatedValue(ms, i, symbol))
    {
      AnnotatedMembersAt(ms, |ms|, symbol, i);
    }
  }

  lemma AnnotatedTail(ms: seq<Member>, symbol: string, p: nat)
    requires |ms| <= p < |Annotate(JObj(ms), symbol).members|
    ensures Annotate(JObj(ms), symbol).members[p] == Appended(ms, ms, symbol)[p - |ms|]
  {
    var am := AnnotatedMembers(ms, |ms|, symbol);
    AppendRight(am, Appended(ms, ms, symbol), p);
  }

  /** Arrays keep their length and are annotated element by element; values
      other than objects and arrays are returned unchanged. */
  lemma AnnotateShape(v: Json, symbol: string)
    ensures var r := Annotate(v, symbol);
            && (r.JArr? <==> v.JArr?) && (r.JObj? <==> v.JObj?)
            && (v.JArr? ==> |r.items| == |v.items|
                             && forall i :: 0 <= i < |v.items| ==> r.items[i] == Annotate(v.items[i], symbol))
            && (!v.JArr? && !v.JObj? ==> r == v)
  {
    if v.JArr? {
      forall i | 0 <= i < |v.items|
        ensures Annotate(v, symbol).items[i] == Annotate(v.items[i], symbol)
      {
        AnnotatedItemsAt(v.items, |v.items|, symbol, i);
      }
    }
  }

  /** Every original key stays in its place, and every key after them is
      the display key of a money field of the object that it did not have. */
  lemma AnnotateKeys(ms: seq<Member>, symbol: string)
    ensures var r := Annotate(JObj(ms), symbol).members;
            && |r| >= |ms| && Keys(r)[..|ms|] == Keys(ms)
            && (forall p :: |ms| <= p < |r| ==>
                  IsDisplayKey(r[p].key) && IsMoneyField(BaseKey(r[p].key))
                  && BaseKey(r[p].key) in Keys(ms) && r[p].key !in Keys(ms))
  {
    var r := Annotate(JObj(ms), symbol).members;
    AnnotatedObject(ms, symbol);
    AppendedKeys(ms, ms, symbol);
    assert Keys(r)[..|ms|] == Keys(ms);
    forall p | |ms| <= p < |r|
      ensures r[p] == Appended(ms, ms, symbol)[p - |ms|]
    {
      AnnotatedTail(ms, symbol, p);
    }
  }

  /** A member whose value is neither an object nor an array, and whose key is
      not the display key of a money field, is kept as it is. */
  lemma AnnotateKeepsValue(ms: seq<Member>, i: nat, symbol: string)
    requires i < |ms| && !ms[i].val.JObj? && !ms[i].val.JArr?
    requires !(IsDisplayKey(ms[i].key) && IsMoneyField(BaseKey(ms[i].key)))
    ensures Annotate(JObj(ms), symbol).members[i] == ms[i]
  {
    AnnotatedObject(ms, symbol);
    assert DisplayFor(ms, ms[i].key, symbol) == None;
    assert AnnotatedValue(ms, i, symbol) == Annotate(ms[i].val, symbol);
  }

  /** A key that is not a display key reads, in the annotated object, the
      annotated value it had. */
  lemma LookupAnnotated(ms: seq<Member>, k: string, symbol: string)
    requires !IsDisplayKey(k)
    ensures Lookup(Annotate(JObj(ms), symbol).members, k)
         == match Lookup(ms, k) case Some(x) => Some(Annotate(x, symbol)) case None => None
  {
    var am := AnnotatedMembers(ms, |ms|, symbol);
    var ap := Appended(ms, ms, symbol);
    AnnotatedObject(ms, symbol);
    FirstIndexSameKeys(am, ms, k);
    if k in Keys(ms) {
      LookupAppendLeft(am, ap, k);
      var i := FirstIndex(ms, k);
      assert DisplayFor(ms, ms[i].key, symbol) == None;
    } else {
      AppendedKeys(ms, ms, symbol);
      assert k !in Keys(ap);
      LookupAppendRight(am, ap, k);
    }
  }

  /** Annotation never changes what an amount formats to: numbers stay, and
      the `num1`/`num2` members of a range keep their numbers. */
  lemma FormatAmountDisplayAnnotate(v: Json, symbol: string)
    ensures FormatAmountDisplay(Annotate(v, symbol), symbol) == FormatAmountDisplay(v, symbol)
  {
    if v.JObj? {
      LookupAnnotated(v.members, "num1", symbol);
      LookupAnnotated(v.members, "num2", symbol);
      if IsRangeObject(v) {
        ToNumberAnnotate(Lookup(v.members, "num1").value, symbol);
        ToNumberAnnotate(Lookup(v.members, "num2").value, symbol);
      }
    }
  }

  /** Annotation never changes the number a value coerces to: primitives are
      kept, objects stay objects, and a one-item array keeps an item that
      coerces alike. */
  lemma {:induction false} ToNumberAnnotate(v: Json, symbol: string)
    ensures ToNumber(Annotate(v, symbol)) == ToNumber(v)
    decreases v
  {
    AnnotateShape(v, symbol);
    if v.JArr? && |v.items| == 1 {
      AnnotateShape(v.items[0], symbol);
      ToNumberAnnotate(v.items[0], symbol);
    }
  }

  /** A money field whose value formats gains the display member holding
      exactly that formatted string, whether the display key was new or
      already present. */
  lemma AnnotateDisplays(ms: seq<Member>, i: nat, symbol: string)
    requires DistinctKeys(ms) && i < |ms|
    requires IsMoneyField(ms[i].key) && FormatAmountDisplay(ms[i].val, symbol).Some?
    ensures Lookup(Annotate(JObj(ms), symbol).members, DisplayKey(ms[i].key))
         == Some(JStr(FormatAmountDisplay(ms[i].val, symbol).value))
  {
    var k := DisplayKey(ms[i].key);
    var am := AnnotatedMembers(ms, |ms|, symbol);
    var ap := Appended(ms, ms, symbol);
    AnnotatedObject(ms, symbol);
    BaseOfDisplayKey(ms[i].key);
    LookupAt(ms, i);
    if k in Keys(ms) {
      FirstIndexSameKeys(am, ms, k);
      LookupAppendLeft(am, ap, k);
      var q := FirstIndex(ms, k);
      assert DisplayFor(ms, ms[q].key, symbol) == FormatAmountDisplay(ms[i].val, symbol);
    } else {
      AppendedLookup(ms, ms, symbol, i);
      LookupAppendRight(am, ap, k);
    }
  }

  /** The display computed from the annotated object is the display computed
      from the original one. */
  lemma DisplayForAnnotated(ms: seq<Member>, k: string, symbol: string)
    ensures DisplayFor(Annotate(JObj(ms), symbol).members, k, symbol) == DisplayFor(ms, k, symbol)
  {
    if IsDisplayKey(k) && IsMoneyField(BaseKey(k)) {
      var b := BaseKey(k);
      MoneyFieldNotDisplayKey(b);
      LookupAnnotated(ms, b, symbol);
      if Lookup(ms, b).Some? {
        FormatAmountDisplayAnnotate(Lookup(ms, b).value, symbol);
      }
    }
  }

  /** The annotated object has no duplicate keys when the original had none. */
  lemma AnnotatedDistinct(ms: seq<Member>, symbol: string)
    requires DistinctKeys(ms)
    ensures DistinctKeys(Annotate(JObj(ms), symbol).members)
  {
    var r := Annotate(JObj(ms), symbol).members;
    AnnotatedObject(ms, symbol);
    AppendedKeys(ms, ms, symbol);
    AppendedDistinct(ms, ms, symbol);
    var ap := Appended(ms, ms, symbol);
    forall i, j | 0 <= i < j < |r|
      ensures r[i].key != r[j].key
    {
      if j < |ms| {
        assert r[i].key == ms[i].key && r[j].key == ms[j].key;
      } else if i >= |ms| {
        AnnotatedTail(ms, symbol, i);
        AnnotatedTail(ms, symbol, j);
      } else {
        AnnotatedTail(ms, symbol, j);
        assert r[i].key in Keys(ms);
      }
    }
  }

  /** Annotation keeps every object, at every depth, free of duplicate keys. */
  lemma {:induction false} AnnotateWellFormed(v: Json, symbol: string)
    requires WellFormed(v)
    ensures WellFormed(Annotate(v, symbol))
    decreases v
  {
    match v
    case JArr(xs) =>
      AnnotateShape(v, symbol);
      forall i | 0 <= i < |xs|
        ensures WellFormed(Annotate(xs[i], symbol))
      {
        AnnotateWellFormed(xs[i], symbol);
      }
    case JObj(ms) =>
      var r := Annotate(v, symbol).members;
      AnnotatedDistinct(ms, symbol);
      forall q | 0 <= q < |r|
        ensures WellFormed(r[q].val)
      {
        if q < |ms| {
          AnnotatedObject(ms, symbol);
          if DisplayFor(ms, ms[q].key, symbol).None? {
            AnnotateWellFormed(ms[q].val, symbol);
          }
        } else {
          AnnotatedTail(ms, symbol, q);
          var j := AppendedMember(ms, ms, symbol, q - |ms|);
        }
      }
    case _ =>
  }

  // ---------------------------------------------------------------------------
  // Idempotence
  // ---------------------------------------------------------------------------

  /** The annotated object has every display member it needs, so annotating it
      again appends nothing. */
  lemma AnnotatedAppendsNothing(ms: seq<Member>, symbol: string)
    requires DistinctKeys(ms)
    ensures var r := Annotate(JObj(ms), symbol).members; Appended(r, r, symbol) == []
  {
    var r := Annotate(JObj(ms), symbol).members;
    var ap := Appended(ms, ms, symbol);
    AnnotatedObject(ms, symbol);
    AppendedKeys(ms, ms, symbol);
    forall q | 0 <= q < |r|
      ensures NewDisplay(r[q], r, symbol) == []
    {
      if q < |ms| {
        var k := ms[q].key;
        if IsMoneyField(k) {
          MoneyFieldNotDisplayKey(k);
          assert r[q].val == Annotate(ms[q].val, symbol);
          FormatAmountDisplayAnnotate(ms[q].val, symbol);
          if FormatAmountDisplay(ms[q].val, symbol).Some? {
            AnnotateDisplays(ms, q, symbol);
          }
        }
      } else {
        AnnotatedTail(ms, symbol, q);
        if IsMoneyField(r[q].key) {
          MoneyFieldNotDisplayKey(r[q].key);
        }
      }
    }
    AppendedNone(r, r, symbol);
  }

  /** Annotating the members of an annotated object again leaves each of
      them as it is, given that this holds for the values annotated the first
      time. */
  lemma AnnotatedMemberFixed(ms: seq<Member>, q: nat, symbol: string)
    requires DistinctKeys(ms) && q < |Annotate(JObj(ms), symbol).members|
    requires q < |ms| && DisplayFor(ms, ms[q].key, symbol).None? ==>
               Annotate(Annotate(ms[q].val, symbol), symbol) == Annotate(ms[q].val, symbol)
    ensures var r := Annotate(JObj(ms), symbol).members; AnnotatedValue(r, q, symbol) == r[q].val
  {
    var r := Annotate(JObj(ms), symbol).members;
    DisplayForAnnotated(ms, r[q].key, symbol);
    if q < |ms| {
      AnnotatedObject(ms, symbol);
    } else {
      AnnotatedTail(ms, symbol, q);
      var j := AppendedMember(ms, ms, symbol, q - |ms|);
      BaseOfDisplayKey(ms[j].key);
      LookupAt(ms, j);
    }
  }

  /** Annotating an already annotated tree gives the same tree: display keys
      are not money fields, and the strings they would be given are the ones
      they already hold. */
  lemma {:induction false} AnnotateIdempotent(v: Json, symbol: string)
    requires WellFormed(v)
    ensures Annotate(Annotate(v, symbol), symbol) == Annotate(v, symbol)
    decreases v
  {
    match v
    case JArr(xs) =>
      var once := Annotate(v, symbol);
      AnnotateShape(v, symbol);
      AnnotateShape(once, symbol);
      forall i | 0 <= i < |xs|
        ensures Annotate(once, symbol).items[i] == once.items[i]
      {
        AnnotateIdempotent(xs[i], symbol);
      }
    case JObj(ms) =>
      var r := Annotate(v, symbol).members;
      forall q | 0 <= q < |r|
        ensures AnnotatedValue(r, q, symbol) == r[q].val
      {
        if q < |ms| && DisplayFor(ms, ms[q].key, symbol).None? {
          AnnotateIdempotent(ms[q].val, symbol);
        }
        AnnotatedMemberFixed(ms, q, symbol);
      }
      AnnotatedAppendsNothing(ms, symbol);
      AnnotatedObject(r, symbol);
      assert AnnotatedMembers(r, |r|, symbol) == r;
    case _ =>
  }
}
