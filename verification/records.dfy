/** Plain JavaScript objects as the reporter sees them: an ordered list of
    key/value fields, in the order `Object.keys` and `Object.values` list them. */
module Records {
  import opened Results
  import opened Decimal

  /** A property value: `undefined`, a string, an integer number, a boolean, or
      a nested object. */
  datatype Value = Undefined | Str(s: string) | Num(n: int) | Bool(b: bool) | Obj(fields: seq<Field>)

  datatype Field = Field(key: string, value: Value)

  /** An object literal; a well-formed one never repeats a key. */
  type Rec = seq<Field>

  function Keys(r: Rec): (ks: seq<string>)
    ensures |ks| == |r|
    ensures forall i :: 0 <= i < |r| ==> ks[i] == r[i].key
    decreases |r|
  {
    if |r| == 0 then [] else [r[0].key] + Keys(r[1..])
  }

  predicate DistinctKeys(r: Rec) {
    forall i, j :: 0 <= i < j < |r| ==> r[i].key != r[j].key
  }

  /** Property lookup `r[k]`, with `None` for a key the object does not have. */
  function Get(r: Rec, k: string): (v: Option<Value>)
    ensures v.Some? <==> k in Keys(r)
    decreases |r|
  {
    if |r| == 0 then None
    else if r[0].key == k then Some(r[0].value)
    else Get(r[1..], k)
  }

  /** Looking up the key of the `i`-th field yields that field's value when
      no earlier field has the same key. */
  lemma {:induction false} GetFirstAt(r: Rec, i: nat)
    requires i < |r|
    requires forall j :: 0 <= j < i ==> r[j].key != r[i].key
    ensures Get(r, r[i].key) == Some(r[i].value)
    decreases |r|
  {
    if i > 0 {
      assert r[1..][i - 1] == r[i];
      assert forall j :: 0 <= j < i - 1 ==> r[1..][j] == r[j + 1];
      GetFirstAt(r[1..], i - 1);
    }
  }

  /** In an object with distinct keys, looking up the key of the `i`-th field
      yields that field's value. */
  lemma GetAt(r: Rec, i: nat)
    requires DistinctKeys(r) && i < |r|
    ensures Get(r, r[i].key) == Some(r[i].value)
  {
    GetFirstAt(r, i);
  }

  /** Looking a key up in two objects written one after the other finds it
      in the first when the first has it. */
  lemma {:induction false} GetAppend(a: Rec, b: Rec, k: string)
    ensures Get(a + b, k) == if k in Keys(a) then Get(a, k) else Get(b, k)
    decreases |a|
  {
    if |a| == 0 {
      assert a + b == b;
    } else {
      assert (a + b)[0] == a[0];
      assert (a + b)[1..] == a[1..] + b;
      assert Keys(a) == [a[0].key] + Keys(a[1..]);
      GetAppend(a[1..], b, k);
    }
  }

  lemma GetFront(a: Rec, b: Rec, k: string)
    requires k in Keys(a)
    ensures Get(a + b, k) == Get(a, k)
  {
    GetAppend(a, b, k);
  }

  lemma GetSkip(a: Rec, b: Rec, k: string)
    requires k !in Keys(a)
    ensures Get(a + b, k) == Get(b, k)
  {
    GetAppend(a, b, k);
  }

  /** Defining property `k` as `v` in an object literal after a spread
      (`{...r, k: v}`). */
  function Put(r: Rec, k: string, v: Value): Rec
    decreases |r|
  {
    if |r| == 0 then [Field(k, v)]
    else if r[0].key == k then [Field(k, v)] + r[1..]
    else [r[0]] + Put(r[1..], k, v)
  }

  /** An existing key keeps its place; a new key goes last. */
  lemma {:induction false} PutKeys(r: Rec, k: string, v: Value)
    ensures Keys(Put(r, k, v)) == if k in Keys(r) then Keys(r) else Keys(r) + [k]
    decreases |r|
  {
    if |r| > 0 && r[0].key != k {
      PutKeys(r[1..], k, v);
      var tail := Put(r[1..], k, v);
      assert ([r[0]] + tail)[1..] == tail;
    }
  }

  /** After `Put`, `k` reads as `v` and every other key reads as before. */
  lemma {:induction false} PutGet(r: Rec, k: string, v: Value, k': string)
    ensures Get(Put(r, k, v), k') == if k' == k then Some(v) else Get(r, k')
    decreases |r|
  {
    if |r| > 0 && r[0].key != k {
      PutGet(r[1..], k, v, k');
      assert Put(r, k, v)[1..] == Put(r[1..], k, v);
    }
  }

  /** `Put` keeps an object's keys distinct. */
  lemma PutDistinct(r: Rec, k: string, v: Value)
    requires DistinctKeys(r)
    ensures DistinctKeys(Put(r, k, v))
  {
    var r' := Put(r, k, v);
    var ks := Keys(r');
    PutKeys(r, k, v);
    assert forall i, j :: 0 <= i < j < |r'| ==> ks[i] != ks[j] by {
      if k in Keys(r) {
        assert Keys(r') == Keys(r);
      } else {
        assert Keys(r') == Keys(r) + [k];
      }
    }
  }

  /** `Object.values(r)`. */
  function Values(r: Rec): (vs: seq<Value>)
    ensures |vs| == |r|
    ensures forall i :: 0 <= i < |r| ==> vs[i] == r[i].value
  {
    seq(|r|, i requires 0 <= i < |r| => r[i].value)
  }

  /** The decimal text of an integer reads back as its magnitude, after a
      `-` when it is negative. */
  lemma NumberText(n: int)
    ensures n >= 0 ==> AllDigits(IntToString(n)) && ParseNat(IntToString(n)) == n
    ensures n < 0 ==> var s := IntToString(n);
      |s| >= 2 && s[0] == '-' && AllDigits(s[1..]) && ParseNat(s[1..]) == -n
  {
    if n >= 0 {
      ParseNatToString(n);
    } else {
      ParseNatToString(-n);
      assert IntToString(n)[1..] == NatToString(-n);
    }
  }

  /** `String(v)` as the CSV writer applies it to each value. */
  function CellText(v: Value): (s: string)
    ensures v.Str? ==> s == v.s
    ensures v.Undefined? ==> s == "undefined"
    ensures v.Obj? ==> s == "[object Object]"
    ensures v.Bool? ==> s == (if v.b then "true" else "false")
    ensures v.Num? && v.n >= 0 ==> AllDigits(s) && ParseNat(s) == v.n && (|s| > 1 ==> s[0] != '0')
    ensures v.Num? && v.n < 0 ==> |s| >= 2 && s[0] == '-' && AllDigits(s[1..]) && ParseNat(s[1..]) == -v.n
  {
    match v
    case Undefined => "undefined"
    case Str(s) => s
    case Num(n) => NumberText(n); IntToString(n)
    case Bool(b) => if b then "true" else "false"
    case Obj(_) => "[object Object]"
  }
}
