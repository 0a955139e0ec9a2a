/** The JavaScript values that reach the query builder, and the plain objects
    (filters, update inputs) that carry them. */
module JsValues {
  import opened Wrappers

  /** A JavaScript value as the query layer observes it.
      - `Range(from, to)` is any object value: the layer only ever reads its
        `from` and `to` properties (an absent property reads as `Undefined`).
        A `DateTimeRange` filter is one; an object without those properties is
        `Range(Undefined, Undefined)`.
      - `Opaque` stands for every value the layer binds without looking at it:
        a non-integer number, a DateTime, a JSON value. All of them are truthy. */
  datatype Val =
    | Undefined
    | Null
    | Bool(b: bool)
    | Num(n: int)
    | Str(s: string)
    | Range(from: Val, to: Val)
    | Opaque(tag: nat)

  /** JavaScript truthiness (`if (v)`). */
  predicate Truthy(v: Val) {
    match v
    case Undefined => false
    case Null => false
    case Bool(b) => b
    case Num(n) => n != 0
    case Str(s) => s != ""
    case Range(_, _) => true
    case Opaque(_) => true
  }

  /** `v === undefined || v === null` */
  predicate IsNullish(v: Val) {
    v.Undefined? || v.Null?
  }

  /** A plain object: its own properties in insertion order. */
  type JsObject = seq<(string, Val)>

  function Keys(o: JsObject): (ks: seq<string>)
    ensures |ks| == |o|
    ensures forall i :: 0 <= i < |o| ==> ks[i] == o[i].0
  {
    seq(|o|, i requires 0 <= i < |o| => o[i].0)
  }

  predicate HasKey(o: JsObject, k: string) {
    exists i :: 0 <= i < |o| && o[i].0 == k
  }

  /** Property names of a real object are pairwise distinct. */
  predicate DistinctKeys(o: JsObject) {
    forall i, j :: 0 <= i < j < |o| ==> o[i].0 != o[j].0
  }

  /** Property read `o.k`: a missing property reads as `undefined`. */
  function Get(o: JsObject, k: string): (v: Val)
    ensures !HasKey(o, k) ==> v == Undefined
  {
    if o == [] then Undefined
    else if o[0].0 == k then o[0].1
    else Get(o[1..], k)
  }

  /** Property assignment `o.k = v` (also the last member of an object literal
      `{...o, k: v}`): an existing property keeps its position and takes the new
      value, a new one is appended after all the others. */
  function SetProp(o: JsObject, k: string, v: Val): (r: JsObject)
    ensures HasKey(o, k) ==> |r| == |o|
    ensures !HasKey(o, k) ==> r == o + [(k, v)]
  {
    if o == [] then [(k, v)]
    else if o[0].0 == k then [(k, v)] + o[1..]
    else [o[0]] + SetProp(o[1..], k, v)
  }

  /** The spread `{...o}` of an optional object: `undefined` and `null`
      (both `None` here) spread to no properties. */
  function Spread(o: Option<JsObject>): (r: JsObject)
    ensures o.None? ==> r == []
    ensures o.Some? ==> r == o.value
  {
    match o
    case None => []
    case Some(p) => p
  }

  /** After `o.k = v`, reading `k` gives `v`. */
  lemma {:induction false} GetAfterSet(o: JsObject, k: string, v: Val)
    ensures Get(SetProp(o, k, v), k) == v
  {
    if o != [] && o[0].0 != k {
      GetAfterSet(o[1..], k, v);
    }
  }

  /** After `o.k = v`, every other property reads as before. */
  lemma {:induction false} GetOtherAfterSet(o: JsObject, k: string, v: Val, k': string)
    requires k' != k
    ensures Get(SetProp(o, k, v), k') == Get(o, k')
  {
    if o != [] && o[0].0 != k {
      GetOtherAfterSet(o[1..], k, v, k');
    }
  }

  /** `o.k = v` keeps every property in its place and changes no value but k's. */
  lemma SetPropInPlace(o: JsObject, k: string, v: Val)
    ensures HasKey(o, k) ==> Keys(SetProp(o, k, v)) == Keys(o)
    ensures forall i :: 0 <= i < |o| && o[i].0 != k ==> SetProp(o, k, v)[i] == o[i]
  {
    SetPropPositions(o, k, v);
  }

  /** Position by position, `o.k = v` keeps every name, and every value but k's. */
  lemma {:induction false} SetPropPositions(o: JsObject, k: string, v: Val)
    ensures |o| <= |SetProp(o, k, v)|
    ensures forall i :: 0 <= i < |o| ==> SetProp(o, k, v)[i].0 == o[i].0
    ensures forall i :: 0 <= i < |o| && o[i].0 != k ==> SetProp(o, k, v)[i] == o[i]
  {
    if o != [] {
      var r := SetProp(o, k, v);
      if o[0].0 != k {
        SetPropPositions(o[1..], k, v);
        assert r == [o[0]] + SetProp(o[1..], k, v);
      }
      forall i | 0 < i < |o|
        ensures r[i].0 == o[i].0 && (o[i].0 != k ==> r[i] == o[i])
      {
        assert o[1..][i - 1] == o[i];
      }
    }
  }

  /** Assignment keeps the property names of an object distinct. */
  lemma {:induction false} SetPropDistinct(o: JsObject, k: string, v: Val)
    requires DistinctKeys(o)
    ensures DistinctKeys(SetProp(o, k, v))
  {
    if o != [] && o[0].0 != k {
      SetPropDistinct(o[1..], k, v);
      SetPropInPlace(o[1..], k, v);
      var t := SetProp(o[1..], k, v);
      forall i | 0 <= i < |t| ensures t[i].0 != o[0].0 {
        if i < |o[1..]| && o[1..][i].0 != k {
          assert t[i] == o[1..][i];
        } else if !HasKey(o[1..], k) {
          assert t == o[1..] + [(k, v)];
        }
      }
    }
  }

  /** After `o.k = v` the object holds the property `k: v`. */
  lemma {:induction false} SetPropHolds(o: JsObject, k: string, v: Val)
    ensures (k, v) in SetProp(o, k, v)
  {
    if o != [] && o[0].0 != k {
      SetPropHolds(o[1..], k, v);
    }
  }

  /** `o.k = v` introduces no property name other than `k`. */
  lemma {:induction false} SetPropNames(o: JsObject, k: string, v: Val)
    ensures forall j :: 0 <= j < |SetProp(o, k, v)| ==> SetProp(o, k, v)[j].0 == k || SetProp(o, k, v)[j] in o
  {
    if o != [] && o[0].0 != k {
      SetPropNames(o[1..], k, v);
      var t := SetProp(o[1..], k, v);
      assert SetProp(o, k, v) == [o[0]] + t;
      forall j | 0 <= j < |t| && t[j] in o[1..] ensures t[j] in o {
        var m :| 0 <= m < |o[1..]| && o[1..][m] == t[j];
        assert o[m + 1] == t[j];
      }
    }
  }
}
