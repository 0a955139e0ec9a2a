/** The generic filter and pagination compiler: a filter object becomes a
    WHERE clause with positional placeholders `$N` plus the ordered list of
    values they bind, and optional limit/offset become a trailing clause. */
module QueryBuilder {
  import opened Wrappers
  import opened JsValues
  import opened Text

  /** The comparison a conjunct makes: `>=`, `<=` or `=`. */
  datatype Op = Ge | Le | Eq

  /** A column compared with (or, in a SET list, assigned) one bound value. */
  datatype Term = Term(column: string, op: Op, value: Val)

  /** A compiled fragment: text, the values its placeholders bind in order,
      and the next free placeholder number, so that fragments chain. */
  datatype Fragment = Fragment(clause: string, values: seq<Val>, nextIndex: nat)

  /** SQL text with the values its placeholders bind, in order. */
  datatype Statement = Statement(text: string, values: seq<Val>)

  function OpToken(op: Op): string {
    match op
    case Ge => ">="
    case Le => "<="
    case Eq => "="
  }

  /** The positional placeholder `$n`. */
  function Placeholder(n: nat): string {
    "$" + NatToString(n)
  }

  /** `${column} >= $${n}`, `${column} <= $${n}` or `${column} = $${n}`. */
  function RenderTerm(t: Term, n: nat): string {
    t.column + " " + OpToken(t.op) + " " + Placeholder(n)
  }

  /** Terms rendered with consecutive placeholders from `start`. */
  function RenderTerms(ts: seq<Term>, start: nat): (parts: seq<string>)
    ensures |parts| == |ts|
  {
    if |ts| == 0 then []
    else RenderTerms(ts[..|ts| - 1], start) + [RenderTerm(ts[|ts| - 1], start + |ts| - 1)]
  }

  /** The values the terms bind, in order. */
  function ValuesOf(ts: seq<Term>): (vs: seq<Val>)
    ensures |vs| == |ts|
  {
    if |ts| == 0 then [] else ValuesOf(ts[..|ts| - 1]) + [ts[|ts| - 1].value]
  }

  /** Pushing one more term extends the text and the values in step. */
  lemma PushTerm(done: seq<Term>, t: Term, start: nat, n: nat)
    requires n == start + |done|
    ensures RenderTerms(done + [t], start) == RenderTerms(done, start) + [RenderTerm(t, n)]
    ensures ValuesOf(done + [t]) == ValuesOf(done) + [t.value]
  {
    assert (done + [t])[..|done|] == done;
  }

  /** The i-th rendered term carries placeholder `start + i`. */
  lemma {:induction false} RenderTermsAt(ts: seq<Term>, start: nat, i: nat)
    requires i < |ts|
    ensures RenderTerms(ts, start)[i] == RenderTerm(ts[i], start + i)
  {
    if i < |ts| - 1 {
      RenderTermsAt(ts[..|ts| - 1], start, i);
    }
  }

  /** The i-th bound value is the i-th term's value. */
  lemma {:induction false} ValuesOfAt(ts: seq<Term>, i: nat)
    requires i < |ts|
    ensures ValuesOf(ts)[i] == ts[i].value
  {
    if i < |ts| - 1 {
      ValuesOfAt(ts[..|ts| - 1], i);
    }
  }

  /** Rendering two runs of terms one after the other continues the numbering. */
  lemma {:induction false} RenderTermsConcat(a: seq<Term>, b: seq<Term>, start: nat)
    ensures RenderTerms(a + b, start) == RenderTerms(a, start) + RenderTerms(b, start + |a|)
  {
    if |b| > 0 {
      var b', t := b[..|b| - 1], b[|b| - 1];
      var ab' := a + b';
      var n := start + |ab'|;
      assert a + b == ab' + [t];
      assert b' + [t] == b;
      calc {
        RenderTerms(a + b, start);
        { PushTerm(ab', t, start, n); }
        RenderTerms(ab', start) + [RenderTerm(t, n)];
        { RenderTermsConcat(a, b', start); }
        (RenderTerms(a, start) + RenderTerms(b', start + |a|)) + [RenderTerm(t, n)];
        RenderTerms(a, start) + (RenderTerms(b', start + |a|) + [RenderTerm(t, n)]);
        { PushTerm(b', t, start + |a|, n); }
        RenderTerms(a, start) + RenderTerms(b, start + |a|);
      }
    } else {
      assert a + b == a;
    }
  }

  lemma {:induction false} ValuesOfConcat(a: seq<Term>, b: seq<Term>)
    ensures ValuesOf(a + b) == ValuesOf(a) + ValuesOf(b)
  {
    if |b| > 0 {
      var b', t := b[..|b| - 1], b[|b| - 1];
      var ab' := a + b';
      assert a + b == ab' + [t];
      assert b' + [t] == b;
      calc {
        ValuesOf(a + b);
        { PushTerm(ab', t, 0, |ab'|); }
        ValuesOf(ab') + [t.value];
        { ValuesOfConcat(a, b'); }
        (ValuesOf(a) + ValuesOf(b')) + [t.value];
        ValuesOf(a) + (ValuesOf(b') + [t.value]);
        { PushTerm(b', t, 0, |b'|); }
        ValuesOf(a) + ValuesOf(b);
      }
    } else {
      assert a + b == a;
    }
  }

  /** What one filter entry contributes: nothing for `null`/`undefined`; a
      `>=` and/or `<=` bound for an object with a truthy `from` and/or `to`;
      otherwise one equality binding the value itself (so `false`, `0`, `''`
      and an object with falsy bounds all compile to `key = $N`). */
  function EntryTerms(key: string, v: Val): seq<Term> {
    if IsNullish(v) then []
    else if v.Range? && (Truthy(v.from) || Truthy(v.to)) then
      (if Truthy(v.from) then [Term(key, Ge, v.from)] else [])
      + (if Truthy(v.to) then [Term(key, Le, v.to)] else [])
    else [Term(key, Eq, v)]
  }

  /** The conjuncts of a whole filter, entry by entry in property order. */
  function FilterTerms(entries: JsObject): seq<Term> {
    if |entries| == 0 then []
    else
      var last := entries[|entries| - 1];
      FilterTerms(entries[..|entries| - 1]) + EntryTerms(last.0, last.1)
  }

  lemma RangeStep(before: seq<Term>, mid: seq<Term>, after: seq<Term>, key: string, v: Val)
    requires v.Range? && (Truthy(v.from) || Truthy(v.to))
    requires Truthy(v.from) ==> mid == before + [Term(key, Ge, v.from)]
    requires !Truthy(v.from) ==> mid == before
    requires Truthy(v.to) ==> after == mid + [Term(key, Le, v.to)]
    requires !Truthy(v.to) ==> after == mid
    ensures after == before + EntryTerms(key, v)
  {
  }

  lemma FilterTermsStep(entries: JsObject, i: nat)
    requires i < |entries|
    ensures FilterTerms(entries[..i + 1]) == FilterTerms(entries[..i]) + EntryTerms(entries[i].0, entries[i].1)
  {
    assert entries[..i + 1][..i] == entries[..i];
  }

  /** `buildWhereClause(filter, startIndex)`: an absent or key-less filter
      gives the empty fragment; otherwise the conjuncts are joined by ` AND `
      behind `WHERE `, and a filter whose every value was skipped still
      gives the empty clause. */
  function WhereClause(filter: Option<JsObject>, startIndex: nat): (r: Fragment)
    ensures r.nextIndex == startIndex + |r.values|
    ensures r.clause == "" <==> r.values == []
    ensures r.values != [] ==> |r.clause| > 6 && r.clause[..6] == "WHERE "
  {
    if filter.None? || |filter.value| == 0 then Fragment("", [], startIndex)
    else
      var ts := FilterTerms(filter.value);
      Fragment(if |ts| > 0 then "WHERE " + Join(RenderTerms(ts, startIndex), " AND ") else "",
               ValuesOf(ts),
               startIndex + |ts|)
  }

  /** Every conjunct comes from one entry of the filter and names its column. */
  lemma {:induction false} TermOrigin(o: JsObject, t: Term)
    requires t in FilterTerms(o)
    ensures exists j :: 0 <= j < |o| && t in EntryTerms(o[j].0, o[j].1) && t.column == o[j].0
  {
    var init, last := o[..|o| - 1], o[|o| - 1];
    if t !in EntryTerms(last.0, last.1) {
      TermOrigin(init, t);
      var j :| 0 <= j < |init| && t in EntryTerms(init[j].0, init[j].1) && t.column == init[j].0;
      assert init[j] == o[j];
    }
  }

  /** With distinct property names, the conjuncts on column `k` are exactly
      those of `k`'s own entry. */
  lemma KeyTermsFromOwnEntry(o: JsObject, i: nat)
    requires DistinctKeys(o) && i < |o|
    ensures forall t :: t in FilterTerms(o) && t.column == o[i].0 ==> t in EntryTerms(o[i].0, o[i].1)
  {
    forall t | t in FilterTerms(o) && t.column == o[i].0
      ensures t in EntryTerms(o[i].0, o[i].1)
    {
      TermOrigin(o, t);
      var j :| 0 <= j < |o| && t in EntryTerms(o[j].0, o[j].1) && t.column == o[j].0;
      assert j == i;
    }
  }

  /** Appending one entry to a filter appends exactly that entry's terms. */
  lemma FilterTermsSnoc(o: JsObject, key: string, v: Val)
    ensures FilterTerms(o + [(key, v)]) == FilterTerms(o) + EntryTerms(key, v)
  {
    assert (o + [(key, v)])[..|o|] == o;
  }

  /** The infix text of each comparison, spaces included. */
  function Infix(op: Op): string {
    match op
    case Ge => " >= "
    case Le => " <= "
    case Eq => " = "
  }

  lemma RenderTermText(t: Term, n: nat)
    ensures RenderTerm(t, n) == t.column + Infix(t.op) + Placeholder(n)
  {
    assert " " + OpToken(t.op) + " " == Infix(t.op);
  }

  /** A filter whose every value is `null` or `undefined` (in particular an
      absent or empty one) compiles to the empty clause with no values, and
      the next index is the start index. */
  lemma AllNullishCompilesToNothing(filter: Option<JsObject>, startIndex: nat)
    requires forall i :: 0 <= i < |Spread(filter)| ==> IsNullish(Spread(filter)[i].1)
    ensures WhereClause(filter, startIndex) == Fragment("", [], startIndex)
  {
    if filter.Some? {
      assert Spread(filter) == filter.value;
      FilterTermsAllNullish(filter.value);
    }
  }

  lemma {:induction false} FilterTermsAllNullish(entries: JsObject)
    requires forall i :: 0 <= i < |entries| ==> IsNullish(entries[i].1)
    ensures FilterTerms(entries) == []
  {
    if |entries| > 0 {
      FilterTermsAllNullish(entries[..|entries| - 1]);
    }
  }

  /** The entries of a filter whose value is neither `null` nor `undefined`. */
  function DropNullish(entries: JsObject): JsObject {
    if |entries| == 0 then []
    else
      var last := entries[|entries| - 1];
      DropNullish(entries[..|entries| - 1]) + (if IsNullish(last.1) then [] else [last])
  }

  lemma {:induction false} FilterTermsDropNullish(entries: JsObject)
    ensures FilterTerms(DropNullish(entries)) == FilterTerms(entries)
  {
    if |entries| > 0 {
      var init, last := entries[..|entries| - 1], entries[|entries| - 1];
      FilterTermsDropNullish(init);
      if IsNullish(last.1) {
        assert DropNullish(entries) == DropNullish(init);
        assert FilterTerms(entries) == FilterTerms(init) + [];
      } else {
        assert DropNullish(entries) == DropNullish(init) + [last];
        FilterTermsSnoc(DropNullish(init), last.0, last.1);
      }
    }
  }

  /** Skip rule: entries whose value is `null` or `undefined` contribute
      nothing, so removing them changes neither text, values nor next index. */
  lemma NullishEntriesIgnored(entries: JsObject, startIndex: nat)
    ensures WhereClause(Some(entries), startIndex) == WhereClause(Some(DropNullish(entries)), startIndex)
  {
    FilterTermsDropNullish(entries);
    if |DropNullish(entries)| == 0 {
      assert FilterTerms(entries) == [];
    }
  }

  /** Appending an entry to a filter: the fragment's values and conditions
      grow by that entry's, numbered from the previous next index. */
  lemma AppendEntry(o: JsObject, key: string, v: Val, startIndex: nat)
    ensures var before := WhereClause(Some(o), startIndex);
            var after := WhereClause(Some(o + [(key, v)]), startIndex);
            && after.values == before.values + ValuesOf(EntryTerms(key, v))
            && after.nextIndex == before.nextIndex + |EntryTerms(key, v)|
            && RenderTerms(FilterTerms(o + [(key, v)]), startIndex)
               == RenderTerms(FilterTerms(o), startIndex) + RenderTerms(EntryTerms(key, v), before.nextIndex)
  {
    AppendEntryValues(o, key, v, startIndex);
    WhereClauseParts(o, startIndex);
    AppendEntryConditions(o, key, v, startIndex, WhereClause(Some(o), startIndex).nextIndex);
  }

  lemma AppendEntryValues(o: JsObject, key: string, v: Val, startIndex: nat)
    ensures var before := WhereClause(Some(o), startIndex);
            var after := WhereClause(Some(o + [(key, v)]), startIndex);
            && after.values == before.values + ValuesOf(EntryTerms(key, v))
            && after.nextIndex == before.nextIndex + |EntryTerms(key, v)|
  {
    FilterTermsSnoc(o, key, v);
    WhereClauseParts(o, startIndex);
    WhereClauseParts(o + [(key, v)], startIndex);
    ValuesOfConcat(FilterTerms(o), EntryTerms(key, v));
  }

  lemma AppendEntryConditions(o: JsObject, key: string, v: Val, startIndex: nat, n: nat)
    requires n == startIndex + |FilterTerms(o)|
    ensures RenderTerms(FilterTerms(o + [(key, v)]), startIndex)
            == RenderTerms(FilterTerms(o), startIndex) + RenderTerms(EntryTerms(key, v), n)
  {
    FilterTermsSnoc(o, key, v);
    RenderSplit(FilterTerms(o + [(key, v)]), FilterTerms(o), EntryTerms(key, v), startIndex, n);
  }

  lemma RenderSplit(all: seq<Term>, a: seq<Term>, b: seq<Term>, start: nat, n: nat)
    requires all == a + b && n == start + |a|
    ensures RenderTerms(all, start) == RenderTerms(a, start) + RenderTerms(b, n)
  {
    RenderTermsConcat(a, b, start);
  }

  /** The values and next index of a present filter, whatever its length. */
  lemma WhereClauseParts(entries: JsObject, startIndex: nat)
    ensures WhereClause(Some(entries), startIndex).values == ValuesOf(FilterTerms(entries))
    ensures WhereClause(Some(entries), startIndex).nextIndex == startIndex + |FilterTerms(entries)|
  {
  }

  /** The values an appended entry adds, in the fragment's terms. */
  lemma AppendedValues(o: JsObject, key: string, v: Val, startIndex: nat, vs: seq<Val>)
    requires ValuesOf(EntryTerms(key, v)) == vs
    ensures var before := WhereClause(Some(o), startIndex);
            var after := WhereClause(Some(o + [(key, v)]), startIndex);
            after.values == before.values + vs && after.nextIndex == before.nextIndex + |vs|
  {
    AppendEntry(o, key, v, startIndex);
  }

  /** The conditions an appended entry adds, numbered from the next index. */
  lemma AppendedConditions(o: JsObject, key: string, v: Val, startIndex: nat, cs: seq<string>)
    requires RenderTerms(EntryTerms(key, v), WhereClause(Some(o), startIndex).nextIndex) == cs
    ensures RenderTerms(FilterTerms(o + [(key, v)]), startIndex) == RenderTerms(FilterTerms(o), startIndex) + cs
  {
    AppendEntry(o, key, v, startIndex);
  }

  lemma RenderOne(t: Term, n: nat)
    ensures RenderTerms([t], n) == [t.column + Infix(t.op) + Placeholder(n)]
    ensures ValuesOf([t]) == [t.value]
  {
    RenderTermText(t, n);
  }

  lemma RenderTwo(t: Term, u: Term, n: nat)
    ensures RenderTerms([t, u], n) == [t.column + Infix(t.op) + Placeholder(n), u.column + Infix(u.op) + Placeholder(n + 1)]
    ensures ValuesOf([t, u]) == [t.value, u.value]
  {
    assert [t, u][..1] == [t];
    RenderOne(t, n);
    RenderTermText(u, n + 1);
  }

  /** `false`, `0` and `''` are not skipped: appended to any filter they add
      one equality `key = $N` binding the value, N the next free index. */
  lemma FalsyScalarCompilesToEquality(o: JsObject, key: string, v: Val, startIndex: nat)
    requires v == Bool(false) || v == Num(0) || v == Str("")
    ensures var before := WhereClause(Some(o), startIndex);
            var after := WhereClause(Some(o + [(key, v)]), startIndex);
            && after.values == before.values + [v]
            && after.nextIndex == before.nextIndex + 1
            && RenderTerms(FilterTerms(o + [(key, v)]), startIndex)
               == RenderTerms(FilterTerms(o), startIndex) + [key + " = " + Placeholder(before.nextIndex)]
  {
    var n := WhereClause(Some(o), startIndex).nextIndex;
    EqualityTerm(key, v, n);
    AppendedValues(o, key, v, startIndex, [v]);
    AppendedConditions(o, key, v, startIndex, [key + " = " + Placeholder(n)]);
  }

  /** A value that is neither nullish nor a range with a truthy bound is one
      equality term binding the value itself. */
  lemma EqualityTerm(key: string, v: Val, n: nat)
    requires !IsNullish(v) && !(v.Range? && (Truthy(v.from) || Truthy(v.to)))
    ensures RenderTerms(EntryTerms(key, v), n) == [key + " = " + Placeholder(n)]
    ensures ValuesOf(EntryTerms(key, v)) == [v]
  {
    var t := Term(key, Eq, v);
    assert EntryTerms(key, v) == [t];
    RenderOne(t, n);
  }

  /** A range with both bounds truthy adds `key >= $i` then `key <= $(i+1)`,
      binding `from` then `to`. */
  lemma RangeWithBothBounds(o: JsObject, key: string, from: Val, to: Val, startIndex: nat)
    requires Truthy(from) && Truthy(to)
    ensures var before := WhereClause(Some(o), startIndex);
            var after := WhereClause(Some(o + [(key, Range(from, to))]), startIndex);
            && after.values == before.values + [from, to]
            && after.nextIndex == before.nextIndex + 2
            && RenderTerms(FilterTerms(o + [(key, Range(from, to))]), startIndex)
               == RenderTerms(FilterTerms(o), startIndex)
                  + [key + " >= " + Placeholder(before.nextIndex), key + " <= " + Placeholder(before.nextIndex + 1)]
  {
    RangeBothValues(o, key, from, to, startIndex);
    RangeBothConditions(o, key, from, to, startIndex);
  }

  lemma RangeBothValues(o: JsObject, key: string, from: Val, to: Val, startIndex: nat)
    requires Truthy(from) && Truthy(to)
    ensures var before := WhereClause(Some(o), startIndex);
            var after := WhereClause(Some(o + [(key, Range(from, to))]), startIndex);
            after.values == before.values + [from, to] && after.nextIndex == before.nextIndex + 2
  {
    RangeTerms(key, from, to, 0);
    AppendedValues(o, key, Range(from, to), startIndex, [from, to]);
  }

  lemma RangeBothConditions(o: JsObject, key: string, from: Val, to: Val, startIndex: nat)
    requires Truthy(from) && Truthy(to)
    ensures var n := WhereClause(Some(o), startIndex).nextIndex;
            RenderTerms(FilterTerms(o + [(key, Range(from, to))]), startIndex)
            == RenderTerms(FilterTerms(o), startIndex) + [key + " >= " + Placeholder(n), key + " <= " + Placeholder(n + 1)]
  {
    var n := WhereClause(Some(o), startIndex).nextIndex;
    RangeTerms(key, from, to, n);
    AppendedConditions(o, key, Range(from, to), startIndex, [key + " >= " + Placeholder(n), key + " <= " + Placeholder(n + 1)]);
  }

  /** A range with both bounds truthy is a `>=` and a `<=` term. */
  lemma RangeTerms(key: string, from: Val, to: Val, n: nat)
    requires Truthy(from) && Truthy(to)
    ensures RenderTerms(EntryTerms(key, Range(from, to)), n) == [key + " >= " + Placeholder(n), key + " <= " + Placeholder(n + 1)]
    ensures ValuesOf(EntryTerms(key, Range(from, to))) == [from, to]
  {
    var t, u := Term(key, Ge, from), Term(key, Le, to);
    assert EntryTerms(key, Range(from, to)) == [t, u];
    RenderTwo(t, u, n);
  }

  /** A range with only one truthy bound adds only that comparison. */
  lemma RangeWithOneBound(o: JsObject, key: string, from: Val, to: Val, startIndex: nat)
    requires Truthy(from) != Truthy(to)
    ensures var before := WhereClause(Some(o), startIndex);
            var after := WhereClause(Some(o + [(key, Range(from, to))]), startIndex);
            && after.values == before.values + [if Truthy(from) then from else to]
            && after.nextIndex == before.nextIndex + 1
            && RenderTerms(FilterTerms(o + [(key, Range(from, to))]), startIndex)
               == RenderTerms(FilterTerms(o), startIndex)
                  + [key + (if Truthy(from) then " >= " else " <= ") + Placeholder(before.nextIndex)]
  {
    var n := WhereClause(Some(o), startIndex).nextIndex;
    OneBoundTerm(key, from, to, n);
    AppendedValues(o, key, Range(from, to), startIndex, [if Truthy(from) then from else to]);
    AppendedConditions(o, key, Range(from, to), startIndex, [key + (if Truthy(from) then " >= " else " <= ") + Placeholder(n)]);
  }

  /** A range with exactly one truthy bound is one comparison on that bound. */
  lemma OneBoundTerm(key: string, from: Val, to: Val, n: nat)
    requires Truthy(from) != Truthy(to)
    ensures RenderTerms(EntryTerms(key, Range(from, to)), n) == [key + (if Truthy(from) then " >= " else " <= ") + Placeholder(n)]
    ensures ValuesOf(EntryTerms(key, Range(from, to))) == [if Truthy(from) then from else to]
  {
    var t := if Truthy(from) then Term(key, Ge, from) else Term(key, Le, to);
    assert EntryTerms(key, Range(from, to)) == [t];
    RenderOne(t, n);
  }

  /** An object whose `from` and `to` are both falsy is not a range: it falls
      to the equality branch and binds the object itself as one value. */
  lemma FalsyBoundsBindObject(o: JsObject, key: string, from: Val, to: Val, startIndex: nat)
    requires !Truthy(from) && !Truthy(to)
    ensures var before := WhereClause(Some(o), startIndex);
            var after := WhereClause(Some(o + [(key, Range(from, to))]), startIndex);
            && after.values == before.values + [Range(from, to)]
            && after.nextIndex == before.nextIndex + 1
            && RenderTerms(FilterTerms(o + [(key, Range(from, to))]), startIndex)
               == RenderTerms(FilterTerms(o), startIndex) + [key + " = " + Placeholder(before.nextIndex)]
  {
    var n := WhereClause(Some(o), startIndex).nextIndex;
    EqualityTerm(key, Range(from, to), n);
    AppendedValues(o, key, Range(from, to), startIndex, [Range(from, to)]);
    AppendedConditions(o, key, Range(from, to), startIndex, [key + " = " + Placeholder(n)]);
  }

  /** The three statements that emit one conjunct: push its text with the
      current placeholder, push its value, advance the placeholder number. */
  method Push(conditions: seq<string>, values: seq<Val>, paramIndex: nat, t: Term,
              ghost done: seq<Term>, ghost startIndex: nat)
    returns (conditions': seq<string>, values': seq<Val>, paramIndex': nat)
    requires conditions == RenderTerms(done, startIndex)
    requires values == ValuesOf(done)
    requires paramIndex == startIndex + |done|
    ensures conditions' == RenderTerms(done + [t], startIndex)
    ensures values' == ValuesOf(done + [t])
    ensures paramIndex' == startIndex + |done + [t]|
  {
    PushTerm(done, t, startIndex, paramIndex);
    conditions' := conditions + [RenderTerm(t, paramIndex)];
    values' := values + [t.value];
    paramIndex' := paramIndex + 1;
  }

  /** The body of the loop of `buildWhereClause` for one entry: skip
      `null`/`undefined`; for an object with a truthy `from` or `to` push a
      `>=` and/or `<=` conjunct; otherwise push one equality. */
  method EmitEntry(conditions: seq<string>, values: seq<Val>, paramIndex: nat,
                   key: string, value: Val, ghost done: seq<Term>, ghost startIndex: nat)
    returns (conditions': seq<string>, values': seq<Val>, paramIndex': nat)
    requires conditions == RenderTerms(done, startIndex)
    requires values == ValuesOf(done)
    requires paramIndex == startIndex + |done|
    ensures conditions' == RenderTerms(done + EntryTerms(key, value), startIndex)
    ensures values' == ValuesOf(done + EntryTerms(key, value))
    ensures paramIndex' == startIndex + |done + EntryTerms(key, value)|
  {
    conditions', values', paramIndex' := conditions, values, paramIndex;
    if IsNullish(value) {
      assert done + EntryTerms(key, value) == done;
      return;
    }
    if value.Range? && (Truthy(value.from) || Truthy(value.to)) {
      ghost var mid := done;
      if Truthy(value.from) {
        conditions', values', paramIndex' := Push(conditions', values', paramIndex', Term(key, Ge, value.from), done, startIndex);
        mid := done + [Term(key, Ge, value.from)];
      }
      ghost var after := mid;
      if Truthy(value.to) {
        conditions', values', paramIndex' := Push(conditions', values', paramIndex', Term(key, Le, value.to), mid, startIndex);
        after := mid + [Term(key, Le, value.to)];
      }
      RangeStep(done, mid, after, key, value);
    } else {
      conditions', values', paramIndex' := Push(conditions', values', paramIndex', Term(key, Eq, value), done, startIndex);
    }
  }

  /** `buildWhereClause(filter, startIndex)`: the early return for an absent
      or key-less filter, the loop over the entries in property order, then
      the join. */
  method BuildWhereClause(filter: Option<JsObject>, startIndex: nat) returns (r: Fragment)
    ensures r == WhereClause(filter, startIndex)
  {
    if filter.None? || |filter.value| == 0 {
      return Fragment("", [], startIndex);
    }
    var entries := filter.value;
    var conditions: seq<string> := [];
    var values: seq<Val> := [];
    var paramIndex: nat := startIndex;
    for i := 0 to |entries|
      invariant conditions == RenderTerms(FilterTerms(entries[..i]), startIndex)
      invariant values == ValuesOf(FilterTerms(entries[..i]))
      invariant paramIndex == startIndex + |FilterTerms(entries[..i])|
    {
      FilterTermsStep(entries, i);
      conditions, values, paramIndex :=
        EmitEntry(conditions, values, paramIndex, entries[i].0, entries[i].1, FilterTerms(entries[..i]), startIndex);
    }
    assert entries[..|entries|] == entries;
    var whereClause := if |conditions| > 0 then "WHERE " + Join(conditions, " AND ") else "";
    r := Fragment(whereClause, values, paramIndex);
  }

  /** JavaScript truthiness of an optional number (`undefined` and `null`
      are both `None`). */
  predicate TruthyNumber(n: Option<int>) {
    n.Some? && n.value != 0
  }

  /** `buildPagination(limit, offset)`: `LIMIT n` for a truthy limit,
      `OFFSET m` for a truthy offset, LIMIT first, one space between. */
  function PaginationClause(limit: Option<int>, offset: Option<int>): (clause: string)
    ensures clause == "" <==> !TruthyNumber(limit) && !TruthyNumber(offset)
  {
    if TruthyNumber(limit) && TruthyNumber(offset) then
      "LIMIT " + IntToString(limit.value) + " OFFSET " + IntToString(offset.value)
    else if TruthyNumber(limit) then "LIMIT " + IntToString(limit.value)
    else if TruthyNumber(offset) then "OFFSET " + IntToString(offset.value)
    else ""
  }

  /** The statements of `buildPagination`: push the parts, then join them. */
  method BuildPagination(limit: Option<int>, offset: Option<int>) returns (clause: string)
    ensures clause == PaginationClause(limit, offset)
  {
    var parts: seq<string> := [];
    if TruthyNumber(limit) {
      parts := parts + ["LIMIT " + IntToString(limit.value)];
    }
    if TruthyNumber(offset) {
      parts := parts + ["OFFSET " + IntToString(offset.value)];
    }
    clause := Join(parts, " ");
    if |parts| == 2 {
      assert parts == [parts[0]] + [parts[1]];
      JoinAppend([parts[0]], [parts[1]], " ");
    }
  }

  /** What a pagination clause asks for: the limit and offset it names. */
  function ParsePagination(clause: string): Option<(Option<int>, Option<int>)> {
    if clause == "" then Some((None, None))
    else
      var toks := Split(clause, ' ');
      if |toks| == 2 && toks[0] == "LIMIT" then
        match ParseInt(toks[1])
        case Some(l) => Some((Some(l), None))
        case None => None
      else if |toks| == 2 && toks[0] == "OFFSET" then
        match ParseInt(toks[1])
        case Some(o) => Some((None, Some(o)))
        case None => None
      else if |toks| == 4 && toks[0] == "LIMIT" && toks[2] == "OFFSET" then
        match (ParseInt(toks[1]), ParseInt(toks[3]))
        case (Some(l), Some(o)) => Some((Some(l), Some(o)))
        case _ => None
      else None
  }

  /** A number that survives the truthiness test, or `None`. */
  function Kept(n: Option<int>): Option<int> {
    if TruthyNumber(n) then n else None
  }

  /** Reading the clause back gives exactly the truthy limit and offset:
      a zero or absent one leaves no trace, a truthy one its exact value. */
  lemma PaginationRoundTrip(limit: Option<int>, offset: Option<int>)
    ensures ParsePagination(PaginationClause(limit, offset)) == Some((Kept(limit), Kept(offset)))
  {
    if TruthyNumber(limit) && TruthyNumber(offset) {
      ParseLimitOffset(limit.value, offset.value);
    } else if TruthyNumber(limit) {
      assert "LIMIT " == "LIMIT" + " ";
      ParseOneBound("LIMIT", limit.value);
    } else if TruthyNumber(offset) {
      assert "OFFSET " == "OFFSET" + " ";
      ParseOneBound("OFFSET", offset.value);
      assert "OFFSET" != "LIMIT";
    }
  }

  lemma ParseOneBound(word: string, n: int)
    requires word == "LIMIT" || word == "OFFSET"
    ensures var toks := Split(word + " " + IntToString(n), ' ');
            |toks| == 2 && toks[0] == word && ParseInt(toks[1]) == Some(n)
  {
    var toks := [word, IntToString(n)];
    JoinAppend([word], [IntToString(n)], " ");
    SplitJoin(toks, ' ');
    ParseIntToString(n);
  }

  lemma ParseLimitOffset(l: int, o: int)
    ensures var toks := Split("LIMIT " + IntToString(l) + " OFFSET " + IntToString(o), ' ');
            && |toks| == 4 && toks[0] == "LIMIT" && toks[2] == "OFFSET"
            && ParseInt(toks[1]) == Some(l) && ParseInt(toks[3]) == Some(o)
  {
    var x, y := IntToString(l), IntToString(o);
    LimitOffsetText(x, y);
    LimitOffsetTokens(x, y);
    ParseIntToString(l);
    ParseIntToString(o);
  }

  /** `LIMIT x OFFSET y` is its four words joined by single spaces. */
  lemma LimitOffsetText(x: string, y: string)
    ensures "LIMIT " + x + " OFFSET " + y == Join(["LIMIT", x, "OFFSET", y], " ")
  {
    assert ["LIMIT", x, "OFFSET", y] == ["LIMIT", x] + ["OFFSET", y];
    JoinAppend(["LIMIT"], [x], " ");
    JoinAppend(["OFFSET"], [y], " ");
    JoinAppend(["LIMIT", x], ["OFFSET", y], " ");
    assert "LIMIT " + x + " OFFSET " + y == ("LIMIT" + " " + x) + " " + ("OFFSET" + " " + y);
  }

  /** Splitting the joined words on spaces gives the four words back. */
  lemma LimitOffsetTokens(x: string, y: string)
    requires ' ' !in x && ' ' !in y
    ensures Split(Join(["LIMIT", x, "OFFSET", y], " "), ' ') == ["LIMIT", x, "OFFSET", y]
  {
    var toks := ["LIMIT", x, "OFFSET", y];
    forall i | 0 <= i < |toks| ensures ' ' !in toks[i] {
    }
    SplitJoin(toks, ' ');
  }
}
