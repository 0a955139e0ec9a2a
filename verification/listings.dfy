/** Filters made only of plain equalities, as the read resolvers build them,
    and the clause the filter compiler gives for them. */
module Listings {
  import opened Wrappers
  import opened JsValues
  import opened Text
  import opened QueryBuilder

  /** A value the filter compiler turns into exactly one `key = $N`: neither
      `null`/`undefined` nor an object with a truthy bound. */
  predicate BindsAsEquality(v: Val) {
    !IsNullish(v) && !(v.Range? && (Truthy(v.from) || Truthy(v.to)))
  }

  predicate AllEqualities(entries: JsObject) {
    forall i :: 0 <= i < |entries| ==> BindsAsEquality(entries[i].1)
  }

  /** `{ removed: false }`, the filter every list query starts from. */
  const LiveFilter: JsObject := [("removed", Bool(false))]

  /** The conjuncts of a plain-equality filter, `key = $N` from `start`. */
  function EqParts(entries: JsObject, start: nat): (parts: seq<string>)
    ensures |parts| == |entries|
  {
    seq(|entries|, i requires 0 <= i < |entries| => entries[i].0 + " = " + Placeholder(start + i))
  }

  /** `WHERE k1 = $start AND k2 = $(start+1) ...`, one conjunct per entry. */
  function EqClause(entries: JsObject, start: nat): string {
    "WHERE " + Join(EqParts(entries, start), " AND ")
  }

  /** The entries' values, in order. */
  function EntryValues(entries: JsObject): (vs: seq<Val>)
    ensures |vs| == |entries|
  {
    seq(|entries|, i requires 0 <= i < |entries| => entries[i].1)
  }

  lemma {:induction false} EqualityTerms(entries: JsObject)
    requires AllEqualities(entries)
    ensures FilterTerms(entries) == seq(|entries|, i requires 0 <= i < |entries| => Term(entries[i].0, Eq, entries[i].1))
  {
    if |entries| > 0 {
      var init := entries[..|entries| - 1];
      assert AllEqualities(init) by {
        forall i | 0 <= i < |init| ensures BindsAsEquality(init[i].1) {
          assert init[i] == entries[i];
        }
      }
      EqualityTerms(init);
    }
  }

  lemma EqualityRenderingAt(entries: JsObject, start: nat, i: nat)
    requires AllEqualities(entries) && i < |entries|
    ensures |FilterTerms(entries)| == |entries|
    ensures RenderTerms(FilterTerms(entries), start)[i] == EqParts(entries, start)[i]
  {
    EqualityTermAt(entries, i);
    calc {
      RenderTerms(FilterTerms(entries), start)[i];
      { RenderTermsAt(FilterTerms(entries), start, i); }
      RenderTerm(FilterTerms(entries)[i], start + i);
      RenderTerm(Term(entries[i].0, Eq, entries[i].1), start + i);
      { RenderTermText(Term(entries[i].0, Eq, entries[i].1), start + i); }
      entries[i].0 + " = " + Placeholder(start + i);
    }
  }

  lemma EqualityTermAt(entries: JsObject, i: nat)
    requires AllEqualities(entries) && i < |entries|
    ensures |FilterTerms(entries)| == |entries|
    ensures FilterTerms(entries)[i] == Term(entries[i].0, Eq, entries[i].1)
  {
    EqualityTerms(entries);
  }

  lemma EqualityValues(entries: JsObject)
    requires AllEqualities(entries)
    ensures ValuesOf(FilterTerms(entries)) == EntryValues(entries)
  {
    EqualityTerms(entries);
    var ts := FilterTerms(entries);
    forall i | 0 <= i < |ts|
      ensures ValuesOf(ts)[i] == EntryValues(entries)[i]
    {
      ValuesOfAt(ts, i);
    }
  }

  lemma EqualityRendering(entries: JsObject, start: nat)
    requires AllEqualities(entries)
    ensures RenderTerms(FilterTerms(entries), start) == EqParts(entries, start)
    ensures ValuesOf(FilterTerms(entries)) == EntryValues(entries)
  {
    EqualityTerms(entries);
    forall i | 0 <= i < |entries|
      ensures RenderTerms(FilterTerms(entries), start)[i] == EqParts(entries, start)[i]
    {
      EqualityRenderingAt(entries, start, i);
    }
    EqualityValues(entries);
  }

  /** A non-empty filter of plain equalities compiles to one `key = $N` per
      entry, numbered from the start index, binding the entries' values. */
  lemma PlainFilterClause(entries: JsObject, start: nat)
    requires |entries| > 0 && AllEqualities(entries)
    ensures WhereClause(Some(entries), start) == Fragment(EqClause(entries, start), EntryValues(entries), start + |entries|)
  {
    EqualityRendering(entries, start);
    WhereClauseParts(entries, start);
  }

  /** An entry that binds as an equality is one of the filter's conjuncts. */
  lemma {:induction false} EqualityEntryBound(o: JsObject, j: nat)
    requires j < |o| && BindsAsEquality(o[j].1)
    ensures Term(o[j].0, Eq, o[j].1) in FilterTerms(o)
  {
    var init := o[..|o| - 1];
    if j < |o| - 1 {
      assert init[j] == o[j];
      EqualityEntryBound(init, j);
    }
  }

  /** A property the filter holds with an equality value is compiled: the
      clause is non-empty and binds that value. */
  lemma HeldEqualityBound(f: JsObject, k: string, v: Val, start: nat)
    requires (k, v) in f && BindsAsEquality(v)
    ensures Term(k, Eq, v) in FilterTerms(f)
    ensures var w := WhereClause(Some(f), start); w.clause != "" && v in w.values
  {
    var j :| 0 <= j < |f| && f[j] == (k, v);
    EqualityEntryBound(f, j);
    TermValueBound(FilterTerms(f), Term(k, Eq, v));
    WhereClauseParts(f, start);
  }

  /** A conjunct's value is among the bound values. */
  lemma TermValueBound(ts: seq<Term>, t: Term)
    requires t in ts
    ensures t.value in ValuesOf(ts)
  {
    var i :| 0 <= i < |ts| && ts[i] == t;
    ValuesOfAt(ts, i);
  }

  lemma LiveFilterParts()
    ensures EqParts(LiveFilter, 1) == ["removed = $1"]
  {
    var parts := EqParts(LiveFilter, 1);
    assert Placeholder(1) == "$1";
    assert parts[0] == "removed" + " = " + "$1";
    assert "removed" + " = " + "$1" == "removed = $1";
    assert |parts| == 1;
  }

  /** `{ removed: false }` alone compiles to `WHERE removed = $1` binding `false`. */
  lemma LiveFilterClause()
    ensures WhereClause(Some(LiveFilter), 1) == Fragment("WHERE removed = $1", [Bool(false)], 2)
  {
    calc {
      WhereClause(Some(LiveFilter), 1);
      { PlainFilterClause(LiveFilter, 1); }
      Fragment(EqClause(LiveFilter, 1), EntryValues(LiveFilter), 2);
      { LiveFilterText(); }
      Fragment("WHERE removed = $1", EntryValues(LiveFilter), 2);
      { assert EntryValues(LiveFilter) == [Bool(false)]; }
      Fragment("WHERE removed = $1", [Bool(false)], 2);
    }
  }

  lemma LiveFilterText()
    ensures EqClause(LiveFilter, 1) == "WHERE removed = $1"
  {
    LiveFilterParts();
    LiveJoin();
  }

  /** The one-conjunct clause written as a join. */
  lemma LiveJoin()
    ensures "WHERE " + Join(["removed = $1"], " AND ") == "WHERE removed = $1"
  {
    assert Join(["removed = $1"], " AND ") == "removed = $1";
  }

  /** JavaScript truthiness of an optional id argument: present and not `''`. */
  predicate TruthyId(id: Option<string>) {
    id.Some? && id.value != ""
  }

  /** The entry `if (args.id) filter.key = args.id` adds, if any. */
  function Optional(key: string, id: Option<string>): (o: JsObject)
    ensures |o| <= 1 && AllEqualities(o)
  {
    if TruthyId(id) then [(key, Str(id.value))] else []
  }

  /** The value that entry binds, if any. */
  function OptionalValue(id: Option<string>): (vs: seq<Val>)
    ensures |vs| == (if TruthyId(id) then 1 else 0)
  {
    if TruthyId(id) then [Str(id.value)] else []
  }

  /** Assigning a property the object does not have appends it. */
  lemma AppendNewKey(o: JsObject, k: string, v: Val)
    requires forall i :: 0 <= i < |o| ==> o[i].0 != k
    ensures SetProp(o, k, v) == o + [(k, v)]
  {
  }

  /** `{ removed: false }` followed by plain equalities: `removed` takes `$1`
      and the added entries take `$2`, `$3`, ... in the order they were added. */
  lemma LiveFilterWith(extra: JsObject)
    requires AllEqualities(extra)
    ensures WhereClause(Some(LiveFilter + extra), 1)
            == Fragment("WHERE " + Join(["removed = $1"] + EqParts(extra, 2), " AND "),
                        [Bool(false)] + EntryValues(extra), 2 + |extra|)
  {
    var f := LiveFilter + extra;
    assert AllEqualities(f) by {
      forall i | 0 <= i < |f| ensures BindsAsEquality(f[i].1) {
        if i > 0 {
          assert f[i] == extra[i - 1];
        }
      }
    }
    PlainFilterClause(f, 1);
    LiveFilterParts();
    var parts := EqParts(f, 1);
    forall i | 0 <= i < |f|
      ensures parts[i] == (["removed = $1"] + EqParts(extra, 2))[i]
      ensures EntryValues(f)[i] == ([Bool(false)] + EntryValues(extra))[i]
    {
      if i == 0 {
        assert parts[0] == EqParts(LiveFilter, 1)[0];
      } else {
        assert f[i] == extra[i - 1];
        assert 1 + i == 2 + (i - 1);
      }
    }
    assert parts == ["removed = $1"] + EqParts(extra, 2);
    assert EntryValues(f) == [Bool(false)] + EntryValues(extra);
  }

  /** `{ removed: false }` plus the optional `key: id`: the key's conjunct
      comes second, at `$2`, and only for a truthy id. */
  lemma LiveFilterWithOptional(key: string, id: Option<string>, conjunct: string)
    requires conjunct == key + " = " + Placeholder(2)
    ensures WhereClause(Some(LiveFilter + Optional(key, id)), 1)
            == Fragment("WHERE " + Join(["removed = $1"] + (if TruthyId(id) then [conjunct] else []), " AND "),
                        [Bool(false)] + OptionalValue(id), 2 + |OptionalValue(id)|)
  {
    var extra := Optional(key, id);
    LiveFilterWith(extra);
    if TruthyId(id) {
      assert EqParts(extra, 2) == [conjunct];
      assert EntryValues(extra) == OptionalValue(id);
    } else {
      assert EqParts(extra, 2) == [];
    }
  }

  /** `{ removed: false }` plus two optional keys, in that order: each
      present key takes the next placeholder after `removed`'s `$1`. */
  lemma LiveFilterWithOptionals(k1: string, id1: Option<string>, k2: string, id2: Option<string>,
                                c1: string, c2At2: string, c2At3: string)
    requires c1 == k1 + " = " + Placeholder(2)
    requires c2At2 == k2 + " = " + Placeholder(2) && c2At3 == k2 + " = " + Placeholder(3)
    ensures WhereClause(Some(LiveFilter + Optional(k1, id1) + Optional(k2, id2)), 1)
            == Fragment("WHERE " + Join(["removed = $1"] + (if TruthyId(id1) then [c1] else [])
                                        + (if TruthyId(id2) then [if TruthyId(id1) then c2At3 else c2At2] else []), " AND "),
                        [Bool(false)] + OptionalValue(id1) + OptionalValue(id2),
                        2 + |OptionalValue(id1)| + |OptionalValue(id2)|)
  {
    var o1, o2 := Optional(k1, id1), Optional(k2, id2);
    var c2 := if TruthyId(id1) then c2At3 else c2At2;
    var parts1, parts2 := if TruthyId(id1) then [c1] else [], if TruthyId(id2) then [c2] else [];
    OptionalsEqualities(k1, id1, k2, id2);
    ConcatAssoc(LiveFilter, o1, o2);
    LiveFilterWith(o1 + o2);
    OptionalsParts(k1, id1, k2, id2, c1, c2At2, c2At3);
    OptionalsValues(k1, id1, k2, id2);
    ConcatAssoc(["removed = $1"], parts1, parts2);
    ConcatAssoc([Bool(false)], OptionalValue(id1), OptionalValue(id2));
  }

  lemma OptionalsEqualities(k1: string, id1: Option<string>, k2: string, id2: Option<string>)
    ensures AllEqualities(Optional(k1, id1) + Optional(k2, id2))
  {
    var o1, o2 := Optional(k1, id1), Optional(k2, id2);
    var o: JsObject := o1 + o2;
    forall i | 0 <= i < |o| ensures BindsAsEquality(o[i].1) {
      if i >= |o1| {
        assert o[i] == o2[i - |o1|];
      }
    }
  }

  /** The conjuncts of the two optional entries, numbered from `$2`. */
  lemma OptionalsParts(k1: string, id1: Option<string>, k2: string, id2: Option<string>,
                       c1: string, c2At2: string, c2At3: string)
    requires c1 == k1 + " = " + Placeholder(2)
    requires c2At2 == k2 + " = " + Placeholder(2) && c2At3 == k2 + " = " + Placeholder(3)
    ensures EqParts(Optional(k1, id1) + Optional(k2, id2), 2)
            == (if TruthyId(id1) then [c1] else [])
               + (if TruthyId(id2) then [if TruthyId(id1) then c2At3 else c2At2] else [])
  {
  }

  lemma OptionalsValues(k1: string, id1: Option<string>, k2: string, id2: Option<string>)
    ensures EntryValues(Optional(k1, id1) + Optional(k2, id2)) == OptionalValue(id1) + OptionalValue(id2)
  {
  }

  /** An entry whose value is `null` changes nothing in any filter. */
  lemma NullEntryIgnored(o: JsObject, k: string, start: nat)
    ensures WhereClause(Some(o + [(k, Null)]), start) == WhereClause(Some(o), start)
  {
    FilterTermsSnoc(o, k, Null);
    if |o| > 0 {
      SameTermsSameClause(o + [(k, Null)], o, start);
    }
  }

  lemma SameTermsSameClause(a: JsObject, b: JsObject, start: nat)
    requires |a| > 0 && |b| > 0 && FilterTerms(a) == FilterTerms(b)
    ensures WhereClause(Some(a), start) == WhereClause(Some(b), start)
  {
  }
}
