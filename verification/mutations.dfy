/** The `update*` and `delete*` mutations of the lookup and master-data
    tables. An update assigns, in a fixed declared order, every column whose
    input property is not `undefined` (so an explicit `null` is assigned),
    binds the key value(s) last and only touches a row not soft-deleted; a
    delete soft-deletes by key. The database is absent: how many rows the
    statement returned is a parameter. */
module Mutations {
  import opened Wrappers
  import opened JsValues
  import opened Text
  import opened QueryBuilder
  import opened ReadBack

  /** A table written by an update/delete pair: its name, the columns an
      update may assign in their declared order, its key column(s), and the
      errors for an update and for a delete that matched no live row. */
  datatype Entity = Entity(table: string, columns: seq<string>, keyColumns: seq<string>,
                           notFound: string, notDeleted: string)

  /** Names that stay single words in the statement text. */
  predicate WellFormed(e: Entity) {
    && ' ' !in e.table
    && (forall i :: 0 <= i < |e.columns| ==> ' ' !in e.columns[i])
    && |e.keyColumns| > 0
    && (forall i :: 0 <= i < |e.keyColumns| ==> ' ' !in e.keyColumns[i])
  }

  /** No declared column has a property in the input other than `undefined`. */
  predicate NoFields(columns: seq<string>, input: JsObject) {
    forall i :: 0 <= i < |columns| ==> Get(input, columns[i]) == Undefined
  }

  /** The assignments of a partial update: `column = value` for each
      declared column, in order, whose input property is not `undefined`. */
  function SetTerms(columns: seq<string>, input: JsObject): (ts: seq<Term>)
    ensures |ts| <= |columns|
    ensures |ts| == 0 <==> forall i :: 0 <= i < |columns| ==> Get(input, columns[i]) == Undefined
  {
    if |columns| == 0 then []
    else
      var c := columns[|columns| - 1];
      SetTerms(columns[..|columns| - 1], input)
      + (if Get(input, c) != Undefined then [Term(c, Eq, Get(input, c))] else [])
  }

  /** The key conditions `key = value`, one per key column. */
  function KeyTerms(keyColumns: seq<string>, keyValues: seq<Val>): (ts: seq<Term>)
    requires |keyColumns| == |keyValues|
    ensures |ts| == |keyColumns|
  {
    seq(|keyColumns|, i requires 0 <= i < |keyColumns| => Term(keyColumns[i], Eq, keyValues[i]))
  }

  lemma KeyTermsOne(c: string, v: Val)
    ensures KeyTerms([c], [v]) == [Term(c, Eq, v)]
  {
  }

  /** `WHERE <keys> AND removed = FALSE RETURNING *`: the key conditions
      numbered from `n`, restricted to rows not soft-deleted. */
  function LiveWhere(keys: seq<Term>, n: nat): string {
    "WHERE " + Join(RenderTerms(keys, n), " AND ") + " AND removed = FALSE RETURNING *"
  }

  /** The statement an `update*` mutation runs, or its 'No fields to update'
      error. Assignments take `$1..$n`, the keys `$(n+1)...` after them. */
  function UpdateStatement(e: Entity, keyValues: seq<Val>, input: JsObject): (r: Result<Statement, string>)
    requires |keyValues| == |e.keyColumns|
    ensures r.Failure? <==> NoFields(e.columns, input)
    ensures r.Failure? ==> r.error == "No fields to update"
    ensures r.Success? ==> |r.value.values| == |SetTerms(e.columns, input)| + |keyValues|
                           && r.value.values[(|r.value.values| - |keyValues|)..] == keyValues
  {
    var changes := SetTerms(e.columns, input);
    if |changes| == 0 then Failure("No fields to update")
    else
      var keys := KeyTerms(e.keyColumns, keyValues);
      var values := ValuesOf(changes) + keyValues;
      assert values[|values| - |keyValues|..] == keyValues;
      Success(Statement(
        "UPDATE " + e.table + " SET " + Join(RenderTerms(changes, 1), ", ") + " " + LiveWhere(keys, |changes| + 1),
        values))
  }

  lemma SetTermsStep(columns: seq<string>, input: JsObject, i: nat)
    requires i < |columns|
    ensures SetTerms(columns[..i + 1], input)
            == SetTerms(columns[..i], input)
               + (if Get(input, columns[i]) != Undefined then [Term(columns[i], Eq, Get(input, columns[i]))] else [])
  {
    assert columns[..i + 1][..i] == columns[..i];
  }

  /** The statements of an `update*` mutation: the assignments, the empty
      check, the key value(s) pushed last, then the template. */
  method CompileUpdate(e: Entity, keyValues: seq<Val>, input: JsObject) returns (r: Result<Statement, string>)
    requires |keyValues| == |e.keyColumns|
    ensures r == UpdateStatement(e, keyValues, input)
  {
    var updates, values, paramIndex := CollectAssignments(e.columns, input);
    if |updates| == 0 {
      return Failure("No fields to update");
    }
    values := values + keyValues;
    var keyConditions := RenderTerms(KeyTerms(e.keyColumns, keyValues), paramIndex);
    r := Success(Statement(
      "UPDATE " + e.table + " SET " + Join(updates, ", ")
      + " WHERE " + Join(keyConditions, " AND ") + " AND removed = FALSE RETURNING *",
      values));
    WhereTail("UPDATE " + e.table + " SET " + Join(updates, ", "), Join(keyConditions, " AND "));
    UpdateTextShape(e, keyValues, input);
  }

  lemma WhereTail(prefix: string, keys: string)
    ensures prefix + " WHERE " + keys + " AND removed = FALSE RETURNING *"
            == prefix + " " + ("WHERE " + keys + " AND removed = FALSE RETURNING *")
  {
  }

  /** The run of `if (input.column !== undefined)` blocks, one per declared
      column, each pushing `column = $k` and the value and advancing the
      placeholder number. */
  method CollectAssignments(columns: seq<string>, input: JsObject)
    returns (updates: seq<string>, values: seq<Val>, paramIndex: nat)
    ensures updates == RenderTerms(SetTerms(columns, input), 1)
    ensures values == ValuesOf(SetTerms(columns, input))
    ensures paramIndex == 1 + |SetTerms(columns, input)|
  {
    updates, values, paramIndex := [], [], 1;
    for i := 0 to |columns|
      invariant updates == RenderTerms(SetTerms(columns[..i], input), 1)
      invariant values == ValuesOf(SetTerms(columns[..i], input))
      invariant paramIndex == 1 + |SetTerms(columns[..i], input)|
    {
      SetTermsStep(columns, input, i);
      var column := columns[i];
      var v := Get(input, column);
      if v != Undefined {
        PushTerm(SetTerms(columns[..i], input), Term(column, Eq, v), 1, paramIndex);
        RenderTermText(Term(column, Eq, v), paramIndex);
        assert RenderTerm(Term(column, Eq, v), paramIndex) == column + " = " + Placeholder(paramIndex);
        updates := updates + [column + " = " + Placeholder(paramIndex)];
        values := values + [v];
        paramIndex := paramIndex + 1;
      } else {
        assert SetTerms(columns[..i + 1], input) == SetTerms(columns[..i], input);
      }
    }
    assert columns[..|columns|] == columns;
  }

  /** The statement a `delete*` mutation runs: a soft delete by key. */
  function DeleteStatement(e: Entity, keyValues: seq<Val>): (s: Statement)
    requires |keyValues| == |e.keyColumns|
    ensures s.values == keyValues
  {
    Statement("UPDATE " + e.table + " SET removed = TRUE " + LiveWhere(KeyTerms(e.keyColumns, keyValues), 1), keyValues)
  }

  // Reading the statements back.

  const LiveSuffix: seq<string> := ["AND", "removed", "=", "FALSE", "RETURNING", "*"]

  const SoftDeleteSet: seq<string> := ["SET", "removed", "=", "TRUE"]

  /** `WHERE k1 = $a AND ... AND removed = FALSE RETURNING *` read back. */
  function DecodeLiveKeys(toks: seq<string>, values: seq<Val>, base: nat): Option<seq<Term>> {
    if |toks| >= 7 && toks[0] == "WHERE" && toks[|toks| - 6..] == LiveSuffix then
      DecodeConj(toks[1..|toks| - 6], values, base)
    else None
  }

  /** An update statement read back: the table, the assignments and the
      key conditions, each with the value its placeholder binds. */
  function DecodeUpdate(text: string, values: seq<Val>): Option<(string, seq<Term>, seq<Term>)> {
    DecodeUpdateWords(Split(text, ' '), values)
  }

  function DecodeUpdateWords(toks: seq<string>, values: seq<Val>): Option<(string, seq<Term>, seq<Term>)> {
    if |toks| >= 3 && toks[0] == "UPDATE" && toks[2] == "SET" then
      match DecodeSet(toks[3..], values, 1)
      case None => None
      case Some((changes, tail)) =>
        (match DecodeLiveKeys(tail, values, 1)
         case Some(keys) => Some((toks[1], changes, keys))
         case None => None)
    else None
  }

  /** A soft delete read back: the table and the key conditions. */
  function DecodeSoftDelete(text: string, values: seq<Val>): Option<(string, seq<Term>)> {
    DecodeSoftDeleteWords(Split(text, ' '), values)
  }

  function DecodeSoftDeleteWords(toks: seq<string>, values: seq<Val>): Option<(string, seq<Term>)> {
    if |toks| >= 6 && toks[0] == "UPDATE" && toks[2..6] == SoftDeleteSet then
      match DecodeLiveKeys(toks[6..], values, 1)
      case Some(keys) => Some((toks[1], keys))
      case None => None
    else None
  }

  lemma SuffixFromRemoved()
    ensures Join(LiveSuffix[1..], " ") == "removed = FALSE RETURNING *"
  {
    var w := LiveSuffix;
    SuffixFromEquals();
    assert w[1..] == [w[1]] + w[2..];
    JoinCons(w[1], w[2..], " ");
  }

  lemma SuffixFromEquals()
    ensures Join(LiveSuffix[2..], " ") == "= FALSE RETURNING *"
  {
    var w := LiveSuffix;
    SuffixFromFalse();
    assert w[2..] == [w[2]] + w[3..];
    JoinCons(w[2], w[3..], " ");
  }

  lemma SuffixFromFalse()
    ensures Join(LiveSuffix[3..], " ") == "FALSE RETURNING *"
  {
    var w := LiveSuffix;
    assert w[4..] == [w[4]] + w[5..];
    JoinCons(w[4], w[5..], " ");
    assert w[3..] == [w[3]] + w[4..];
    JoinCons(w[3], w[4..], " ");
  }

  /** The text after the key conditions is its words joined by spaces. */
  lemma LiveTailText()
    ensures " AND removed = FALSE RETURNING *" == " " + Join(LiveSuffix, " ")
  {
    var w := LiveSuffix;
    SuffixFromRemoved();
    assert w == [w[0]] + w[1..];
    JoinCons(w[0], w[1..], " ");
    AndTailLiteral();
  }

  lemma AndTailLiteral()
    ensures " AND removed = FALSE RETURNING *" == " " + ("AND" + " " + "removed = FALSE RETURNING *")
  {
  }

  /** The words after the assignments (or after `SET removed = TRUE`):
      `WHERE`, the key conditions, the live-row test and `RETURNING *`. */
  lemma LiveKeysText(keys: seq<Term>, n: nat)
    requires |keys| > 0
    ensures Join(["WHERE"] + ConjTokens(keys, n) + LiveSuffix, " ") == LiveWhere(keys, n)
  {
    var ct := ConjTokens(keys, n);
    var k, l := Join(ct, " "), Join(LiveSuffix, " ");
    calc {
      Join(["WHERE"] + ct + LiveSuffix, " ");
      { assert ["WHERE"] + ct + LiveSuffix == ["WHERE"] + (ct + LiveSuffix); }
      Join(["WHERE"] + (ct + LiveSuffix), " ");
      { JoinCons("WHERE", ct + LiveSuffix, " "); }
      "WHERE" + " " + Join(ct + LiveSuffix, " ");
      { JoinAppend(ct, LiveSuffix, " "); }
      "WHERE" + " " + (k + " " + l);
      { ConcatAssoc(k, " ", l); ConcatAssoc("WHERE" + " ", k, " " + l); }
      ("WHERE" + " ") + k + (" " + l);
      { assert "WHERE" + " " == "WHERE "; }
      "WHERE " + k + (" " + l);
      { ConjTokensJoin(keys, n); LiveTailText(); }
      "WHERE " + Join(RenderTerms(keys, n), " AND ") + " AND removed = FALSE RETURNING *";
    }
  }

  lemma {:induction false} SetTermsColumns(columns: seq<string>, input: JsObject)
    ensures forall j :: 0 <= j < |SetTerms(columns, input)| ==> SetTerms(columns, input)[j].column in columns
  {
    if |columns| > 0 {
      SetTermsColumns(columns[..|columns| - 1], input);
    }
  }

  /** The words of an update statement. */
  function UpdateTokens(e: Entity, keyValues: seq<Val>, input: JsObject): seq<string>
    requires |keyValues| == |e.keyColumns| && |e.keyColumns| > 0
    requires |SetTerms(e.columns, input)| > 0
  {
    ["UPDATE"] + ([e.table] + (["SET"] + UpdateTail(e, keyValues, input)))
  }

  lemma UpdateTextIsJoin(e: Entity, keyValues: seq<Val>, input: JsObject)
    requires |keyValues| == |e.keyColumns| && |e.keyColumns| > 0
    requires |SetTerms(e.columns, input)| > 0
    ensures UpdateStatement(e, keyValues, input).value.text == Join(UpdateTokens(e, keyValues, input), " ")
  {
    calc {
      UpdateStatement(e, keyValues, input).value.text;
      { UpdateTextWords(e, keyValues, input); }
      "UPDATE" + " " + (e.table + " " + ("SET" + " " + (Join(RenderTerms(SetTerms(e.columns, input), 1), ", ") + " "
      + LiveWhere(KeyTerms(e.keyColumns, keyValues), |SetTerms(e.columns, input)| + 1))));
      { UpdateTailIsJoin(e, keyValues, input); }
      "UPDATE" + " " + (e.table + " " + ("SET" + " " + Join(UpdateTail(e, keyValues, input), " ")));
      { JoinCons("SET", UpdateTail(e, keyValues, input), " "); }
      "UPDATE" + " " + (e.table + " " + Join(["SET"] + UpdateTail(e, keyValues, input), " "));
      { JoinCons(e.table, ["SET"] + UpdateTail(e, keyValues, input), " "); }
      "UPDATE" + " " + Join([e.table] + (["SET"] + UpdateTail(e, keyValues, input)), " ");
      { JoinCons("UPDATE", [e.table] + (["SET"] + UpdateTail(e, keyValues, input)), " "); }
      Join(["UPDATE"] + ([e.table] + (["SET"] + UpdateTail(e, keyValues, input))), " ");
    }
  }

  /** The words after `SET`: the assignments, then the live key test. */
  function UpdateTail(e: Entity, keyValues: seq<Val>, input: JsObject): seq<string>
    requires |keyValues| == |e.keyColumns| && |e.keyColumns| > 0
    requires |SetTerms(e.columns, input)| > 0
  {
    SetTokens(SetTerms(e.columns, input), 1)
    + (["WHERE"] + ConjTokens(KeyTerms(e.keyColumns, keyValues), |SetTerms(e.columns, input)| + 1) + LiveSuffix)
  }

  lemma UpdateTailIsJoin(e: Entity, keyValues: seq<Val>, input: JsObject)
    requires |keyValues| == |e.keyColumns| && |e.keyColumns| > 0
    requires |SetTerms(e.columns, input)| > 0
    ensures Join(RenderTerms(SetTerms(e.columns, input), 1), ", ") + " "
            + LiveWhere(KeyTerms(e.keyColumns, keyValues), |SetTerms(e.columns, input)| + 1)
            == Join(UpdateTail(e, keyValues, input), " ")
  {
    var changes := SetTerms(e.columns, input);
    var keys := KeyTerms(e.keyColumns, keyValues);
    SetTokensJoin(changes, 1);
    LiveKeysText(keys, |changes| + 1);
    JoinAppend(SetTokens(changes, 1), ["WHERE"] + ConjTokens(keys, |changes| + 1) + LiveSuffix, " ");
  }

  lemma UpdateTextWords(e: Entity, keyValues: seq<Val>, input: JsObject)
    requires |keyValues| == |e.keyColumns|
    requires |SetTerms(e.columns, input)| > 0
    ensures var changes := SetTerms(e.columns, input);
            UpdateStatement(e, keyValues, input).value.text
            == "UPDATE" + " " + (e.table + " " + ("SET" + " " + (Join(RenderTerms(changes, 1), ", ") + " "
               + LiveWhere(KeyTerms(e.keyColumns, keyValues), |changes| + 1))))
  {
    var changes := SetTerms(e.columns, input);
    var sets, w := Join(RenderTerms(changes, 1), ", "), LiveWhere(KeyTerms(e.keyColumns, keyValues), |changes| + 1);
    UpdateTextShape(e, keyValues, input);
    UpdatePrefix(e.table);
    Words5("UPDATE", e.table, "SET", sets, w);
  }

  lemma UpdatePrefix(table: string)
    ensures "UPDATE" + " " + table + " " + "SET" + " " == "UPDATE " + table + " SET "
  {
  }

  lemma UpdateTextShape(e: Entity, keyValues: seq<Val>, input: JsObject)
    requires |keyValues| == |e.keyColumns|
    requires |SetTerms(e.columns, input)| > 0
    ensures var changes := SetTerms(e.columns, input);
            UpdateStatement(e, keyValues, input).value.text
            == "UPDATE " + e.table + " SET " + Join(RenderTerms(changes, 1), ", ") + " "
               + LiveWhere(KeyTerms(e.keyColumns, keyValues), |changes| + 1)
  {
  }

  lemma Words5(a: string, b: string, c: string, d: string, e: string)
    ensures a + " " + (b + " " + (c + " " + (d + " " + e))) == a + " " + b + " " + c + " " + d + " " + e
  {
  }

  lemma UpdateTokensNoSpace(e: Entity, keyValues: seq<Val>, input: JsObject)
    requires WellFormed(e) && |keyValues| == |e.keyColumns|
    requires |SetTerms(e.columns, input)| > 0
    ensures forall i :: 0 <= i < |UpdateTokens(e, keyValues, input)| ==> ' ' !in UpdateTokens(e, keyValues, input)[i]
  {
    var changes := SetTerms(e.columns, input);
    var keys := KeyTerms(e.keyColumns, keyValues);
    SetTermsColumns(e.columns, input);
    SetTokensNoSpace(changes, 1);
    ConjTokensNoSpace(keys, |changes| + 1);
  }

  /** Round trip of the update compiler: the database reading the statement
      with its values updates table `e.table`, assigning exactly the present
      columns in declared order to their input values, on the row whose key
      column(s) equal the given key value(s) -- so the key placeholders
      follow the assignment placeholders without colliding with them. */
  lemma UpdateRoundTrip(e: Entity, keyValues: seq<Val>, input: JsObject)
    requires WellFormed(e) && |keyValues| == |e.keyColumns|
    requires UpdateStatement(e, keyValues, input).Success?
    ensures var s := UpdateStatement(e, keyValues, input).value;
            DecodeUpdate(s.text, s.values)
            == Some((e.table, SetTerms(e.columns, input), KeyTerms(e.keyColumns, keyValues)))
  {
    calc {
      DecodeUpdate(UpdateStatement(e, keyValues, input).value.text, UpdateStatement(e, keyValues, input).value.values);
      { UpdateSplit(e, keyValues, input); UpdateValues(e, keyValues, input); }
      DecodeUpdateWords(UpdateTokens(e, keyValues, input), ValuesOf(SetTerms(e.columns, input)) + keyValues);
      { UpdateWordsRead(e, keyValues, input); }
      Some((e.table, SetTerms(e.columns, input), KeyTerms(e.keyColumns, keyValues)));
    }
  }

  /** The words of an update, read with its values, give back the table,
      the assignments and the key conditions. */
  lemma UpdateWordsRead(e: Entity, keyValues: seq<Val>, input: JsObject)
    requires WellFormed(e) && |keyValues| == |e.keyColumns|
    requires |SetTerms(e.columns, input)| > 0
    ensures DecodeUpdateWords(UpdateTokens(e, keyValues, input), ValuesOf(SetTerms(e.columns, input)) + keyValues)
            == Some((e.table, SetTerms(e.columns, input), KeyTerms(e.keyColumns, keyValues)))
  {
    calc {
      DecodeUpdateWords(UpdateTokens(e, keyValues, input), ValuesOf(SetTerms(e.columns, input)) + keyValues);
      { UpdateTokensShape(e, keyValues, input); }
      DecodeUpdateWords(["UPDATE"] + ([e.table] + (["SET"] + (SetTokens(SetTerms(e.columns, input), 1)
        + (["WHERE"] + ConjTokens(KeyTerms(e.keyColumns, keyValues), |SetTerms(e.columns, input)| + 1) + LiveSuffix)))),
        ValuesOf(SetTerms(e.columns, input)) + keyValues);
      { KeyTermsValues(e.keyColumns, keyValues);
        DecodeUpdateWordsWith(e.table, SetTerms(e.columns, input), KeyTerms(e.keyColumns, keyValues), keyValues); }
      Some((e.table, SetTerms(e.columns, input), KeyTerms(e.keyColumns, keyValues)));
    }
  }

  lemma KeyTermsValues(keyColumns: seq<string>, keyValues: seq<Val>)
    requires |keyColumns| == |keyValues|
    ensures forall i :: 0 <= i < |keyValues| ==> KeyTerms(keyColumns, keyValues)[i].value == keyValues[i]
  {
  }

  /** The update words read with the assignments' values followed by the key values. */
  lemma DecodeUpdateWordsWith(table: string, changes: seq<Term>, keys: seq<Term>, keyValues: seq<Val>)
    requires |changes| > 0 && |keys| > 0 && |keys| == |keyValues|
    requires forall i :: 0 <= i < |keyValues| ==> keys[i].value == keyValues[i]
    ensures DecodeUpdateWords(
              ["UPDATE"] + ([table] + (["SET"] + (SetTokens(changes, 1)
              + (["WHERE"] + ConjTokens(keys, |changes| + 1) + LiveSuffix)))), ValuesOf(changes) + keyValues)
            == Some((table, changes, keys))
  {
    ValuesThenKeys(changes, keyValues, keys);
    DecodeUpdateWordsOf(table, changes, keys, ValuesOf(changes) + keyValues);
  }

  lemma UpdateTokensShape(e: Entity, keyValues: seq<Val>, input: JsObject)
    requires |keyValues| == |e.keyColumns| && |e.keyColumns| > 0
    requires |SetTerms(e.columns, input)| > 0
    ensures UpdateTokens(e, keyValues, input)
            == ["UPDATE"] + ([e.table] + (["SET"] + (SetTokens(SetTerms(e.columns, input), 1)
               + (["WHERE"] + ConjTokens(KeyTerms(e.keyColumns, keyValues), |SetTerms(e.columns, input)| + 1) + LiveSuffix))))
  {
  }

  lemma DecodeUpdateWordsOf(table: string, changes: seq<Term>, keys: seq<Term>, values: seq<Val>)
    requires |changes| > 0 && |keys| > 0 && |changes| + |keys| <= |values|
    requires forall i :: 0 <= i < |changes| ==> values[1 - 1 + i] == changes[i].value
    requires forall i :: 0 <= i < |keys| ==> values[|changes| + 1 - 1 + i] == keys[i].value
    ensures DecodeUpdateWords(
              ["UPDATE"] + ([table] + (["SET"] + (SetTokens(changes, 1)
              + (["WHERE"] + ConjTokens(keys, |changes| + 1) + LiveSuffix)))), values)
            == Some((table, changes, keys))
  {
    var tail := ["WHERE"] + ConjTokens(keys, |changes| + 1) + LiveSuffix;
    var toks := ["UPDATE"] + ([table] + (["SET"] + (SetTokens(changes, 1) + tail)));
    assert toks[3..] == SetTokens(changes, 1) + tail;
    DecodeSetTokens(changes, 1, values, 1, tail);
    DecodeLiveKeysTokens(keys, |changes| + 1, values, 1);
  }

  lemma UpdateSplit(e: Entity, keyValues: seq<Val>, input: JsObject)
    requires WellFormed(e) && |keyValues| == |e.keyColumns|
    requires UpdateStatement(e, keyValues, input).Success?
    ensures Split(UpdateStatement(e, keyValues, input).value.text, ' ') == UpdateTokens(e, keyValues, input)
  {
    UpdateTextIsJoin(e, keyValues, input);
    UpdateTokensNoSpace(e, keyValues, input);
    SplitJoin(UpdateTokens(e, keyValues, input), ' ');
  }

  /** Value `i` (from 0) is the one placeholder `$(i+1)` binds: first the
      assignments' values, then the key values. */
  lemma ValuesThenKeys(changes: seq<Term>, keyValues: seq<Val>, keys: seq<Term>)
    requires |keys| == |keyValues|
    requires forall i :: 0 <= i < |keys| ==> keys[i].value == keyValues[i]
    ensures |ValuesOf(changes) + keyValues| == |changes| + |keyValues|
    ensures forall i :: 0 <= i < |changes| ==> (ValuesOf(changes) + keyValues)[1 - 1 + i] == changes[i].value
    ensures forall i :: 0 <= i < |keys| ==> (ValuesOf(changes) + keyValues)[|changes| + 1 - 1 + i] == keys[i].value
  {
    forall i | 0 <= i < |changes|
      ensures (ValuesOf(changes) + keyValues)[1 - 1 + i] == changes[i].value
    {
      ValuesOfAt(changes, i);
    }
  }

  lemma UpdateValues(e: Entity, keyValues: seq<Val>, input: JsObject)
    requires |keyValues| == |e.keyColumns|
    requires UpdateStatement(e, keyValues, input).Success?
    ensures UpdateStatement(e, keyValues, input).value.values == ValuesOf(SetTerms(e.columns, input)) + keyValues
  {
  }

  /** Reading back the words after the assignments restores the keys. */
  lemma DecodeLiveKeysTokens(keys: seq<Term>, n: nat, values: seq<Val>, base: nat)
    requires |keys| > 0 && base <= n && n - base + |keys| <= |values|
    requires forall i :: 0 <= i < |keys| ==> values[n - base + i] == keys[i].value
    ensures DecodeLiveKeys(["WHERE"] + ConjTokens(keys, n) + LiveSuffix, values, base) == Some(keys)
  {
    var tail := ["WHERE"] + ConjTokens(keys, n) + LiveSuffix;
    assert tail[1..|tail| - 6] == ConjTokens(keys, n);
    assert tail[|tail| - 6..] == LiveSuffix;
    DecodeConjTokens(keys, n, values, base);
  }

  /** The words of a soft delete. */
  function DeleteTokens(e: Entity, keyValues: seq<Val>): seq<string>
    requires |keyValues| == |e.keyColumns| && |e.keyColumns| > 0
  {
    ["UPDATE"] + ([e.table] + (SoftDeleteSet
    + (["WHERE"] + ConjTokens(KeyTerms(e.keyColumns, keyValues), 1) + LiveSuffix)))
  }

  lemma SoftDeleteWords(table: string, w: string)
    ensures "UPDATE " + table + " SET removed = TRUE " + w
            == "UPDATE" + " " + (table + " " + (Join(SoftDeleteSet, " ") + " " + w))
  {
    var m := SoftDeleteSet;
    JoinCons("=", ["TRUE"], " ");
    assert m[2..] == ["=", "TRUE"];
    JoinCons("removed", m[2..], " ");
    assert m[1..] == ["removed"] + m[2..];
    JoinCons("SET", m[1..], " ");
    assert m == ["SET"] + m[1..];
  }

  lemma DeleteSplit(e: Entity, keyValues: seq<Val>)
    requires WellFormed(e) && |keyValues| == |e.keyColumns|
    ensures Split(DeleteStatement(e, keyValues).text, ' ') == DeleteTokens(e, keyValues)
  {
    DeleteTextIsJoin(e, keyValues);
    DeleteTokensNoSpace(e, keyValues);
    SplitJoin(DeleteTokens(e, keyValues), ' ');
  }

  lemma DeleteTextIsJoin(e: Entity, keyValues: seq<Val>)
    requires |keyValues| == |e.keyColumns| && |e.keyColumns| > 0
    ensures DeleteStatement(e, keyValues).text == Join(DeleteTokens(e, keyValues), " ")
  {
    var keys := KeyTerms(e.keyColumns, keyValues);
    var m := SoftDeleteSet;
    var tail := ["WHERE"] + ConjTokens(keys, 1) + LiveSuffix;
    calc {
      DeleteStatement(e, keyValues).text;
      "UPDATE " + e.table + " SET removed = TRUE " + LiveWhere(keys, 1);
      { SoftDeleteWords(e.table, LiveWhere(keys, 1)); }
      "UPDATE" + " " + (e.table + " " + (Join(m, " ") + " " + LiveWhere(keys, 1)));
      { LiveKeysText(keys, 1); }
      "UPDATE" + " " + (e.table + " " + (Join(m, " ") + " " + Join(tail, " ")));
      { JoinAppend(m, tail, " "); }
      "UPDATE" + " " + (e.table + " " + Join(m + tail, " "));
      { JoinCons(e.table, m + tail, " "); }
      "UPDATE" + " " + Join([e.table] + (m + tail), " ");
      { JoinCons("UPDATE", [e.table] + (m + tail), " "); }
      Join(["UPDATE"] + ([e.table] + (m + tail)), " ");
    }
  }

  lemma DeleteTokensNoSpace(e: Entity, keyValues: seq<Val>)
    requires WellFormed(e) && |keyValues| == |e.keyColumns|
    ensures forall i :: 0 <= i < |DeleteTokens(e, keyValues)| ==> ' ' !in DeleteTokens(e, keyValues)[i]
  {
    var keys := KeyTerms(e.keyColumns, keyValues);
    ConjTokensNoSpace(keys, 1);
  }

  lemma SixWords(a: string, b: string, m: seq<string>, tail: seq<string>)
    requires |m| == 4
    ensures ([a] + ([b] + (m + tail)))[6..] == tail
    ensures ([a] + ([b] + (m + tail)))[2..6] == m
  {
  }

  lemma DecodeSoftDeleteTail(table: string, tail: seq<string>, values: seq<Val>, keys: seq<Term>)
    requires DecodeLiveKeys(tail, values, 1) == Some(keys)
    ensures DecodeSoftDeleteWords(["UPDATE"] + ([table] + (SoftDeleteSet + tail)), values) == Some((table, keys))
  {
    SixWords("UPDATE", table, SoftDeleteSet, tail);
  }

  lemma DecodeSoftDeleteWordsOf(table: string, keys: seq<Term>, values: seq<Val>)
    requires |keys| > 0 && |keys| <= |values|
    requires forall i :: 0 <= i < |keys| ==> values[i] == keys[i].value
    ensures DecodeSoftDeleteWords(
              ["UPDATE"] + ([table] + (SoftDeleteSet + (["WHERE"] + ConjTokens(keys, 1) + LiveSuffix))), values)
            == Some((table, keys))
  {
    DecodeLiveKeysTokens(keys, 1, values, 1);
    DecodeSoftDeleteTail(table, ["WHERE"] + ConjTokens(keys, 1) + LiveSuffix, values, keys);
  }

  /** Round trip of a soft delete: the database reading it sets `removed`
      on the live row of `e.table` whose key column(s) equal the key
      value(s), bound from `$1`. */
  lemma DeleteRoundTrip(e: Entity, keyValues: seq<Val>)
    requires WellFormed(e) && |keyValues| == |e.keyColumns|
    ensures var s := DeleteStatement(e, keyValues);
            DecodeSoftDelete(s.text, s.values) == Some((e.table, KeyTerms(e.keyColumns, keyValues)))
  {
    var s := DeleteStatement(e, keyValues);
    var keys := KeyTerms(e.keyColumns, keyValues);
    var toks := DeleteTokens(e, keyValues);
    DeleteSplit(e, keyValues);
    DecodeSoftDeleteWordsOf(e.table, keys, s.values);
    assert DecodeSoftDelete(s.text, s.values) == DecodeSoftDeleteWords(toks, s.values);
  }

  /** An update and a delete of the same entity select the same live row:
      both read back to the same key conditions. */
  lemma UpdateAndDeleteShareKeys(e: Entity, keyValues: seq<Val>, input: JsObject)
    requires WellFormed(e) && |keyValues| == |e.keyColumns|
    requires UpdateStatement(e, keyValues, input).Success?
    ensures var u := UpdateStatement(e, keyValues, input).value;
            var d := DeleteStatement(e, keyValues);
            && DecodeUpdate(u.text, u.values).Some?
            && DecodeSoftDelete(d.text, d.values).Some?
            && DecodeUpdate(u.text, u.values).value.2 == DecodeSoftDelete(d.text, d.values).value.1
  {
    UpdateRoundTrip(e, keyValues, input);
    DeleteRoundTrip(e, keyValues);
  }

  // Which columns an update assigns.

  lemma {:induction false} SetTermsBindInput(columns: seq<string>, input: JsObject)
    ensures forall j :: 0 <= j < |SetTerms(columns, input)| ==>
              && SetTerms(columns, input)[j] == Term(SetTerms(columns, input)[j].column, Eq, Get(input, SetTerms(columns, input)[j].column))
              && Get(input, SetTerms(columns, input)[j].column) != Undefined
  {
    if |columns| > 0 {
      SetTermsBindInput(columns[..|columns| - 1], input);
    }
  }

  /** A declared column is assigned exactly when its input property is not
      `undefined` -- `null`, `false`, `0` and `''` included -- and then to
      that very value. */
  lemma {:induction false} SetTermsPresence(columns: seq<string>, input: JsObject, c: string)
    requires c in columns
    ensures (exists j :: 0 <= j < |SetTerms(columns, input)| && SetTerms(columns, input)[j].column == c)
            <==> Get(input, c) != Undefined
    ensures forall j :: 0 <= j < |SetTerms(columns, input)| && SetTerms(columns, input)[j].column == c ==>
              SetTerms(columns, input)[j] == Term(c, Eq, Get(input, c))
  {
    SetTermsBindInput(columns, input);
    var init := columns[..|columns| - 1];
    var last := columns[|columns| - 1];
    if c != last {
      assert c in init;
      SetTermsPresence(init, input, c);
      if Get(input, c) != Undefined {
        var j :| 0 <= j < |SetTerms(init, input)| && SetTerms(init, input)[j].column == c;
        assert SetTerms(columns, input)[j] == SetTerms(init, input)[j];
      }
    } else if Get(input, c) != Undefined {
      var ts := SetTerms(columns, input);
      assert ts[|ts| - 1].column == c;
    }
  }

  /** With every declared column present, the assignments are all the
      columns in declared order. */
  lemma {:induction false} SetTermsAllPresent(columns: seq<string>, input: JsObject)
    requires forall i :: 0 <= i < |columns| ==> Get(input, columns[i]) != Undefined
    ensures SetTerms(columns, input) == seq(|columns|, i requires 0 <= i < |columns| => Term(columns[i], Eq, Get(input, columns[i])))
  {
    if |columns| > 0 {
      var init := columns[..|columns| - 1];
      forall i | 0 <= i < |init| ensures Get(input, init[i]) != Undefined {
        assert init[i] == columns[i];
      }
      SetTermsAllPresent(init, input);
      var all := seq(|columns|, i requires 0 <= i < |columns| => Term(columns[i], Eq, Get(input, columns[i])));
      var front := seq(|init|, i requires 0 <= i < |init| => Term(init[i], Eq, Get(input, init[i])));
      assert all == front + [all[|columns| - 1]];
    }
  }

  /** Present columns are assigned in their declared order: a column
      declared before another comes before it in the SET list. */
  lemma {:induction false} SetTermsOrder(columns: seq<string>, input: JsObject, i: nat, j: nat)
    requires i < j < |columns|
    requires Get(input, columns[i]) != Undefined && Get(input, columns[j]) != Undefined
    ensures exists a, b :: && 0 <= a < b < |SetTerms(columns, input)|
                           && SetTerms(columns, input)[a] == Term(columns[i], Eq, Get(input, columns[i]))
                           && SetTerms(columns, input)[b] == Term(columns[j], Eq, Get(input, columns[j]))
  {
    var init := columns[..|columns| - 1];
    var ts := SetTerms(columns, input);
    assert ts[..|SetTerms(init, input)|] == SetTerms(init, input);
    if j == |columns| - 1 {
      assert columns[i] == init[i];
      SetTermsPresence(init, input, columns[i]);
      var a :| 0 <= a < |SetTerms(init, input)| && SetTerms(init, input)[a].column == columns[i];
      assert ts[a] == SetTerms(init, input)[a];
      assert ts[|ts| - 1] == Term(columns[j], Eq, Get(input, columns[j]));
    } else {
      assert columns[i] == init[i] && columns[j] == init[j];
      SetTermsOrder(init, input, i, j);
      var a, b :| && 0 <= a < b < |SetTerms(init, input)|
                  && SetTerms(init, input)[a] == Term(columns[i], Eq, Get(input, columns[i]))
                  && SetTerms(init, input)[b] == Term(columns[j], Eq, Get(input, columns[j]));
      assert ts[a] == SetTerms(init, input)[a] && ts[b] == SetTerms(init, input)[b];
    }
  }

  /** A declared column whose property is present -- whatever its value,
      `null`, `false`, `0` and `''` included -- makes the update compile
      and is assigned that value. */
  lemma PresentColumnAssigned(e: Entity, keyValues: seq<Val>, input: JsObject, c: string)
    requires |keyValues| == |e.keyColumns|
    requires c in e.columns && Get(input, c) != Undefined
    ensures UpdateStatement(e, keyValues, input).Success?
    ensures Term(c, Eq, Get(input, c)) in SetTerms(e.columns, input)
  {
    SetTermsPresence(e.columns, input, c);
    var ts := SetTerms(e.columns, input);
    var j :| 0 <= j < |ts| && ts[j].column == c;
    assert ts[j] == Term(c, Eq, Get(input, c));
  }

  // The mutations, once their statement has run and returned `rowsReturned` rows.

  /** An `update*` mutation: 'No fields to update' before anything runs,
      its not-found error when no live row matched, otherwise the statement
      that ran, which assigns exactly the present columns of the input to
      the row of `e.table` selected by the key value(s). */
  method Update(e: Entity, keyValues: seq<Val>, input: JsObject, rowsReturned: nat) returns (r: Result<Statement, string>)
    requires WellFormed(e) && |keyValues| == |e.keyColumns|
    ensures r.Failure? <==> NoFields(e.columns, input) || rowsReturned == 0
    ensures NoFields(e.columns, input) ==> r == Failure("No fields to update")
    ensures !NoFields(e.columns, input) && rowsReturned == 0 ==> r == Failure(e.notFound)
    ensures r.Success? ==> r == UpdateStatement(e, keyValues, input)
    ensures r.Success? ==> DecodeUpdate(r.value.text, r.value.values)
                           == Some((e.table, SetTerms(e.columns, input), KeyTerms(e.keyColumns, keyValues)))
  {
    r := CompileUpdate(e, keyValues, input);
    if r.Failure? {
      return;
    }
    if rowsReturned == 0 {
      return Failure(e.notFound);
    }
    UpdateRoundTrip(e, keyValues, input);
  }

  /** A `delete*` mutation: the soft delete by key, or its not-deleted
      error when no live row matched. */
  function SoftDelete(e: Entity, keyValues: seq<Val>, rowsReturned: nat): (r: Result<Statement, string>)
    requires WellFormed(e) && |keyValues| == |e.keyColumns|
    ensures r.Success? <==> rowsReturned > 0
    ensures r.Failure? ==> r.error == e.notDeleted
    ensures r.Success? ==> && r.value.values == keyValues
                           && DecodeSoftDelete(r.value.text, r.value.values)
                              == Some((e.table, KeyTerms(e.keyColumns, keyValues)))
  {
    DeleteRoundTrip(e, keyValues);
    if rowsReturned == 0 then Failure(e.notDeleted)
    else Success(DeleteStatement(e, keyValues))
  }
}
