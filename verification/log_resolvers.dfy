/** The read resolvers over the log tables. A paged list query spreads the
    caller's filter, overrides `removed` with `false`, and orders by the
    log's timestamp; a note query filters on the parent log's id; the
    general-note list filters on `removed` alone. */
module LogResolvers {
  import opened Wrappers
  import opened JsValues
  import opened Text
  import opened QueryBuilder
  import opened ReadBack
  import opened Listings

  /** A paged log list: its table and the timestamp column it is ordered by. */
  datatype LogList = LogList(table: string, orderColumn: string)

  const StateLogs := LogList("state_log", "logged_at")
  const ProductionLogs := LogList("production_log", "start_ts")
  const CountLogs := LogList("count_log", "logged_at")
  const MeasurementLogs := LogList("measurement_log", "logged_at")
  const KpiLogs := LogList("kpi_log", "start_ts")

  /** `{ ...args.filter, removed: false }`: the caller's properties in their
      order, with `removed` forced to `false` (in place when the caller gave
      one, appended last otherwise). */
  function LogFilter(filter: Option<JsObject>): (f: JsObject)
    ensures Get(f, "removed") == Bool(false)
    ensures !HasKey(Spread(filter), "removed") ==> f == Spread(filter) + [("removed", Bool(false))]
    ensures HasKey(Spread(filter), "removed") ==> Keys(f) == Keys(Spread(filter))
  {
    GetAfterSet(Spread(filter), "removed", Bool(false));
    SetPropInPlace(Spread(filter), "removed", Bool(false));
    SetProp(Spread(filter), "removed", Bool(false))
  }

  /** Every caller property other than `removed` reaches the compiler unchanged. */
  lemma CallerFieldsKept(filter: Option<JsObject>, k: string)
    requires k != "removed"
    ensures Get(LogFilter(filter), k) == Get(Spread(filter), k)
  {
    GetOtherAfterSet(Spread(filter), "removed", Bool(false), k);
  }

  /** Because `false` is not skipped, `removed = $k` is always one of the
      conjuncts: the WHERE clause is never empty and binds `false`. */
  lemma RemovedAlwaysBound(filter: Option<JsObject>)
    ensures Term("removed", Eq, Bool(false)) in FilterTerms(LogFilter(filter))
    ensures var w := WhereClause(Some(LogFilter(filter)), 1);
            w.clause != "" && Bool(false) in w.values
  {
    SetPropHolds(Spread(filter), "removed", Bool(false));
    HeldEqualityBound(LogFilter(filter), "removed", Bool(false), 1);
  }

  /** With distinct caller property names, `removed = false` is the only
      conjunct on `removed`: a caller's own `removed` is overridden, not
      compiled beside it. */
  lemma RemovedOnlyFalse(filter: Option<JsObject>)
    requires DistinctKeys(Spread(filter))
    ensures forall t :: t in FilterTerms(LogFilter(filter)) && t.column == "removed"
                        ==> t == Term("removed", Eq, Bool(false))
  {
    OverriddenKeyTerms(Spread(filter), "removed", Bool(false), LogFilter(filter));
    FalseEntryTerms("removed");
  }

  /** After `o.k = v` on an object with distinct names, the conjuncts on `k`
      are those of `v` alone. */
  lemma OverriddenKeyTerms(o: JsObject, k: string, v: Val, f: JsObject)
    requires DistinctKeys(o) && f == SetProp(o, k, v)
    ensures forall t :: t in FilterTerms(f) && t.column == k ==> t in EntryTerms(k, v)
  {
    SetPropDistinct(o, k, v);
    SetPropHolds(o, k, v);
    var i :| 0 <= i < |f| && f[i] == (k, v);
    KeyTermsFromOwnEntry(f, i);
  }

  lemma FalseEntryTerms(k: string)
    ensures EntryTerms(k, Bool(false)) == [Term(k, Eq, Bool(false))]
  {
  }

  /** Without a caller `removed`, it is the last conjunct, numbered after the
      caller's, and `false` is the last bound value. */
  lemma RemovedLastWhenAbsent(filter: Option<JsObject>)
    requires !HasKey(Spread(filter), "removed")
    ensures var before := WhereClause(Some(Spread(filter)), 1);
            var w := WhereClause(Some(LogFilter(filter)), 1);
            && w.values == before.values + [Bool(false)]
            && RenderTerms(FilterTerms(LogFilter(filter)), 1)
               == RenderTerms(FilterTerms(Spread(filter)), 1) + ["removed" + " = " + Placeholder(|w.values|)]
  {
    FalsyScalarCompilesToEquality(Spread(filter), "removed", Bool(false), 1);
  }

  /** With property names free of spaces, the compiled clause reads back as
      exactly the conjuncts of the merged filter, `removed = false` among them. */
  lemma LogWhereReadsBack(filter: Option<JsObject>)
    requires forall i :: 0 <= i < |Spread(filter)| ==> ' ' !in Spread(filter)[i].0
    ensures var w := WhereClause(Some(LogFilter(filter)), 1);
            && DecodeWhere(w.clause, w.values, 1) == Some(FilterTerms(LogFilter(filter)))
            && Term("removed", Eq, Bool(false)) in FilterTerms(LogFilter(filter))
  {
    var f := LogFilter(filter);
    SetPropNames(Spread(filter), "removed", Bool(false));
    forall i | 0 <= i < |f| ensures ' ' !in f[i].0 {
      if f[i].0 != "removed" {
        var m :| 0 <= m < |Spread(filter)| && Spread(filter)[m] == f[i];
      }
    }
    WhereRoundTrip(Some(f), 1);
    RemovedAlwaysBound(filter);
  }

  /** `SELECT * FROM <table> ${whereClause} ORDER BY <column> DESC ${pagination}` */
  function ListText(list: LogList, whereClause: string, pagination: string): string {
    "SELECT * FROM " + list.table + " " + whereClause + " ORDER BY " + list.orderColumn + " DESC " + pagination
  }

  /** A paged log list over the merged filter: `false` is always bound, and
      last when the caller gave no `removed`. */
  function ListLogs(list: LogList, filter: Option<JsObject>, limit: Option<int>, offset: Option<int>): (s: Statement)
    ensures Bool(false) in s.values
    ensures !HasKey(Spread(filter), "removed") ==> s.values[|s.values| - 1] == Bool(false)
  {
    var s := LogStatement(list, filter, limit, offset);
    RemovedBoundIn(filter, s.values);
    s
  }

  lemma RemovedBoundIn(filter: Option<JsObject>, vs: seq<Val>)
    requires vs == WhereClause(Some(LogFilter(filter)), 1).values
    ensures Bool(false) in vs
    ensures !HasKey(Spread(filter), "removed") ==> |vs| > 0 && vs[|vs| - 1] == Bool(false)
  {
    assert Bool(false) in vs by {
      RemovedAlwaysBound(filter);
    }
    if !HasKey(Spread(filter), "removed") {
      assert |vs| > 0 && vs[|vs| - 1] == Bool(false) by {
        RemovedLastWhenAbsent(filter);
        LastOfSnoc(WhereClause(Some(Spread(filter)), 1).values, Bool(false), vs);
      }
    }
  }

  lemma LastOfSnoc(before: seq<Val>, x: Val, after: seq<Val>)
    requires after == before + [x]
    ensures |after| > 0 && after[|after| - 1] == x
  {
  }

  function LogStatement(list: LogList, filter: Option<JsObject>, limit: Option<int>, offset: Option<int>): Statement {
    var w := WhereClause(Some(LogFilter(filter)), 1);
    Statement(ListText(list, w.clause, PaginationClause(limit, offset)), w.values)
  }

  /** With no caller filter the statement is the live-rows query. */
  lemma UnfilteredLogList(list: LogList, limit: Option<int>, offset: Option<int>)
    ensures ListLogs(list, None, limit, offset)
            == Statement("SELECT * FROM " + list.table + " " + "WHERE removed = $1" + " ORDER BY "
                         + list.orderColumn + " DESC " + PaginationClause(limit, offset),
                         [Bool(false)])
  {
    assert LogFilter(None) == LiveFilter;
    LiveFilterClause();
  }

  /** Pagination comes after `ORDER BY` and binds nothing: the statement is
      the unpaged one with the clause appended. */
  lemma PaginationBindsNothing(list: LogList, filter: Option<JsObject>, limit: Option<int>, offset: Option<int>)
    ensures var paged := ListLogs(list, filter, limit, offset);
            var unpaged := ListLogs(list, filter, None, None);
            paged.values == unpaged.values && paged.text == unpaged.text + PaginationClause(limit, offset)
  {
    var w := WhereClause(Some(LogFilter(filter)), 1);
    assert PaginationClause(None, None) == "";
    ListTextPaged(list, w.clause, PaginationClause(limit, offset));
  }

  lemma ListTextPaged(list: LogList, whereClause: string, pagination: string)
    ensures ListText(list, whereClause, pagination) == ListText(list, whereClause, "") + pagination
  {
    var prefix := "SELECT * FROM " + list.table + " " + whereClause + " ORDER BY " + list.orderColumn + " DESC ";
    assert prefix + "" == prefix;
  }

  /** A note list: the note table and the column naming its parent log. */
  datatype NoteList = NoteList(table: string, parentColumn: string)

  const StateLogNotes := NoteList("state_log_note", "state_log_id")
  const ProductionLogNotes := NoteList("production_log_note", "production_log_id")
  const CountLogNotes := NoteList("count_log_note", "count_log_id")
  const MeasurementLogNotes := NoteList("measurement_log_note", "measurement_log_id")
  const KpiLogNotes := NoteList("kpi_log_note", "kpi_log_id")

  /** `{ <parent>_id: id, removed: false }`, the id first. */
  function NoteFilter(list: NoteList, parentId: string): JsObject {
    [(list.parentColumn, Str(parentId)), ("removed", Bool(false))]
  }

  /** `SELECT * FROM <table>_note ${whereClause} ORDER BY created_at DESC`:
      the parent id is `$1` and `false` is `$2`, whatever the id (an empty
      string is bound, not skipped). */
  function ListNotes(list: NoteList, parentId: string): (s: Statement)
    ensures s.values == [Str(parentId), Bool(false)]
    ensures s.text == "SELECT * FROM " + list.table + " " + "WHERE " + list.parentColumn + " = $1"
                      + " AND " + "removed = $2" + " ORDER BY created_at DESC"
  {
    var f := NoteFilter(list, parentId);
    NoteClause(list, parentId);
    var w := WhereClause(Some(f), 1);
    Statement("SELECT * FROM " + list.table + " " + w.clause + " ORDER BY created_at DESC", w.values)
  }

  lemma NoteClause(list: NoteList, parentId: string)
    ensures WhereClause(Some(NoteFilter(list, parentId)), 1)
            == Fragment("WHERE " + list.parentColumn + " = $1" + " AND " + "removed = $2", [Str(parentId), Bool(false)], 3)
  {
    var f := NoteFilter(list, parentId);
    PlainFilterClause(f, 1);
    var parts := EqParts(f, 1);
    assert Placeholder(1) == "$1" && Placeholder(2) == "$2";
    assert parts[0] == list.parentColumn + " = $1";
    assert parts[1] == "removed = $2";
    assert Join(parts, " AND ") == parts[0] + " AND " + parts[1];
    assert EntryValues(f) == [Str(parentId), Bool(false)];
  }

  /** `generalNotes`: the live-rows filter, newest first, then pagination. */
  function GeneralNotes(limit: Option<int>, offset: Option<int>): (s: Statement)
    ensures s.values == [Bool(false)]
    ensures s.text == "SELECT * FROM general_note " + "WHERE removed = $1" + " ORDER BY created_at DESC "
                      + PaginationClause(limit, offset)
  {
    LiveFilterClause();
    var w := WhereClause(Some(LiveFilter), 1);
    Statement("SELECT * FROM general_note " + w.clause + " ORDER BY created_at DESC " + PaginationClause(limit, offset),
              w.values)
  }
}
