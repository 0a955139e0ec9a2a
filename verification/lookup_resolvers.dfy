/** The read resolvers over the lookup tables. Five list queries compile the
    literal `{ removed: false }`; `stateDefinitions` and `downtimeReasons`
    build that filter and then add their optional argument to it. */
module LookupResolvers {
  import opened Wrappers
  import opened JsValues
  import opened Text
  import opened QueryBuilder
  import opened Listings

  /** `SELECT * FROM <table> ${whereClause} ORDER BY <column>` */
  function OrderedList(table: string, whereClause: string, orderColumn: string): string {
    "SELECT * FROM " + table + " " + whereClause + " ORDER BY " + orderColumn
  }

  /** A list query that compiles the literal `{ removed: false }`: its table
      and the column it is ordered by. */
  datatype LiveListQuery = LiveListQuery(table: string, orderColumn: string)

  const AssetTypes := LiveListQuery("asset_type", "asset_type_name")
  const StateTypes := LiveListQuery("state_type", "state_type_name")
  const CountTypes := LiveListQuery("count_type", "count_type_name")
  const MeasurementTypes := LiveListQuery("measurement_type", "measurement_type_name")
  const KpiDefinitions := LiveListQuery("kpi_definition", "kpi_name")

  /** Every such list is `WHERE removed = $1` binding `false`, ordered by its
      column. */
  function LiveList(list: LiveListQuery): (s: Statement)
    ensures s.text == OrderedList(list.table, "WHERE removed = $1", list.orderColumn)
    ensures s.values == [Bool(false)]
  {
    LiveFilterClause();
    var w := WhereClause(Some(LiveFilter), 1);
    Statement(OrderedList(list.table, w.clause, list.orderColumn), w.values)
  }

  /** `stateDefinitions`: `removed` is inserted first and takes `$1`; the
      state type is added only when truthy, so `''` and an absent argument
      give the same statement, and a given type takes `$2`. */
  method StateDefinitions(stateTypeId: Option<string>) returns (s: Statement)
    ensures s.text == OrderedList("state_definition",
                                  "WHERE " + Join(["removed = $1"] + (if TruthyId(stateTypeId) then ["state_type_id = $2"] else []), " AND "),
                                  "state_name")
    ensures s.values == [Bool(false)] + OptionalValue(stateTypeId)
  {
    var filter := LiveFilter;
    if TruthyId(stateTypeId) {
      AppendNewKey(filter, "state_type_id", Str(stateTypeId.value));
      filter := SetProp(filter, "state_type_id", Str(stateTypeId.value));
    }
    assert filter == LiveFilter + Optional("state_type_id", stateTypeId);
    var w := BuildWhereClause(Some(filter), 1);
    StateTypeConjunct();
    LiveFilterWithOptional("state_type_id", stateTypeId, "state_type_id = $2");
    s := Statement(OrderedList("state_definition", w.clause, "state_name"), w.values);
  }
  lemma StateTypeConjunct()
    ensures "state_type_id = $2" == "state_type_id" + " = " + Placeholder(2)
  {
    assert Placeholder(2) == "$2";
  }

  /** The filter `downtimeReasons` compiles: `is_planned` is added whenever it
      is not `undefined`, so `false` is bound as `$2` and `null` is added but
      then skipped by the compiler. */
  lemma DowntimeReasonsWhere(isPlanned: Val)
    requires isPlanned.Undefined? || isPlanned.Null? || isPlanned.Bool?
    ensures var filter := if isPlanned.Undefined? then LiveFilter else LiveFilter + [("is_planned", isPlanned)];
            WhereClause(Some(filter), 1)
            == Fragment("WHERE " + Join(["removed = $1"] + (if isPlanned.Bool? then ["is_planned = $2"] else []), " AND "),
                        [Bool(false)] + (if isPlanned.Bool? then [isPlanned] else []),
                        if isPlanned.Bool? then 3 else 2)
  {
    if isPlanned.Bool? {
      PlannedWhere(isPlanned);
    } else {
      UnplannedWhere(isPlanned);
    }
  }

  /** A boolean `is_planned` is bound second, at `$2`. */
  lemma PlannedWhere(isPlanned: Val)
    requires isPlanned.Bool?
    ensures WhereClause(Some(LiveFilter + [("is_planned", isPlanned)]), 1)
            == Fragment("WHERE " + Join(["removed = $1"] + ["is_planned = $2"], " AND "), [Bool(false)] + [isPlanned], 3)
  {
    LiveFilterWith([("is_planned", isPlanned)]);
    IsPlannedPart(isPlanned);
  }

  /** An absent or `null` `is_planned` leaves the live-rows clause alone. */
  lemma UnplannedWhere(isPlanned: Val)
    requires isPlanned.Undefined? || isPlanned.Null?
    ensures var filter := if isPlanned.Undefined? then LiveFilter else LiveFilter + [("is_planned", isPlanned)];
            WhereClause(Some(filter), 1) == Fragment("WHERE " + Join(["removed = $1"], " AND "), [Bool(false)], 2)
  {
    LiveFilterClause();
    LiveJoin();
    if isPlanned.Null? {
      NullEntryIgnored(LiveFilter, "is_planned", 1);
    }
  }

  lemma IsPlannedPart(isPlanned: Val)
    ensures EqParts([("is_planned", isPlanned)], 2) == ["is_planned = $2"]
  {
    var parts := EqParts([("is_planned", isPlanned)], 2);
    assert Placeholder(2) == "$2";
    assert parts[0] == "is_planned" + " = " + "$2";
    assert "is_planned" + " = " + "$2" == "is_planned = $2";
  }

  /** `downtimeReasons`: `removed` at `$1`, then `is_planned` at `$2` exactly
      when a boolean was given; `null` gives the statement of an absent
      argument. */
  method DowntimeReasons(isPlanned: Val) returns (s: Statement)
    requires isPlanned.Undefined? || isPlanned.Null? || isPlanned.Bool?
    ensures s.text == OrderedList("downtime_reason",
                                  "WHERE " + Join(["removed = $1"] + (if isPlanned.Bool? then ["is_planned = $2"] else []), " AND "),
                                  "downtime_reason_code")
    ensures s.values == [Bool(false)] + (if isPlanned.Bool? then [isPlanned] else [])
  {
    var filter := LiveFilter;
    if !isPlanned.Undefined? {
      AppendNewKey(filter, "is_planned", isPlanned);
      filter := SetProp(filter, "is_planned", isPlanned);
    }
    var w := BuildWhereClause(Some(filter), 1);
    DowntimeReasonsWhere(isPlanned);
    s := Statement(OrderedList("downtime_reason", w.clause, "downtime_reason_code"), w.values);
  }
}
