# Parameterised SQL construction in the edge-stack GraphQL API

The GraphQL API of the demo edge stack answers every query and mutation with one
parameterised SQL statement: a text with positional placeholders `$1`, `$2`, ...
and the ordered list of values those placeholders bind. This project models how
that pair is built, and proves what it means:

- **The filter compiler** `buildWhereClause` walks a filter object in property
  order. It skips `null` and `undefined`. A `{from, to}` object becomes `>=`
  and/or `<=` conjuncts, one for each truthy bound. Anything else becomes
  `key = $N`. The compiler returns the clause, the values and the next free
  placeholder number. `buildPagination` emits `LIMIT`/`OFFSET` for truthy
  numbers only.
- **The partial updates** (`update*` in the lookup and master-data mutations)
  check a fixed, ordered column list with `!== undefined`. They push
  `column = $k` with its value, fail with `'No fields to update'` when nothing
  was pushed, and bind the key value(s) last. The soft deletes (`delete*`) bind
  the key(s) from `$1`.
- **The read resolvers** build their filter objects. The log lists use
  `{ ...filter, removed: false }`. The lookup and master-data lists start from
  `{ removed: false }` and add optional arguments after a truthiness test or an
  `!== undefined` test. The note lists use an object literal. The resolvers then
  compose the clause into the final statement.

Modules, one per concern of the source:

| module | models |
|---|---|
| `JsValues` (jsvalues.dfy) | JavaScript values, truthiness, plain objects with property order, property assignment and spread |
| `Text` (text.dfy) | decimal rendering of numbers, `join`, splitting on spaces |
| `QueryBuilder` (query_builder.dfy) | `buildWhereClause` and `buildPagination`: reference functions, the imperative loop, and their properties |
| `ReadBack` (read_back.dfy) | a reader for compiled clauses: it recovers each conjunct and the value its placeholder binds |
| `Mutations` (mutations.dfy) | the generic partial update and soft delete, and their round trips |
| `LookupMutations`, `MasterDataMutations` | each concrete `update*`/`delete*` as the generic one applied to its table, columns and key(s) |
| `Listings` (listings.dfy) | filters of plain equalities, and what `{ removed: false }` plus optional ids compile to |
| `LogResolvers`, `LookupResolvers`, `MasterDataResolvers` | the read resolvers: filter construction and statement composition |

The database is not modelled. Where a resolver's behaviour depends on the rows
returned (the "not found" errors), the number of returned rows is a parameter.

The compiled fragments have partners. A reader splits a fragment's text on
spaces and looks each placeholder up in the value list. There are four:
`ReadBack.DecodeWhere` for WHERE clauses, `QueryBuilder.ParsePagination` for
the pagination clause, `Mutations.DecodeUpdate` for updates and
`Mutations.DecodeSoftDelete` for soft deletes. The round-trip lemmas prove that
each reader recovers exactly the conjuncts or assignments the source meant.
This is how placeholder numbering and value alignment are stated. The log
lists' WHERE clause is read back too (`LogResolvers.LogWhereReadsBack`). The
other resolver statements are stated in closed form: their exact text and
values, for every input. The imperative compiler methods `BuildWhereClause`,
`BuildPagination` and `CompileUpdate` are proved equal to the reference
functions `WhereClause`, `PaginationClause` and `UpdateStatement`. When a
concrete `update*` method succeeds, its statement is `UpdateStatement` of its
table. The resolver methods (`StateDefinitions`, `DowntimeReasons`,
`AssetDefinitions`, `ProductDefinitions`, `PerformanceTargets`) are proved
equal to their closed-form texts and values.

Two behaviours of the code are easy to misread:
- `buildWhereClause` tests `from` and `to` for truthiness
  (`graphql-api/src/utils/queryBuilder.ts`, lines 21-31). A falsy bound is
  dropped. An object with no truthy bound takes the equality branch and binds
  the object itself.
- Each `update*` checks its table's fixed column list, in declared order, with
  `!== undefined`, and ignores any other input property.

## Model

| member | source | states |
|---|---|---|
| QueryBuilder.WhereClause | graphql-api/src/utils/queryBuilder.ts:5-41 | nextIndex is startIndex plus the number of bound values; the clause is empty exactly when no value is bound; a non-empty clause starts with `WHERE ` |
| QueryBuilder.BuildWhereClause | graphql-api/src/utils/queryBuilder.ts:5-41 | the early return, the loop over the entries and the join compute exactly the reference fragment `WhereClause` |
| QueryBuilder.EmitEntry | graphql-api/src/utils/queryBuilder.ts:18-36 | one loop iteration appends exactly the entry's conjuncts (none, a range's bounds, or one equality) to conditions and values and advances paramIndex by their number |
| QueryBuilder.Push | graphql-api/src/utils/queryBuilder.ts:33-35 | one push keeps conditions, values and paramIndex in step: the new conjunct carries placeholder startIndex + its position |
| QueryBuilder.RenderTerms | graphql-api/src/utils/queryBuilder.ts:13-37 | one conjunct per term, so the conjunct count equals the value count |
| QueryBuilder.RenderTermsAt | graphql-api/src/utils/queryBuilder.ts:15-37 | the i-th conjunct uses placeholder startIndex + i: numbering is consecutive in entry order |
| QueryBuilder.ValuesOfAt | graphql-api/src/utils/queryBuilder.ts:15-37 | the i-th bound value is the value of the i-th conjunct, so placeholder startIndex + i binds values[i] |
| QueryBuilder.AllNullishCompilesToNothing | graphql-api/src/utils/queryBuilder.ts:9-18 | an absent filter, an empty one, or one whose values are all null/undefined gives the empty clause, no values and nextIndex = startIndex |
| QueryBuilder.NullishEntriesIgnored | graphql-api/src/utils/queryBuilder.ts:18 | removing every null/undefined entry leaves the compiled fragment unchanged |
| QueryBuilder.FalsyScalarCompilesToEquality | graphql-api/src/utils/queryBuilder.ts:18-36 | an entry `false`, `0` or `''` is not skipped: it appends `key = $N` at the next placeholder and binds that value |
| QueryBuilder.RangeWithBothBounds | graphql-api/src/utils/queryBuilder.ts:21-31 | both bounds truthy: `key >= $i` then `key <= $(i+1)`, binding from then to, two placeholders consumed |
| QueryBuilder.RangeWithOneBound | graphql-api/src/utils/queryBuilder.ts:21-31 | exactly one truthy bound: only its `>=` or `<=` conjunct, binding that bound, one placeholder consumed |
| QueryBuilder.FalsyBoundsBindObject | graphql-api/src/utils/queryBuilder.ts:21-36 | an object with no truthy bound takes the equality branch and binds the object itself |
| QueryBuilder.AppendEntry | graphql-api/src/utils/queryBuilder.ts:13-40 | adding an entry extends the values by that entry's values and the conjuncts by that entry's conjuncts numbered from the previous nextIndex, so fragments chain |
| QueryBuilder.PaginationClause | graphql-api/src/utils/queryBuilder.ts:43-55 | the pagination clause is empty exactly when neither limit nor offset is truthy |
| QueryBuilder.BuildPagination | graphql-api/src/utils/queryBuilder.ts:43-55 | pushing the parts and joining them with one space computes `PaginationClause` |
| QueryBuilder.PaginationRoundTrip | graphql-api/src/utils/queryBuilder.ts:43-55 | reading the clause back gives exactly the truthy limit and offset, LIMIT first; a zero or absent one leaves no trace |
| Text.ParseIntToString | graphql-api/src/utils/queryBuilder.ts:47 | the decimal text interpolated for a number reads back as that number |
| ReadBack.WhereRoundTrip | graphql-api/src/utils/queryBuilder.ts:13-40 | with space-free keys, reading the clause with its values gives exactly the filter's conjuncts in entry order, each bound to its own value |
| ReadBack.ClauseRoundTrip | graphql-api/src/utils/queryBuilder.ts:39 | `WHERE ` + conjuncts joined by ` AND ` reads back as those conjuncts with their values |
| ReadBack.DecodeSetTokens | graphql-api/src/resolvers/lookupMutations.ts:22-29 | a SET list joined by `, ` reads back as its assignments, each with the value its placeholder binds |
| JsValues.SetProp | graphql-api/src/resolvers/logResolvers.ts:8 | assigning an existing property keeps the object's length; assigning a new one appends it last |
| JsValues.GetAfterSet | graphql-api/src/resolvers/logResolvers.ts:8 | after `o.k = v`, `o.k` reads `v` |
| JsValues.GetOtherAfterSet | graphql-api/src/resolvers/logResolvers.ts:8 | after `o.k = v`, every other property reads as before |
| JsValues.SetPropInPlace | graphql-api/src/resolvers/logResolvers.ts:8 | an existing property keeps its position; no other value changes |
| JsValues.SetPropDistinct | graphql-api/src/resolvers/lookupResolvers.ts:40-41 | assignment keeps property names distinct |
| Mutations.SetTerms | graphql-api/src/resolvers/lookupMutations.ts:22-33 | the assignment list is empty exactly when every declared column is undefined in the input |
| Mutations.SetTermsPresence | graphql-api/src/resolvers/lookupMutations.ts:22-29 | a declared column is assigned exactly when its input property is not undefined (null included), and then to that value |
| Mutations.SetTermsOrder | graphql-api/src/resolvers/lookupMutations.ts:81-96 | present columns are assigned in their declared order |
| Mutations.SetTermsAllPresent | graphql-api/src/resolvers/masterDataMutations.ts:22-41 | with every declared column present, the assignments are all the columns in declared order |
| Mutations.PresentColumnAssigned | graphql-api/src/resolvers/lookupMutations.ts:22-33 | any present declared column, whatever its value, makes the update compile and is assigned |
| Mutations.UpdateStatement | graphql-api/src/resolvers/lookupMutations.ts:16-47 | 'No fields to update' exactly when no declared column is present; otherwise one value per assignment plus the key value(s), which come last |
| Mutations.CollectAssignments | graphql-api/src/resolvers/lookupMutations.ts:18-29 | the run of `!== undefined` checks yields the rendered assignments `$1..$n`, their values and paramIndex n+1 |
| Mutations.CompileUpdate | graphql-api/src/resolvers/lookupMutations.ts:16-47 | the imperative update computes exactly `UpdateStatement` |
| Mutations.ValuesThenKeys | graphql-api/src/resolvers/masterDataMutations.ts:240-244 | value i is the one placeholder $(i+1) binds: assignments first, then the key values at $(n+1)... |
| Mutations.UpdateRoundTrip | graphql-api/src/resolvers/lookupMutations.ts:16-47 | reading the update back gives the table, the present columns in declared order with their values, and the key conditions at placeholders after theirs |
| Mutations.DeleteStatement | graphql-api/src/resolvers/lookupMutations.ts:49-61 | a soft delete binds only the key value(s) |
| Mutations.DeleteRoundTrip | graphql-api/src/resolvers/lookupMutations.ts:49-61 | reading the soft delete back gives the table and the key conditions from $1 |
| Mutations.UpdateAndDeleteShareKeys | graphql-api/src/resolvers/lookupMutations.ts:16-61 | an update and a delete of the same entity select the same key conditions |
| Mutations.Update | graphql-api/src/resolvers/lookupMutations.ts:16-47 | fails with 'No fields to update' before running, with the not-found error when no row returns, otherwise yields the statement, which reads back as its assignments and keys |
| Mutations.SoftDelete | graphql-api/src/resolvers/lookupMutations.ts:49-61 | fails with the not-found-or-deleted error exactly when no row returns; otherwise binds the key(s) and reads back as a soft delete by key |
| LookupMutations.UpdateAssetType | graphql-api/src/resolvers/lookupMutations.ts:16-47 | the generic update over asset_type's two columns, id bound last; on success the statement equals `UpdateStatement` of the table (so one value per assignment, then the key) and reads back as the table, the present columns and the key condition(s) |
| LookupMutations.DeleteAssetType | graphql-api/src/resolvers/lookupMutations.ts:49-61 | soft delete of asset_type by id at $1 |
| LookupMutations.UpdateStateType | graphql-api/src/resolvers/lookupMutations.ts:75-114 | the generic update over state_type's four columns, id bound last; on success the statement equals `UpdateStatement` of the table (so one value per assignment, then the key) and reads back as the table, the present columns and the key condition(s) |
| LookupMutations.DeleteStateType | graphql-api/src/resolvers/lookupMutations.ts:116-128 | soft delete of state_type by id at $1 |
| LookupMutations.UpdateStateDefinition | graphql-api/src/resolvers/lookupMutations.ts:142-181 | the generic update over state_definition's four columns, id bound last; on success the statement equals `UpdateStatement` of the table (so one value per assignment, then the key) and reads back as the table, the present columns and the key condition(s) |
| LookupMutations.DeleteStateDefinition | graphql-api/src/resolvers/lookupMutations.ts:183-195 | soft delete of state_definition by id at $1 |
| LookupMutations.UpdateDowntimeReason | graphql-api/src/resolvers/lookupMutations.ts:209-248 | the generic update over downtime_reason's four columns, id bound last; on success the statement equals `UpdateStatement` of the table (so one value per assignment, then the key) and reads back as the table, the present columns and the key condition(s) |
| LookupMutations.DeleteDowntimeReason | graphql-api/src/resolvers/lookupMutations.ts:250-262 | soft delete of downtime_reason by id at $1 |
| LookupMutations.UpdateCountType | graphql-api/src/resolvers/lookupMutations.ts:276-311 | the generic update over count_type's three columns, id bound last; on success the statement equals `UpdateStatement` of the table (so one value per assignment, then the key) and reads back as the table, the present columns and the key condition(s) |
| LookupMutations.DeleteCountType | graphql-api/src/resolvers/lookupMutations.ts:313-325 | soft delete of count_type by id at $1 |
| LookupMutations.UpdateMeasurementType | graphql-api/src/resolvers/lookupMutations.ts:339-374 | the generic update over measurement_type's three columns, id bound last; on success the statement equals `UpdateStatement` of the table (so one value per assignment, then the key) and reads back as the table, the present columns and the key condition(s) |
| LookupMutations.DeleteMeasurementType | graphql-api/src/resolvers/lookupMutations.ts:376-388 | soft delete of measurement_type by id at $1 |
| LookupMutations.UpdateKpiDefinition | graphql-api/src/resolvers/lookupMutations.ts:402-441 | the generic update over kpi_definition's four columns, id bound last; on success the statement equals `UpdateStatement` of the table (so one value per assignment, then the key) and reads back as the table, the present columns and the key condition(s) |
| LookupMutations.DeleteKpiDefinition | graphql-api/src/resolvers/lookupMutations.ts:443-455 | soft delete of kpi_definition by id at $1 |
| LookupMutations.FalseDowntimeAssigned | graphql-api/src/resolvers/lookupMutations.ts:93-96 | `is_downtime: false` is present: the update compiles and assigns it |
| LookupMutations.FalsePlannedAssigned | graphql-api/src/resolvers/lookupMutations.ts:227-230 | `is_planned: false` is present: the update compiles and assigns it |
| MasterDataMutations.UpdateAssetDefinition | graphql-api/src/resolvers/masterDataMutations.ts:16-59 | the generic update over asset_definition's five columns, id bound last; on success the statement equals `UpdateStatement` of the table (so one value per assignment, then the key) and reads back as the table, the present columns and the key condition(s) |
| MasterDataMutations.DeleteAssetDefinition | graphql-api/src/resolvers/masterDataMutations.ts:61-73 | soft delete of asset_definition by id at $1 |
| MasterDataMutations.UpdateProductFamily | graphql-api/src/resolvers/masterDataMutations.ts:87-118 | the generic update over product_family's two columns, id bound last; on success the statement equals `UpdateStatement` of the table (so one value per assignment, then the key) and reads back as the table, the present columns and the key condition(s) |
| MasterDataMutations.DeleteProductFamily | graphql-api/src/resolvers/masterDataMutations.ts:120-132 | soft delete of product_family by id at $1 |
| MasterDataMutations.UpdateProductDefinition | graphql-api/src/resolvers/masterDataMutations.ts:146-193 | the generic update over product_definition's six columns, id bound last; on success the statement equals `UpdateStatement` of the table (so one value per assignment, then the key) and reads back as the table, the present columns and the key condition(s) |
| MasterDataMutations.DeleteProductDefinition | graphql-api/src/resolvers/masterDataMutations.ts:195-207 | soft delete of product_definition by id at $1 |
| MasterDataMutations.ZeroToleranceAssigned | graphql-api/src/resolvers/masterDataMutations.ts:168-171 | `tolerance: 0` is present: the update compiles and assigns it |
| MasterDataMutations.UpdatePerformanceTarget | graphql-api/src/resolvers/masterDataMutations.ts:221-252 | the generic update over performance_target's two columns; asset_id then product_id are the last two values and read back as the key conditions; on success the statement equals `UpdateStatement` of the table (so one value per assignment, then the key) and reads back as the table, the present columns and the key condition(s) |
| MasterDataMutations.PerformanceTargetKeyPlaceholders | graphql-api/src/resolvers/masterDataMutations.ts:240-244 | with n assignments the WHERE clause is `asset_id = $(n+1) AND product_id = $(n+2)`, bound to the last two values |
| MasterDataMutations.DeletePerformanceTarget | graphql-api/src/resolvers/masterDataMutations.ts:254-266 | soft delete by the pair, asset_id then product_id |
| MasterDataMutations.DeletePerformanceTargetPlaceholders | graphql-api/src/resolvers/masterDataMutations.ts:254-261 | the delete binds asset_id as $1 and product_id as $2 |
| Listings.PlainFilterClause | graphql-api/src/utils/queryBuilder.ts:17-39 | a non-empty filter of plain equalities compiles to one `key = $N` per entry, numbered from the start, binding the entries' values |
| Listings.LiveFilterClause | graphql-api/src/resolvers/lookupResolvers.ts:8 | `{ removed: false }` compiles to `WHERE removed = $1` binding `[false]` |
| Listings.LiveFilterWith | graphql-api/src/resolvers/masterDataResolvers.ts:8-12 | `{ removed: false }` followed by equalities: removed takes $1 and the added entries $2, $3, ... in insertion order |
| Listings.LiveFilterWithOptional | graphql-api/src/resolvers/lookupResolvers.ts:40-43 | one optional id after removed: its conjunct at $2 only when the id is truthy |
| Listings.LiveFilterWithOptionals | graphql-api/src/resolvers/masterDataResolvers.ts:8-12 | two optional ids after removed: each present one takes the next placeholder, in order |
| Listings.NullEntryIgnored | graphql-api/src/utils/queryBuilder.ts:18 | a null entry added to any filter, the empty one included, changes neither the clause, the values nor the next index |
| LogResolvers.LogFilter | graphql-api/src/resolvers/logResolvers.ts:8 | `{ ...filter, removed: false }`: removed reads false; appended last when the caller gave none, in place otherwise |
| LogResolvers.CallerFieldsKept | graphql-api/src/resolvers/logResolvers.ts:8 | every caller property other than removed reaches the compiler unchanged |
| LogResolvers.RemovedAlwaysBound | graphql-api/src/resolvers/logResolvers.ts:8-9 | `removed = false` is always a conjunct: the clause is non-empty and binds false |
| LogResolvers.RemovedOnlyFalse | graphql-api/src/resolvers/logResolvers.ts:8-9 | with distinct caller property names, every conjunct on `removed` is `removed = false`: the override replaces a caller's `removed` rather than adding to it |
| LogResolvers.RemovedLastWhenAbsent | graphql-api/src/resolvers/logResolvers.ts:8-9 | with no caller removed, `removed = $k` is the last conjunct and false the last value |
| LogResolvers.LogWhereReadsBack | graphql-api/src/resolvers/logResolvers.ts:8-9 | the log clause reads back as exactly the merged filter's conjuncts |
| LogResolvers.ListLogs | graphql-api/src/resolvers/logResolvers.ts:7-14 | the paged log list (state, production, count, measurement, kpi) always binds false, last when the caller gave no removed |
| LogResolvers.UnfilteredLogList | graphql-api/src/resolvers/logResolvers.ts:8-11 | with no caller filter the list query is `WHERE removed = $1` binding `[false]` |
| LogResolvers.PaginationBindsNothing | graphql-api/src/resolvers/logResolvers.ts:10-11 | pagination follows ORDER BY and binds nothing: the paged statement is the unpaged one plus the clause |
| LogResolvers.ListNotes | graphql-api/src/resolvers/logResolvers.ts:24-31 | a note list binds the parent id at $1 and false at $2, whatever the id |
| LogResolvers.GeneralNotes | graphql-api/src/resolvers/logResolvers.ts:142-150 | `WHERE removed = $1` binding `[false]`, newest first, then pagination |
| LookupResolvers.LiveList | graphql-api/src/resolvers/lookupResolvers.ts:7-114 | every list over the literal `{ removed: false }` is `SELECT * FROM <table> WHERE removed = $1 ORDER BY <column>` binding `[false]`; the constants `AssetTypes` (lines 7-12), `StateTypes` (23-28), `CountTypes` (77-82), `MeasurementTypes` (93-98), `KpiDefinitions` (109-114) and `MasterDataResolvers.ProductFamilies` (masterDataResolvers.ts, lines 27-32) give each resolver's table and order column |
| LookupResolvers.StateDefinitions | graphql-api/src/resolvers/lookupResolvers.ts:39-47 | removed at $1; state_type_id at $2 only when truthy, so `''` behaves like an absent argument |
| LookupResolvers.DowntimeReasonsWhere | graphql-api/src/resolvers/lookupResolvers.ts:58-62 | is_planned added whenever not undefined: a boolean, false included, is bound at $2; null gives the statement of an absent argument |
| LookupResolvers.DowntimeReasons | graphql-api/src/resolvers/lookupResolvers.ts:58-66 | the downtime-reason list with that clause and values |
| MasterDataResolvers.AssetDefinitions | graphql-api/src/resolvers/masterDataResolvers.ts:7-16 | removed at $1, then asset_type_id and parent_asset_id, each only when truthy, at consecutive placeholders |
| MasterDataResolvers.ProductDefinitions | graphql-api/src/resolvers/masterDataResolvers.ts:43-51 | removed at $1; product_family_id at $2 only when truthy |
| MasterDataResolvers.PerformanceTargets | graphql-api/src/resolvers/masterDataResolvers.ts:62-71 | binds false, then asset_id, then product_id, each id only when truthy, at consecutive placeholders |
| MasterDataResolvers.PerformanceTarget | graphql-api/src/resolvers/masterDataResolvers.ts:73-79 | binds the pair as the composite-key delete does: asset_id at $1, product_id at $2, removed checked as a literal |

## Left out

- Statement execution: the connection pool, its configuration and logging (`db/pool.ts`) are not modelled. A statement is a (text, values) pair; the rows returned matter only through a row-count parameter.
- Server start-up and HTTP plumbing (`index.ts`), the merging of resolver maps (`resolvers/index.ts`) and the GraphQL schema text (`types/schema.ts`): none of them builds a statement.
- The log mutations (`logMutations.ts`), every `create*` mutation, the single-row `by id` selects (except the composite-key `performanceTarget` lookup, which is modelled) and the field resolvers: each runs fixed SQL text with a fixed value list, so there is nothing to compile.
- Multi-line SQL templates: the update and delete statements are modelled with single spaces where the source template has a line break and indentation. The words and their order are kept; the exact whitespace is not.
- Non-integer numbers, DateTime and JSON values: `Opaque` values, bound but never inspected, and taken as truthy. A NaN (falsy) or a JSON object carrying `from`/`to` (which would take the range branch) is not modelled. Neither reaches the compiler through the schema: `Float` input has no NaN, and the filters carry only `ID` and `DateTimeRange` fields.
- Integer width: GraphQL `Int` limits and offsets are unbounded integers here; the 32-bit range is not modelled.
- Property order of integer-like keys (which JavaScript puts first): column names are never integers, so objects keep plain insertion order.
- `async`/`await`: each statement is built synchronously before its single awaited call.
