/** The read resolvers over the master-data tables: list queries that build
    `{ removed: false }` and add their truthy id arguments after it, the
    literal-filter `productFamilies`, and the composite-key lookup of one
    performance target. */
module MasterDataResolvers {
  import opened Wrappers
  import opened JsValues
  import opened Text
  import opened QueryBuilder
  import opened Listings
  import opened LookupResolvers
  import Mutations
  import MasterDataMutations

  /** `assetDefinitions`: `removed` at `$1`; `asset_type_id` then
      `parent_asset_id`, each only when truthy, numbered on from `$2`. */
  method AssetDefinitions(assetTypeId: Option<string>, parentAssetId: Option<string>) returns (s: Statement)
    ensures s.text == OrderedList("asset_definition",
                                  "WHERE " + Join(["removed = $1"]
                                                  + (if TruthyId(assetTypeId) then ["asset_type_id = $2"] else [])
                                                  + (if TruthyId(parentAssetId)
                                                     then [if TruthyId(assetTypeId) then "parent_asset_id = $3" else "parent_asset_id = $2"]
                                                     else []), " AND "),
                                  "asset_name")
    ensures s.values == [Bool(false)] + OptionalValue(assetTypeId) + OptionalValue(parentAssetId)
  {
    var filter := LiveFilter;
    if TruthyId(assetTypeId) {
      AppendNewKey(filter, "asset_type_id", Str(assetTypeId.value));
      filter := SetProp(filter, "asset_type_id", Str(assetTypeId.value));
    }
    if TruthyId(parentAssetId) {
      AppendNewKey(filter, "parent_asset_id", Str(parentAssetId.value));
      filter := SetProp(filter, "parent_asset_id", Str(parentAssetId.value));
    }
    assert filter == LiveFilter + Optional("asset_type_id", assetTypeId) + Optional("parent_asset_id", parentAssetId);
    var w := BuildWhereClause(Some(filter), 1);
    AssetDefinitionConjuncts();
    LiveFilterWithOptionals("asset_type_id", assetTypeId, "parent_asset_id", parentAssetId,
                            "asset_type_id = $2", "parent_asset_id = $2", "parent_asset_id = $3");
    s := Statement(OrderedList("asset_definition", w.clause, "asset_name"), w.values);
  }

  lemma AssetDefinitionConjuncts()
    ensures "asset_type_id = $2" == "asset_type_id" + " = " + Placeholder(2)
    ensures "parent_asset_id = $2" == "parent_asset_id" + " = " + Placeholder(2)
    ensures "parent_asset_id = $3" == "parent_asset_id" + " = " + Placeholder(3)
  {
    assert Placeholder(2) == "$2" && Placeholder(3) == "$3";
  }

  /** `productFamilies`: the literal `{ removed: false }`. */
  const ProductFamilies := LiveListQuery("product_family", "product_family_name")

  /** `productDefinitions`: `removed` at `$1`, the family at `$2` only when
      truthy. */
  method ProductDefinitions(productFamilyId: Option<string>) returns (s: Statement)
    ensures s.text == OrderedList("product_definition",
                                  "WHERE " + Join(["removed = $1"] + (if TruthyId(productFamilyId) then ["product_family_id = $2"] else []), " AND "),
                                  "product_name")
    ensures s.values == [Bool(false)] + OptionalValue(productFamilyId)
  {
    var filter := LiveFilter;
    if TruthyId(productFamilyId) {
      AppendNewKey(filter, "product_family_id", Str(productFamilyId.value));
      filter := SetProp(filter, "product_family_id", Str(productFamilyId.value));
    }
    assert filter == LiveFilter + Optional("product_family_id", productFamilyId);
    var w := BuildWhereClause(Some(filter), 1);
    ProductFamilyConjunct();
    LiveFilterWithOptional("product_family_id", productFamilyId, "product_family_id = $2");
    s := Statement(OrderedList("product_definition", w.clause, "product_name"), w.values);
  }
  lemma ProductFamilyConjunct()
    ensures "product_family_id = $2" == "product_family_id" + " = " + Placeholder(2)
  {
    assert Placeholder(2) == "$2";
  }

  /** `SELECT * FROM performance_target ${whereClause}`, with no ordering. */
  function TargetList(whereClause: string): string {
    "SELECT * FROM performance_target " + whereClause
  }

  /** `performanceTargets`: binds `false`, then the asset id, then the
      product id, each id only when truthy, at consecutive placeholders. */
  method PerformanceTargets(assetId: Option<string>, productId: Option<string>) returns (s: Statement)
    ensures s.text == TargetList("WHERE " + Join(["removed = $1"]
                                                 + (if TruthyId(assetId) then ["asset_id = $2"] else [])
                                                 + (if TruthyId(productId)
                                                    then [if TruthyId(assetId) then "product_id = $3" else "product_id = $2"]
                                                    else []), " AND "))
    ensures s.values == [Bool(false)] + OptionalValue(assetId) + OptionalValue(productId)
  {
    var filter := LiveFilter;
    if TruthyId(assetId) {
      AppendNewKey(filter, "asset_id", Str(assetId.value));
      filter := SetProp(filter, "asset_id", Str(assetId.value));
    }
    if TruthyId(productId) {
      AppendNewKey(filter, "product_id", Str(productId.value));
      filter := SetProp(filter, "product_id", Str(productId.value));
    }
    assert filter == LiveFilter + Optional("asset_id", assetId) + Optional("product_id", productId);
    var w := BuildWhereClause(Some(filter), 1);
    PerformanceTargetConjuncts();
    LiveFilterWithOptionals("asset_id", assetId, "product_id", productId,
                            "asset_id = $2", "product_id = $2", "product_id = $3");
    s := Statement(TargetList(w.clause), w.values);
  }

  lemma PerformanceTargetConjuncts()
    ensures "asset_id = $2" == "asset_id" + " = " + Placeholder(2)
    ensures "product_id = $2" == "product_id" + " = " + Placeholder(2)
    ensures "product_id = $3" == "product_id" + " = " + Placeholder(3)
  {
    assert Placeholder(2) == "$2" && Placeholder(3) == "$3";
  }

  /** `performanceTarget`: a fixed statement that binds the performance
      target's composite key exactly as its delete does, `asset_id` at `$1`
      and `product_id` at `$2`, and checks `removed` as a literal. */
  function PerformanceTarget(assetId: string, productId: string): (s: Statement)
    ensures var keys := Mutations.KeyTerms(MasterDataMutations.PerformanceTarget.keyColumns, [Str(assetId), Str(productId)]);
            && s.values == ValuesOf(keys)
            && s.text == TargetList("WHERE " + Join(RenderTerms(keys, 1), " AND ") + " AND removed = false")
  {
    TargetKeyText(assetId, productId);
    Statement(TargetList("WHERE " + "asset_id = $1 AND product_id = $2" + " AND removed = false"), [Str(assetId), Str(productId)])
  }

  lemma TargetKeyText(assetId: string, productId: string)
    ensures var keys := Mutations.KeyTerms(MasterDataMutations.PerformanceTarget.keyColumns, [Str(assetId), Str(productId)]);
            && ValuesOf(keys) == [Str(assetId), Str(productId)]
            && Join(RenderTerms(keys, 1), " AND ") == "asset_id = $1 AND product_id = $2"
  {
    var keys := Mutations.KeyTerms(MasterDataMutations.PerformanceTarget.keyColumns, [Str(assetId), Str(productId)]);
    MasterDataMutations.DeletePerformanceTargetPlaceholders(assetId, productId);
    MasterDataMutations.KeyTermsPair(Str(assetId), Str(productId));
    assert keys[..1] == [keys[0]];
    assert Join(["asset_id = $1", "product_id = $2"], " AND ") == "asset_id = $1" + " AND " + "product_id = $2";
    assert "asset_id = $1" + " AND " + "product_id = $2" == "asset_id = $1 AND product_id = $2";
  }
}
