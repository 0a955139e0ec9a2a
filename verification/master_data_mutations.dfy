/** The `update*` and `delete*` mutations of the master-data tables. The
    performance target is keyed by the pair (asset, product): its update
    binds both key values after the assignments, its delete binds them as
    `$1` and `$2`. */
module MasterDataMutations {
  import opened Wrappers
  import opened JsValues
  import opened Text
  import opened QueryBuilder
  import opened Mutations

  const AssetDefinition := Entity(
      "asset_definition",
      ["asset_name", "asset_description", "asset_type_id", "parent_asset_id", "tag_path"],
      ["asset_id"],
      "Asset definition not found",
      "Asset definition not found or already deleted")
  const ProductFamily := Entity(
      "product_family",
      ["product_family_name", "product_family_description"],
      ["product_family_id"],
      "Product family not found",
      "Product family not found or already deleted")
  const ProductDefinition := Entity(
      "product_definition",
      ["product_name", "product_description", "product_family_id", "unit_of_measure", "tolerance", "ideal_cycle_time"],
      ["product_id"],
      "Product definition not found",
      "Product definition not found or already deleted")
  const PerformanceTarget := Entity(
      "performance_target",
      ["target_value", "target_unit"],
      ["asset_id", "product_id"],
      "Performance target not found",
      "Performance target not found or already deleted")

  lemma AssetDefinitionWellFormed()
    ensures WellFormed(AssetDefinition)
  {
  }

  lemma ProductFamilyWellFormed()
    ensures WellFormed(ProductFamily)
  {
  }

  lemma ProductDefinitionWellFormed()
    ensures WellFormed(ProductDefinition)
  {
  }

  lemma PerformanceTargetWellFormed()
    ensures WellFormed(PerformanceTarget)
  {
  }

  method UpdateAssetDefinition(assetId: string, input: JsObject, rowsReturned: nat) returns (r: Result<Statement, string>)
    ensures r.Failure? <==> NoFields(AssetDefinition.columns, input) || rowsReturned == 0
    ensures NoFields(AssetDefinition.columns, input) ==> r == Failure("No fields to update")
    ensures !NoFields(AssetDefinition.columns, input) && rowsReturned == 0 ==> r == Failure("Asset definition not found")
    ensures r.Success? ==> |r.value.values| > 0 && r.value.values[|r.value.values| - 1] == Str(assetId)
    ensures r.Success? ==> DecodeUpdate(r.value.text, r.value.values)
                           == Some(("asset_definition", SetTerms(AssetDefinition.columns, input), [Term("asset_id", Eq, Str(assetId))]))
    ensures r.Success? ==> r == UpdateStatement(AssetDefinition, [Str(assetId)], input)
  {
    AssetDefinitionWellFormed();
    KeyTermsOne("asset_id", Str(assetId));
    r := Update(AssetDefinition, [Str(assetId)], input, rowsReturned);
  }

  function DeleteAssetDefinition(assetId: string, rowsReturned: nat): (r: Result<Statement, string>)
    ensures r.Success? <==> rowsReturned > 0
    ensures r.Failure? ==> r.error == "Asset definition not found or already deleted"
    ensures r.Success? ==> && r.value.values == [Str(assetId)]
                           && DecodeSoftDelete(r.value.text, r.value.values)
                              == Some(("asset_definition", [Term("asset_id", Eq, Str(assetId))]))
  {
    AssetDefinitionWellFormed();
    KeyTermsOne("asset_id", Str(assetId));
    SoftDelete(AssetDefinition, [Str(assetId)], rowsReturned)
  }

  method UpdateProductFamily(productFamilyId: string, input: JsObject, rowsReturned: nat) returns (r: Result<Statement, string>)
    ensures r.Failure? <==> NoFields(ProductFamily.columns, input) || rowsReturned == 0
    ensures NoFields(ProductFamily.columns, input) ==> r == Failure("No fields to update")
    ensures !NoFields(ProductFamily.columns, input) && rowsReturned == 0 ==> r == Failure("Product family not found")
    ensures r.Success? ==> |r.value.values| > 0 && r.value.values[|r.value.values| - 1] == Str(productFamilyId)
    ensures r.Success? ==> DecodeUpdate(r.value.text, r.value.values)
                           == Some(("product_family", SetTerms(ProductFamily.columns, input), [Term("product_family_id", Eq, Str(productFamilyId))]))
    ensures r.Success? ==> r == UpdateStatement(ProductFamily, [Str(productFamilyId)], input)
  {
    ProductFamilyWellFormed();
    KeyTermsOne("product_family_id", Str(productFamilyId));
    r := Update(ProductFamily, [Str(productFamilyId)], input, rowsReturned);
  }

  function DeleteProductFamily(productFamilyId: string, rowsReturned: nat): (r: Result<Statement, string>)
    ensures r.Success? <==> rowsReturned > 0
    ensures r.Failure? ==> r.error == "Product family not found or already deleted"
    ensures r.Success? ==> && r.value.values == [Str(productFamilyId)]
                           && DecodeSoftDelete(r.value.text, r.value.values)
                              == Some(("product_family", [Term("product_family_id", Eq, Str(productFamilyId))]))
  {
    ProductFamilyWellFormed();
    KeyTermsOne("product_family_id", Str(productFamilyId));
    SoftDelete(ProductFamily, [Str(productFamilyId)], rowsReturned)
  }

  method UpdateProductDefinition(productId: string, input: JsObject, rowsReturned: nat) returns (r: Result<Statement, string>)
    ensures r.Failure? <==> NoFields(ProductDefinition.columns, input) || rowsReturned == 0
    ensures NoFields(ProductDefinition.columns, input) ==> r == Failure("No fields to update")
    ensures !NoFields(ProductDefinition.columns, input) && rowsReturned == 0 ==> r == Failure("Product definition not found")
    ensures r.Success? ==> |r.value.values| > 0 && r.value.values[|r.value.values| - 1] == Str(productId)
    ensures r.Success? ==> DecodeUpdate(r.value.text, r.value.values)
                           == Some(("product_definition", SetTerms(ProductDefinition.columns, input), [Term("product_id", Eq, Str(productId))]))
    ensures r.Success? ==> r == UpdateStatement(ProductDefinition, [Str(productId)], input)
  {
    ProductDefinitionWellFormed();
    KeyTermsOne("product_id", Str(productId));
    r := Update(ProductDefinition, [Str(productId)], input, rowsReturned);
  }

  function DeleteProductDefinition(productId: string, rowsReturned: nat): (r: Result<Statement, string>)
    ensures r.Success? <==> rowsReturned > 0
    ensures r.Failure? ==> r.error == "Product definition not found or already deleted"
    ensures r.Success? ==> && r.value.values == [Str(productId)]
                           && DecodeSoftDelete(r.value.text, r.value.values)
                              == Some(("product_definition", [Term("product_id", Eq, Str(productId))]))
  {
    ProductDefinitionWellFormed();
    KeyTermsOne("product_id", Str(productId));
    SoftDelete(ProductDefinition, [Str(productId)], rowsReturned)
  }

  /** `tolerance: 0` is present, so it is assigned. */
  lemma ZeroToleranceAssigned(input: JsObject)
    requires Get(input, "tolerance") == Num(0)
    ensures !NoFields(ProductDefinition.columns, input)
    ensures Term("tolerance", Eq, Num(0)) in SetTerms(ProductDefinition.columns, input)
  {
    assert ProductDefinition.columns[4] == "tolerance";
    PresentColumnAssigned(ProductDefinition, [Str("")], input, "tolerance");
  }

  lemma KeyTermsPair(asset: Val, product: Val)
    ensures KeyTerms(PerformanceTarget.keyColumns, [asset, product])
            == [Term("asset_id", Eq, asset), Term("product_id", Eq, product)]
  {
  }

  method UpdatePerformanceTarget(assetId: string, productId: string, input: JsObject, rowsReturned: nat)
    returns (r: Result<Statement, string>)
    ensures r.Failure? <==> NoFields(PerformanceTarget.columns, input) || rowsReturned == 0
    ensures NoFields(PerformanceTarget.columns, input) ==> r == Failure("No fields to update")
    ensures !NoFields(PerformanceTarget.columns, input) && rowsReturned == 0
            ==> r == Failure("Performance target not found")
    ensures r.Success? ==> && |r.value.values| >= 2
                           && r.value.values[|r.value.values| - 2..] == [Str(assetId), Str(productId)]
    ensures r.Success? ==> DecodeUpdate(r.value.text, r.value.values)
                           == Some(("performance_target", SetTerms(PerformanceTarget.columns, input),
                                    [Term("asset_id", Eq, Str(assetId)), Term("product_id", Eq, Str(productId))]))
    ensures r.Success? ==> r == UpdateStatement(PerformanceTarget, [Str(assetId), Str(productId)], input)
  {
    PerformanceTargetWellFormed();
    KeyTermsPair(Str(assetId), Str(productId));
    r := Update(PerformanceTarget, [Str(assetId), Str(productId)], input, rowsReturned);
  }

  function DeletePerformanceTarget(assetId: string, productId: string, rowsReturned: nat): (r: Result<Statement, string>)
    ensures r.Success? <==> rowsReturned > 0
    ensures r.Failure? ==> r.error == "Performance target not found or already deleted"
    ensures r.Success? ==> && r.value.values == [Str(assetId), Str(productId)]
                           && DecodeSoftDelete(r.value.text, r.value.values)
                              == Some(("performance_target",
                                       [Term("asset_id", Eq, Str(assetId)), Term("product_id", Eq, Str(productId))]))
  {
    PerformanceTargetWellFormed();
    KeyTermsPair(Str(assetId), Str(productId));
    SoftDelete(PerformanceTarget, [Str(assetId), Str(productId)], rowsReturned)
  }

  /** The composite key of an update with `n` assignments: `asset_id` at
      `$(n+1)`, then `product_id` at `$(n+2)`, after every assignment
      placeholder, and bound to the last two values. */
  lemma PerformanceTargetKeyPlaceholders(assetId: string, productId: string, input: JsObject)
    requires !NoFields(PerformanceTarget.columns, input)
    ensures var changes := SetTerms(PerformanceTarget.columns, input);
            var n := |changes|;
            var s := UpdateStatement(PerformanceTarget, [Str(assetId), Str(productId)], input).value;
            && s.text == "UPDATE performance_target SET " + Join(RenderTerms(changes, 1), ", ")
                         + " WHERE asset_id = " + Placeholder(n + 1) + " AND product_id = " + Placeholder(n + 2)
                         + " AND removed = FALSE RETURNING *"
            && s.values == ValuesOf(changes) + [Str(assetId), Str(productId)]
  {
    var changes := SetTerms(PerformanceTarget.columns, input);
    var n := |changes|;
    var keys := [Term("asset_id", Eq, Str(assetId)), Term("product_id", Eq, Str(productId))];
    KeyTermsPair(Str(assetId), Str(productId));
    assert keys[..1] == [keys[0]];
    assert RenderTerms(keys, n + 1) == [RenderTerm(keys[0], n + 1), RenderTerm(keys[1], n + 2)];
    RenderTermText(keys[0], n + 1);
    RenderTermText(keys[1], n + 2);
    var a := "asset_id" + " = " + Placeholder(n + 1);
    var b := "product_id" + " = " + Placeholder(n + 2);
    assert RenderTerms(keys, n + 1) == [a, b];
    assert [a, b][1..] == [b];
    assert Join([a, b], " AND ") == a + " AND " + b;
    assert LiveWhere(keys, n + 1) == "WHERE " + (a + " AND " + b) + " AND removed = FALSE RETURNING *";
    var s := UpdateStatement(PerformanceTarget, [Str(assetId), Str(productId)], input).value;
    var sets := Join(RenderTerms(changes, 1), ", ");
    assert s.text == "UPDATE " + "performance_target" + " SET " + sets + " " + LiveWhere(keys, n + 1);
    CompositeKeyText(sets, Placeholder(n + 1), Placeholder(n + 2));
  }

  lemma CompositeKeyText(sets: string, p: string, q: string)
    ensures "UPDATE " + "performance_target" + " SET " + sets + " "
            + ("WHERE " + (("asset_id" + " = " + p) + " AND " + ("product_id" + " = " + q)) + " AND removed = FALSE RETURNING *")
            == "UPDATE performance_target SET " + sets
               + " WHERE asset_id = " + p + " AND product_id = " + q
               + " AND removed = FALSE RETURNING *"
  {
    UpdateHead();
    WhereHead();
    SecondKeyHead();
    Regroup("UPDATE ", "performance_target", " SET ", sets, "WHERE ", "asset_id", " = ", p, " AND ",
            "product_id", q, " AND removed = FALSE RETURNING *");
  }

  lemma UpdateHead()
    ensures "UPDATE " + "performance_target" + " SET " == "UPDATE performance_target SET "
  {
  }

  lemma WhereHead()
    ensures " " + "WHERE " + "asset_id" + " = " == " WHERE asset_id = "
  {
  }

  lemma SecondKeyHead()
    ensures " AND " + "product_id" + " = " == " AND product_id = "
  {
  }

  lemma Regroup(u: string, t: string, st: string, sets: string, w: string, k1: string, eq: string, p: string,
                conj: string, k2: string, q: string, tail: string)
    ensures u + t + st + sets + " " + (w + ((k1 + eq + p) + conj + (k2 + eq + q)) + tail)
            == (u + t + st) + sets + (" " + w + k1 + eq) + p + (conj + k2 + eq) + q + tail
  {
  }

  /** The composite-key delete binds `asset_id` as `$1` and `product_id` as
      `$2`: the key conditions its WHERE clause joins, and its values. */
  lemma DeletePerformanceTargetPlaceholders(assetId: string, productId: string)
    ensures RenderTerms(KeyTerms(PerformanceTarget.keyColumns, [Str(assetId), Str(productId)]), 1)
            == ["asset_id = $1", "product_id = $2"]
    ensures DeleteStatement(PerformanceTarget, [Str(assetId), Str(productId)]).values == [Str(assetId), Str(productId)]
  {
    var keys := [Term("asset_id", Eq, Str(assetId)), Term("product_id", Eq, Str(productId))];
    KeyTermsPair(Str(assetId), Str(productId));
    assert keys[..1] == [keys[0]];
    RenderTermText(keys[0], 1);
    RenderTermText(keys[1], 2);
    assert Placeholder(1) == "$1" && Placeholder(2) == "$2";
    assert RenderTerms(keys, 1) == [RenderTerm(keys[0], 1), RenderTerm(keys[1], 2)];
    assert RenderTerm(keys[0], 1) == "asset_id" + " = " + "$1" == "asset_id = $1";
    assert RenderTerm(keys[1], 2) == "product_id" + " = " + "$2" == "product_id = $2";
  }
}
