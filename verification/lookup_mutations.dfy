/** The `update*` and `delete*` mutations of the lookup tables. Each update
    is the generic partial update over its table's declared columns with the
    id bound last; each delete is the generic soft delete by id. Ids arrive
    as GraphQL `ID` strings. */
module LookupMutations {
  import opened Wrappers
  import opened JsValues
  import opened Text
  import opened QueryBuilder
  import opened Mutations

  const AssetType := Entity(
      "asset_type",
      ["asset_type_name", "asset_type_description"],
      ["asset_type_id"],
      "Asset type not found",
      "Asset type not found or already deleted")
  const StateType := Entity(
      "state_type",
      ["state_type_name", "state_type_description", "state_type_color", "is_downtime"],
      ["state_type_id"],
      "State type not found",
      "State type not found or already deleted")
  const StateDefinition := Entity(
      "state_definition",
      ["state_type_id", "state_name", "state_description", "state_color"],
      ["state_id"],
      "State definition not found",
      "State definition not found or already deleted")
  const DowntimeReason := Entity(
      "downtime_reason",
      ["downtime_reason_code", "downtime_reason_name", "downtime_reason_description", "is_planned"],
      ["downtime_reason_id"],
      "Downtime reason not found",
      "Downtime reason not found or already deleted")
  const CountType := Entity(
      "count_type",
      ["count_type_name", "count_type_description", "count_type_unit"],
      ["count_type_id"],
      "Count type not found",
      "Count type not found or already deleted")
  const MeasurementType := Entity(
      "measurement_type",
      ["measurement_type_name", "measurement_type_description", "measurement_type_unit"],
      ["measurement_type_id"],
      "Measurement type not found",
      "Measurement type not found or already deleted")
  const KpiDefinition := Entity(
      "kpi_definition",
      ["kpi_name", "kpi_description", "kpi_unit", "kpi_formula"],
      ["kpi_id"],
      "KPI definition not found",
      "KPI definition not found or already deleted")

  lemma AssetTypeWellFormed()
    ensures WellFormed(AssetType)
  {
  }

  lemma StateTypeWellFormed()
    ensures WellFormed(StateType)
  {
  }

  lemma StateDefinitionWellFormed()
    ensures WellFormed(StateDefinition)
  {
  }

  lemma DowntimeReasonWellFormed()
    ensures WellFormed(DowntimeReason)
  {
  }

  lemma CountTypeWellFormed()
    ensures WellFormed(CountType)
  {
  }

  lemma MeasurementTypeWellFormed()
    ensures WellFormed(MeasurementType)
  {
  }

  lemma KpiDefinitionWellFormed()
    ensures WellFormed(KpiDefinition)
  {
  }

  method UpdateAssetType(assetTypeId: string, input: JsObject, rowsReturned: nat) returns (r: Result<Statement, string>)
    ensures r.Failure? <==> NoFields(AssetType.columns, input) || rowsReturned == 0
    ensures NoFields(AssetType.columns, input) ==> r == Failure("No fields to update")
    ensures !NoFields(AssetType.columns, input) && rowsReturned == 0 ==> r == Failure("Asset type not found")
    ensures r.Success? ==> |r.value.values| > 0 && r.value.values[|r.value.values| - 1] == Str(assetTypeId)
    ensures r.Success? ==> DecodeUpdate(r.value.text, r.value.values)
                           == Some(("asset_type", SetTerms(AssetType.columns, input), [Term("asset_type_id", Eq, Str(assetTypeId))]))
    ensures r.Success? ==> r == UpdateStatement(AssetType, [Str(assetTypeId)], input)
  {
    AssetTypeWellFormed();
    KeyTermsOne("asset_type_id", Str(assetTypeId));
    r := Update(AssetType, [Str(assetTypeId)], input, rowsReturned);
  }

  function DeleteAssetType(assetTypeId: string, rowsReturned: nat): (r: Result<Statement, string>)
    ensures r.Success? <==> rowsReturned > 0
    ensures r.Failure? ==> r.error == "Asset type not found or already deleted"
    ensures r.Success? ==> && r.value.values == [Str(assetTypeId)]
                           && DecodeSoftDelete(r.value.text, r.value.values)
                              == Some(("asset_type", [Term("asset_type_id", Eq, Str(assetTypeId))]))
  {
    AssetTypeWellFormed();
    KeyTermsOne("asset_type_id", Str(assetTypeId));
    SoftDelete(AssetType, [Str(assetTypeId)], rowsReturned)
  }

  method UpdateStateType(stateTypeId: string, input: JsObject, rowsReturned: nat) returns (r: Result<Statement, string>)
    ensures r.Failure? <==> NoFields(StateType.columns, input) || rowsReturned == 0
    ensures NoFields(StateType.columns, input) ==> r == Failure("No fields to update")
    ensures !NoFields(StateType.columns, input) && rowsReturned == 0 ==> r == Failure("State type not found")
    ensures r.Success? ==> |r.value.values| > 0 && r.value.values[|r.value.values| - 1] == Str(stateTypeId)
    ensures r.Success? ==> DecodeUpdate(r.value.text, r.value.values)
                           == Some(("state_type", SetTerms(StateType.columns, input), [Term("state_type_id", Eq, Str(stateTypeId))]))
    ensures r.Success? ==> r == UpdateStatement(StateType, [Str(stateTypeId)], input)
  {
    StateTypeWellFormed();
    KeyTermsOne("state_type_id", Str(stateTypeId));
    r := Update(StateType, [Str(stateTypeId)], input, rowsReturned);
  }

  function DeleteStateType(stateTypeId: string, rowsReturned: nat): (r: Result<Statement, string>)
    ensures r.Success? <==> rowsReturned > 0
    ensures r.Failure? ==> r.error == "State type not found or already deleted"
    ensures r.Success? ==> && r.value.values == [Str(stateTypeId)]
                           && DecodeSoftDelete(r.value.text, r.value.values)
                              == Some(("state_type", [Term("state_type_id", Eq, Str(stateTypeId))]))
  {
    StateTypeWellFormed();
    KeyTermsOne("state_type_id", Str(stateTypeId));
    SoftDelete(StateType, [Str(stateTypeId)], rowsReturned)
  }

  method UpdateStateDefinition(stateId: string, input: JsObject, rowsReturned: nat) returns (r: Result<Statement, string>)
    ensures r.Failure? <==> NoFields(StateDefinition.columns, input) || rowsReturned == 0
    ensures NoFields(StateDefinition.columns, input) ==> r == Failure("No fields to update")
    ensures !NoFields(StateDefinition.columns, input) && rowsReturned == 0 ==> r == Failure("State definition not found")
    ensures r.Success? ==> |r.value.values| > 0 && r.value.values[|r.value.values| - 1] == Str(stateId)
    ensures r.Success? ==> DecodeUpdate(r.value.text, r.value.values)
                           == Some(("state_definition", SetTerms(StateDefinition.columns, input), [Term("state_id", Eq, Str(stateId))]))
    ensures r.Success? ==> r == UpdateStatement(StateDefinition, [Str(stateId)], input)
  {
    StateDefinitionWellFormed();
    KeyTermsOne("state_id", Str(stateId));
    r := Update(StateDefinition, [Str(stateId)], input, rowsReturned);
  }

  function DeleteStateDefinition(stateId: string, rowsReturned: nat): (r: Result<Statement, string>)
    ensures r.Success? <==> rowsReturned > 0
    ensures r.Failure? ==> r.error == "State definition not found or already deleted"
    ensures r.Success? ==> && r.value.values == [Str(stateId)]
                           && DecodeSoftDelete(r.value.text, r.value.values)
                              == Some(("state_definition", [Term("state_id", Eq, Str(stateId))]))
  {
    StateDefinitionWellFormed();
    KeyTermsOne("state_id", Str(stateId));
    SoftDelete(StateDefinition, [Str(stateId)], rowsReturned)
  }

  method UpdateDowntimeReason(downtimeReasonId: string, input: JsObject, rowsReturned: nat) returns (r: Result<Statement, string>)
    ensures r.Failure? <==> NoFields(DowntimeReason.columns, input) || rowsReturned == 0
    ensures NoFields(DowntimeReason.columns, input) ==> r == Failure("No fields to update")
    ensures !NoFields(DowntimeReason.columns, input) && rowsReturned == 0 ==> r == Failure("Downtime reason not found")
    ensures r.Success? ==> |r.value.values| > 0 && r.value.values[|r.value.values| - 1] == Str(downtimeReasonId)
    ensures r.Success? ==> DecodeUpdate(r.value.text, r.value.values)
                           == Some(("downtime_reason", SetTerms(DowntimeReason.columns, input), [Term("downtime_reason_id", Eq, Str(downtimeReasonId))]))
    ensures r.Success? ==> r == UpdateStatement(DowntimeReason, [Str(downtimeReasonId)], input)
  {
    DowntimeReasonWellFormed();
    KeyTermsOne("downtime_reason_id", Str(downtimeReasonId));
    r := Update(DowntimeReason, [Str(downtimeReasonId)], input, rowsReturned);
  }

  function DeleteDowntimeReason(downtimeReasonId: string, rowsReturned: nat): (r: Result<Statement, string>)
    ensures r.Success? <==> rowsReturned > 0
    ensures r.Failure? ==> r.error == "Downtime reason not found or already deleted"
    ensures r.Success? ==> && r.value.values == [Str(downtimeReasonId)]
                           && DecodeSoftDelete(r.value.text, r.value.values)
                              == Some(("downtime_reason", [Term("downtime_reason_id", Eq, Str(downtimeReasonId))]))
  {
    DowntimeReasonWellFormed();
    KeyTermsOne("downtime_reason_id", Str(downtimeReasonId));
    SoftDelete(DowntimeReason, [Str(downtimeReasonId)], rowsReturned)
  }

  method UpdateCountType(countTypeId: string, input: JsObject, rowsReturned: nat) returns (r: Result<Statement, string>)
    ensures r.Failure? <==> NoFields(CountType.columns, input) || rowsReturned == 0
    ensures NoFields(CountType.columns, input) ==> r == Failure("No fields to update")
    ensures !NoFields(CountType.columns, input) && rowsReturned == 0 ==> r == Failure("Count type not found")
    ensures r.Success? ==> |r.value.values| > 0 && r.value.values[|r.value.values| - 1] == Str(countTypeId)
    ensures r.Success? ==> DecodeUpdate(r.value.text, r.value.values)
                           == Some(("count_type", SetTerms(CountType.columns, input), [Term("count_type_id", Eq, Str(countTypeId))]))
    ensures r.Success? ==> r == UpdateStatement(CountType, [Str(countTypeId)], input)
  {
    CountTypeWellFormed();
    KeyTermsOne("count_type_id", Str(countTypeId));
    r := Update(CountType, [Str(countTypeId)], input, rowsReturned);
  }

  function DeleteCountType(countTypeId: string, rowsReturned: nat): (r: Result<Statement, string>)
    ensures r.Success? <==> rowsReturned > 0
    ensures r.Failure? ==> r.error == "Count type not found or already deleted"
    ensures r.Success? ==> && r.value.values == [Str(countTypeId)]
                           && DecodeSoftDelete(r.value.text, r.value.values)
                              == Some(("count_type", [Term("count_type_id", Eq, Str(countTypeId))]))
  {
    CountTypeWellFormed();
    KeyTermsOne("count_type_id", Str(countTypeId));
    SoftDelete(CountType, [Str(countTypeId)], rowsReturned)
  }

  method UpdateMeasurementType(measurementTypeId: string, input: JsObject, rowsReturned: nat) returns (r: Result<Statement, string>)
    ensures r.Failure? <==> NoFields(MeasurementType.columns, input) || rowsReturned == 0
    ensures NoFields(MeasurementType.columns, input) ==> r == Failure("No fields to update")
    ensures !NoFields(MeasurementType.columns, input) && rowsReturned == 0 ==> r == Failure("Measurement type not found")
    ensures r.Success? ==> |r.value.values| > 0 && r.value.values[|r.value.values| - 1] == Str(measurementTypeId)
    ensures r.Success? ==> DecodeUpdate(r.value.text, r.value.values)
                           == Some(("measurement_type", SetTerms(MeasurementType.columns, input), [Term("measurement_type_id", Eq, Str(measurementTypeId))]))
    ensures r.Success? ==> r == UpdateStatement(MeasurementType, [Str(measurementTypeId)], input)
  {
    MeasurementTypeWellFormed();
    KeyTermsOne("measurement_type_id", Str(measurementTypeId));
    r := Update(MeasurementType, [Str(measurementTypeId)], input, rowsReturned);
  }

  function DeleteMeasurementType(measurementTypeId: string, rowsReturned: nat): (r: Result<Statement, string>)
    ensures r.Success? <==> rowsReturned > 0
    ensures r.Failure? ==> r.error == "Measurement type not found or already deleted"
    ensures r.Success? ==> && r.value.values == [Str(measurementTypeId)]
                           && DecodeSoftDelete(r.value.text, r.value.values)
                              == Some(("measurement_type", [Term("measurement_type_id", Eq, Str(measurementTypeId))]))
  {
    MeasurementTypeWellFormed();
    KeyTermsOne("measurement_type_id", Str(measurementTypeId));
    SoftDelete(MeasurementType, [Str(measurementTypeId)], rowsReturned)
  }

  method UpdateKpiDefinition(kpiId: string, input: JsObject, rowsReturned: nat) returns (r: Result<Statement, string>)
    ensures r.Failure? <==> NoFields(KpiDefinition.columns, input) || rowsReturned == 0
    ensures NoFields(KpiDefinition.columns, input) ==> r == Failure("No fields to update")
    ensures !NoFields(KpiDefinition.columns, input) && rowsReturned == 0 ==> r == Failure("KPI definition not found")
    ensures r.Success? ==> |r.value.values| > 0 && r.value.values[|r.value.values| - 1] == Str(kpiId)
    ensures r.Success? ==> DecodeUpdate(r.value.text, r.value.values)
                           == Some(("kpi_definition", SetTerms(KpiDefinition.columns, input), [Term("kpi_id", Eq, Str(kpiId))]))
    ensures r.Success? ==> r == UpdateStatement(KpiDefinition, [Str(kpiId)], input)
  {
    KpiDefinitionWellFormed();
    KeyTermsOne("kpi_id", Str(kpiId));
    r := Update(KpiDefinition, [Str(kpiId)], input, rowsReturned);
  }

  function DeleteKpiDefinition(kpiId: string, rowsReturned: nat): (r: Result<Statement, string>)
    ensures r.Success? <==> rowsReturned > 0
    ensures r.Failure? ==> r.error == "KPI definition not found or already deleted"
    ensures r.Success? ==> && r.value.values == [Str(kpiId)]
                           && DecodeSoftDelete(r.value.text, r.value.values)
                              == Some(("kpi_definition", [Term("kpi_id", Eq, Str(kpiId))]))
  {
    KpiDefinitionWellFormed();
    KeyTermsOne("kpi_id", Str(kpiId));
    SoftDelete(KpiDefinition, [Str(kpiId)], rowsReturned)
  }

  /** `is_downtime: false` is present, so it is assigned. */
  lemma FalseDowntimeAssigned(input: JsObject)
    requires Get(input, "is_downtime") == Bool(false)
    ensures !NoFields(StateType.columns, input)
    ensures Term("is_downtime", Eq, Bool(false)) in SetTerms(StateType.columns, input)
  {
    assert StateType.columns[3] == "is_downtime";
    PresentColumnAssigned(StateType, [Str("")], input, "is_downtime");
  }

  /** `is_planned: false` is present, so it is assigned. */
  lemma FalsePlannedAssigned(input: JsObject)
    requires Get(input, "is_planned") == Bool(false)
    ensures !NoFields(DowntimeReason.columns, input)
    ensures Term("is_planned", Eq, Bool(false)) in SetTerms(DowntimeReason.columns, input)
  {
    assert DowntimeReason.columns[3] == "is_planned";
    PresentColumnAssigned(DowntimeReason, [Str("")], input, "is_planned");
  }
}
