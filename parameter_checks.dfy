/** How the registry's clamping validator and the stand-alone input
    validators relate: what the first lets through, the second accepts. */
module ParameterChecks {
  import opened Wrappers
  import opened ModelsConfig
  import opened Validators

  /** For every shipped model, what the registry validator lets through
      also passes the stand-alone range checks with their default limits. */
  lemma ValidatedPassesRangeChecks(i: int, p: Params)
    requires 0 <= i < |AvailableModels|
    ensures var v := ValidateFor(AvailableModels[i], p);
      && (v.width.Some? && v.height.Some? ==> ValidateImageDimensions(v.width.value, v.height.value) == Pass)
      && (v.numInferenceSteps.Some? ==> ValidateSteps(v.numInferenceSteps.value) == Pass)
      && (v.guidanceScale.Some? ==> ValidateGuidanceScale(v.guidanceScale.value) == Pass)
  {
    RegistryInvariants();
    ValidatedRanges(AvailableModels[i], p);
  }

  /** Checking an id against `get_model_ids_list()` with `validate_model_id`
      agrees with the registry's own existence check, except that the
      empty id gets its own error. */
  lemma ModelIdChecksAgree(models: seq<Descriptor>, id: string)
    ensures Validators.ValidateModelId(id, ModelIds(models)).Pass? <==> id != "" && IsValidModelId(models, id)
  {
  }
}
