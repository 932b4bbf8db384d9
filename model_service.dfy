/** The service layer over the registry: a summary with counts and the
    sorted tag list, a case-insensitive text search, a simplified listing
    for the UI, and thin delegations to the registry functions. */
module ModelService {
  import opened Wrappers
  import Text
  import opened ModelsConfig

  // ---------------------------------------------------------------------
  // Summary

  /** The field a count is grouped by. */
  datatype Grouping = ByCategory | ByProvider

  function GroupKey(d: Descriptor, g: Grouping): string
  {
    match g
    case ByCategory => d.category
    case ByProvider => d.provider
  }

  /** How many entries of `s` have key `k` under grouping `g`. */
  function Occurrences(s: seq<Descriptor>, g: Grouping, k: string): nat
  {
    if s == [] then 0
    else Occurrences(s[..|s| - 1], g, k) + (if GroupKey(s[|s| - 1], g) == k then 1 else 0)
  }

  /** The dictionary the summary loop builds with
      `counts[key] = counts.get(key, 0) + 1`, one entry at a time. */
  function CountBy(s: seq<Descriptor>, g: Grouping): map<string, nat>
  {
    if s == [] then map[]
    else
      var m := CountBy(s[..|s| - 1], g);
      var k := GroupKey(s[|s| - 1], g);
      m[k := (if k in m then m[k] else 0) + 1]
  }

  /** A key is counted exactly when it occurs, with its number of occurrences. */
  lemma {:induction false} CountByMeaning(s: seq<Descriptor>, g: Grouping)
    ensures forall k :: k in CountBy(s, g) <==> Occurrences(s, g, k) > 0
    ensures forall k :: k in CountBy(s, g) ==> CountBy(s, g)[k] == Occurrences(s, g, k)
  {
    if s != [] {
      CountByMeaning(s[..|s| - 1], g);
    }
  }

  /** The sum of a map's values. */
  ghost function SumValues(m: map<string, nat>): nat
    decreases |m|
  {
    if m == map[] then 0
    else
      var k :| k in m;
      m[k] + SumValues(m - {k})
  }

  /** The sum can be taken starting from any key. */
  lemma {:induction false} SumValuesRemove(m: map<string, nat>, k: string)
    requires k in m
    ensures SumValues(m) == m[k] + SumValues(m - {k})
    decreases |m|
  {
    var k' :| k' in m && SumValues(m) == m[k'] + SumValues(m - {k'});
    if k' != k {
      var both := m - {k'} - {k};
      assert m - {k} - {k'} == both;
      SumValuesRemove(m - {k'}, k);
      SumValuesRemove(m - {k}, k');
    }
  }

  /** The counts of a summary add up to the number of entries. */
  lemma {:induction false} CountsSumToTotal(s: seq<Descriptor>, g: Grouping)
    ensures SumValues(CountBy(s, g)) == |s|
  {
    if s != [] {
      var m := CountBy(s[..|s| - 1], g);
      var k := GroupKey(s[|s| - 1], g);
      var v := (if k in m then m[k] else 0) + 1;
      CountsSumToTotal(s[..|s| - 1], g);
      SumValuesRemove(m[k := v], k);
      assert m[k := v] - {k} == m - {k};
      if k in m {
        SumValuesRemove(m, k);
      } else {
        assert m - {k} == m;
      }
    }
  }

  /** The union of the tag lists of `s`, built entry by entry. */
  function TagsOf(s: seq<Descriptor>): set<string>
  {
    if s == [] then {} else TagsOf(s[..|s| - 1]) + TagSet(s[|s| - 1].tags)
  }

  /** The collected tags are exactly those in some entry's tag list. */
  lemma {:induction false} TagsOfMeaning(s: seq<Descriptor>)
    ensures forall t :: t in TagsOf(s) <==> exists i :: 0 <= i < |s| && t in s[i].tags
  {
    if s != [] {
      TagsOfMeaning(s[..|s| - 1]);
      assert forall i :: 0 <= i < |s| - 1 ==> s[..|s| - 1][i] == s[i];
    }
  }

  /** `set(tags)`. */
  function TagSet(tags: seq<string>): (r: set<string>)
    ensures forall t :: t in r <==> t in tags
  {
    set t | t in tags
  }

  /** The dictionary of counts one loop of the summary builds. */
  method CountModels(models: seq<Descriptor>, g: Grouping) returns (counts: map<string, nat>)
    ensures counts == CountBy(models, g)
  {
    counts := map[];
    for i := 0 to |models|
      invariant counts == CountBy(models[..i], g)
    {
      var key := GroupKey(models[i], g);
      counts := counts[key := (if key in counts then counts[key] else 0) + 1];
      assert models[..i + 1][..i] == models[..i];
    }
    assert models[..|models|] == models;
  }

  /** The set of all tags the summary's last loop collects. */
  method CollectTags(models: seq<Descriptor>) returns (allTags: set<string>)
    ensures allTags == TagsOf(models)
    ensures forall t :: t in allTags <==> exists i :: 0 <= i < |models| && t in models[i].tags
  {
    allTags := {};
    for i := 0 to |models|
      invariant allTags == TagsOf(models[..i])
    {
      allTags := allTags + TagSet(models[i].tags);
      assert models[..i + 1][..i] == models[..i];
    }
    assert models[..|models|] == models;
    TagsOfMeaning(models);
  }

  datatype ModelSummary = ModelSummary(
    totalModels: nat,
    categories: map<string, nat>,
    providers: map<string, nat>,
    uniqueTags: seq<string>)

  /** `ModelService.get_model_summary`. */
  method GetModelSummary(models: seq<Descriptor>) returns (summary: ModelSummary)
    ensures summary.totalModels == |models|
    ensures summary.categories == CountBy(models, ByCategory)
    ensures summary.providers == CountBy(models, ByProvider)
    ensures Text.StrictlySorted(summary.uniqueTags)
    ensures forall t :: t in summary.uniqueTags <==> exists i :: 0 <= i < |models| && t in models[i].tags
  {
    var categories := CountModels(models, ByCategory);
    var providers := CountModels(models, ByProvider);
    var allTags := CollectTags(models);
    var sortedTags := Text.SortedList(allTags);
    summary := ModelSummary(|models|, categories, providers, sortedTags);
  }

  /** What the summary's maps mean: each key is a category (provider) that
      occurs, mapped to its number of entries, and the counts add up to
      the total. */
  lemma SummaryCounts(models: seq<Descriptor>, g: Grouping)
    ensures forall k :: k in CountBy(models, g) <==> exists i :: 0 <= i < |models| && GroupKey(models[i], g) == k
    ensures forall k :: k in CountBy(models, g) ==> CountBy(models, g)[k] == Occurrences(models, g, k)
    ensures SumValues(CountBy(models, g)) == |models|
  {
    CountByMeaning(models, g);
    CountsSumToTotal(models, g);
    forall k ensures Occurrences(models, g, k) > 0 <==> exists i :: 0 <= i < |models| && GroupKey(models[i], g) == k {
      OccursSomewhere(models, g, k);
    }
  }

  lemma {:induction false} OccursSomewhere(s: seq<Descriptor>, g: Grouping, k: string)
    ensures Occurrences(s, g, k) > 0 <==> exists i :: 0 <= i < |s| && GroupKey(s[i], g) == k
  {
    if s != [] {
      OccursSomewhere(s[..|s| - 1], g, k);
      assert forall i :: 0 <= i < |s| - 1 ==> s[..|s| - 1][i] == s[i];
    }
  }

  // ---------------------------------------------------------------------
  // Search

  /** `ModelService.search_models`: the empty query returns the registry;
      otherwise the lower-cased query is looked for in each entry's
      lower-cased name, then description, then tags. */
  method SearchModels(models: seq<Descriptor>, query: string) returns (results: seq<Descriptor>)
    ensures query == "" ==> results == models
    ensures query != "" ==> results == Select(models, MatchesText(Text.Lower(query)))
    ensures forall d :: d in results <==> d in models && (query == "" || Selects(MatchesText(Text.Lower(query)), d))
  {
    if query == "" {
      return models;
    }
    var queryLower := Text.Lower(query);
    ghost var c := MatchesText(queryLower);
    results := [];
    for i := 0 to |models|
      invariant results == Select(models[..i], c)
    {
      var model := models[i];
      assert models[..i + 1] == models[..i] + [model];
      SelectSnoc(models[..i], model, c);
      if Text.Contains(Text.Lower(model.name), queryLower) {
        results := results + [model];
        continue;
      }
      if Text.Contains(Text.Lower(model.description), queryLower) {
        results := results + [model];
        continue;
      }
      if exists t :: t in model.tags && Text.Contains(Text.Lower(t), queryLower) {
        results := results + [model];
        continue;
      }
    }
    assert models[..|models|] == models;
  }

  // ---------------------------------------------------------------------
  // UI listing

  datatype UiDefaults = UiDefaults(width: int, height: int, steps: int, guidance: real)

  datatype UiModel = UiModel(
    id: string,
    name: string,
    description: string,
    category: string,
    estimatedTime: string,
    tags: seq<string>,
    defaultParams: UiDefaults)

  /** `ModelService.get_models_for_ui`: one simplified item per entry, in
      registry order. */
  method GetModelsForUi(models: seq<Descriptor>) returns (uiModels: seq<UiModel>)
    ensures |uiModels| == |models|
    ensures forall i :: 0 <= i < |models| ==>
      var d := models[i];
      uiModels[i] == UiModel(d.id, d.name, d.description, d.category, d.estimatedTime, d.tags,
                             UiDefaults(d.defaultWidth, d.defaultHeight, d.defaultSteps, d.defaultGuidance))
  {
    uiModels := [];
    for i := 0 to |models|
      invariant |uiModels| == i
      invariant forall j :: 0 <= j < i ==>
        var d := models[j];
        uiModels[j] == UiModel(d.id, d.name, d.description, d.category, d.estimatedTime, d.tags,
                               UiDefaults(d.defaultWidth, d.defaultHeight, d.defaultSteps, d.defaultGuidance))
    {
      var model := models[i];
      uiModels := uiModels + [UiModel(
        model.id, model.name, model.description, model.category, model.estimatedTime, model.tags,
        UiDefaults(model.defaultWidth, model.defaultHeight, model.defaultSteps, model.defaultGuidance))];
    }
  }

  // ---------------------------------------------------------------------
  // Delegations

  /** `ModelService.get_model_details`. */
  method GetModelDetails(models: seq<Descriptor>, id: string) returns (r: Option<Descriptor>)
    ensures r.None? <==> !IsValidModelId(models, id)
    ensures r.Some? ==> r.value in models && r.value.id == id
    ensures r == FindById(models, id)
  {
    r := GetModelById(models, id);
  }

  /** `ModelService.validate_model_id`. */
  function ValidateModelId(models: seq<Descriptor>, id: string): (r: bool)
    ensures r <==> exists i :: 0 <= i < |models| && models[i].id == id
  {
    IsValidModelId(models, id)
  }

  /** `ModelService.get_default_parameters`: the registry's answer, error
      included. */
  function GetDefaultParameters(models: seq<Descriptor>, id: string): (r: Result<Defaults, RegistryError>)
    ensures r == DefaultParametersForModel(models, id)
    ensures r.Failure? <==> !IsValidModelId(models, id)
  {
    DefaultParametersForModel(models, id)
  }

  /** `ModelService.validate_and_prepare_parameters`: the registry
      validator's answer, error included. */
  method ValidateAndPrepareParameters(models: seq<Descriptor>, id: string, parameters: Params)
    returns (r: Result<Params, RegistryError>)
    ensures r.Failure? <==> !IsValidModelId(models, id)
    ensures r.Failure? ==> r.error == ModelNotFound(id)
    ensures r.Success? ==> FindById(models, id).Some? && r.value == ValidateFor(FindById(models, id).value, parameters)
  {
    r := ValidateParametersForModel(models, id, parameters);
  }

  /** The UI listing's defaults agree with the default-parameters query. */
  lemma UiDefaultsAgree(models: seq<Descriptor>, i: int)
    requires UniqueIds(models)
    requires 0 <= i < |models|
    ensures GetDefaultParameters(models, models[i].id)
      == Success(Defaults(models[i].defaultWidth, models[i].defaultHeight,
                          models[i].defaultSteps, models[i].defaultGuidance))
  {
    DefaultsOfEntry(models, i);
  }

  /** Searching for one of an entry's own tags, in any letter case,
      finds that entry. */
  lemma SearchFindsOwnTag(models: seq<Descriptor>, d: Descriptor, tag: string)
    requires d in models && tag in d.tags
    ensures d in Select(models, MatchesText(Text.Lower(tag)))
  {
    assert Text.OccursAt(Text.Lower(tag), Text.Lower(tag), 0);
  }

  /** Searching "fast" in the shipped registry finds SDXL Lightning. */
  lemma SearchFastFindsLightning()
    ensures AvailableModels[1] in Select(AvailableModels, MatchesText(Text.Lower("fast")))
  {
    assert "fast" in AvailableModels[1].tags;
    SearchFindsOwnTag(AvailableModels, AvailableModels[1], "fast");
  }
}
