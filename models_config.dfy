/** The model capability registry: a fixed table of model descriptors,
    lookups over it, default parameters, and the validator that clamps a
    bag of generation parameters to what one model supports. */
module ModelsConfig {
  import opened Wrappers
  import Text

  /** One entry of the registry: what a generation model supports. */
  datatype Descriptor = Descriptor(
    id: string,
    name: string,
    description: string,
    provider: string,
    category: string,
    maxWidth: int,
    maxHeight: int,
    defaultWidth: int,
    defaultHeight: int,
    supportsNegativePrompt: bool,
    supportsSeed: bool,
    minSteps: int,
    maxSteps: int,
    defaultSteps: int,
    minGuidance: real,
    maxGuidance: real,
    defaultGuidance: real,
    estimatedTime: string,
    tags: seq<string>)

  /** The registry as the application ships it. */
  const AvailableModels: seq<Descriptor> := [
    Descriptor(
      "black-forest-labs/FLUX.1-dev", "FLUX.1 Dev",
      "High-quality image generation model with excellent prompt following",
      "fal-ai", "general",
      2048, 2048, 768, 768, true, true,
      20, 50, 30, 1.0, 20.0, 7.5,
      "15-30 seconds", ["realistic", "versatile", "high-quality"]),
    Descriptor(
      "ByteDance/SDXL-Lightning", "SDXL Lightning",
      "Fast, high-quality image generation optimized for speed",
      "fal-ai", "fast",
      1024, 1024, 768, 768, true, true,
      4, 20, 8, 1.0, 12.0, 7.0,
      "5-10 seconds", ["fast", "efficient", "realistic"]),
    Descriptor(
      "stabilityai/stable-diffusion-xl-base-1.0", "Stable Diffusion XL",
      "Popular and reliable image generation model",
      "replicate", "general",
      1536, 1536, 768, 768, true, true,
      20, 100, 50, 1.0, 20.0, 7.5,
      "20-40 seconds", ["reliable", "versatile", "popular"]),
    Descriptor(
      "ByteDance/Hyper-SD", "Hyper-SD",
      "Advanced model with excellent detail and coherence",
      "fal-ai", "general",
      1024, 1024, 768, 768, true, true,
      15, 40, 25, 1.0, 15.0, 7.5,
      "10-20 seconds", ["detailed", "coherent", "balanced"]),
    Descriptor(
      "Qwen/Qwen-Image", "Qwen Image",
      "Powerful model with strong artistic capabilities",
      "nebius", "artistic",
      2048, 2048, 768, 768, true, true,
      20, 60, 30, 1.0, 20.0, 8.0,
      "15-30 seconds", ["artistic", "creative", "versatile"])
  ]

  /** The floor every requested width and height is clamped to. */
  const MinDimension: int := 256

  /** The invariants every registry entry is meant to satisfy. */
  predicate WellFormed(d: Descriptor)
  {
    && d.id != ""
    && MinDimension <= d.defaultWidth <= d.maxWidth
    && MinDimension <= d.defaultHeight <= d.maxHeight
    && d.maxWidth % 8 == 0 && d.maxHeight % 8 == 0
    && d.defaultWidth % 8 == 0 && d.defaultHeight % 8 == 0
    && 1 <= d.minSteps <= d.defaultSteps <= d.maxSteps
    && d.minGuidance <= d.defaultGuidance <= d.maxGuidance
  }

  /** No two entries share an id. */
  predicate UniqueIds(models: seq<Descriptor>)
  {
    forall i, j :: 0 <= i < j < |models| ==> models[i].id != models[j].id
  }

  /** The shipped table satisfies the registry invariants. */
  lemma RegistryInvariants()
    ensures |AvailableModels| == 5
    ensures forall i :: 0 <= i < |AvailableModels| ==> WellFormed(AvailableModels[i])
    ensures UniqueIds(AvailableModels)
  {
  }

  // ---------------------------------------------------------------------
  // Lookups

  /** The first entry whose id equals `id` exactly, if any. */
  function FindById(models: seq<Descriptor>, id: string): (r: Option<Descriptor>)
    ensures r.None? <==> forall i :: 0 <= i < |models| ==> models[i].id != id
    ensures r.Some? ==>
      exists i :: 0 <= i < |models| && models[i] == r.value && r.value.id == id
        && forall j :: 0 <= j < i ==> models[j].id != id
  {
    if models == [] then None
    else if models[0].id == id then Some(models[0])
    else
      var r := FindById(models[1..], id);
      assert forall i :: 0 < i < |models| ==> models[i] == models[1..][i - 1];
      r
  }

  /** With unique ids, looking up an entry's id finds that entry. */
  lemma FindByIdUnique(models: seq<Descriptor>, i: int)
    requires UniqueIds(models)
    requires 0 <= i < |models|
    ensures FindById(models, models[i].id) == Some(models[i])
  {
  }

  /** `get_model_by_id`: scans the registry and returns the first entry
      with an equal id, or `None`. */
  method GetModelById(models: seq<Descriptor>, id: string) returns (r: Option<Descriptor>)
    ensures r == FindById(models, id)
  {
    for i := 0 to |models|
      invariant FindById(models, id) == FindById(models[i..], id)
    {
      if models[i].id == id {
        return Some(models[i]);
      }
      assert models[i..][1..] == models[i + 1..];
    }
    return None;
  }

  /** `is_valid_model_id`. */
  function IsValidModelId(models: seq<Descriptor>, id: string): (r: bool)
    ensures r <==> FindById(models, id).Some?
  {
    exists i :: 0 <= i < |models| && models[i].id == id
  }

  /** `get_model_names_list`. */
  function ModelNames(models: seq<Descriptor>): (r: seq<string>)
    ensures |r| == |models|
    ensures forall i :: 0 <= i < |models| ==> r[i] == models[i].name
  {
    seq(|models|, i requires 0 <= i < |models| => models[i].name)
  }

  /** `get_model_ids_list`: its members are exactly the valid ids, and it
      is free of repeats exactly when the registry's ids are unique. */
  function ModelIds(models: seq<Descriptor>): (r: seq<string>)
    ensures |r| == |models| && forall i :: 0 <= i < |models| ==> r[i] == models[i].id
    ensures forall x :: x in r <==> IsValidModelId(models, x)
    ensures UniqueIds(models) <==> forall i, j :: 0 <= i < j < |r| ==> r[i] != r[j]
  {
    seq(|models|, i requires 0 <= i < |models| => models[i].id)
  }

  /** What a filter over the registry keeps. */
  datatype Criterion =
    | InCategory(category: string)
    | HasTag(tag: string)
      /** `query` is already lower-cased */
    | MatchesText(query: string)

  predicate Selects(c: Criterion, d: Descriptor)
  {
    match c
    case InCategory(cat) => d.category == cat
    case HasTag(t) => t in d.tags
    case MatchesText(q) =>
      || Text.Contains(Text.Lower(d.name), q)
      || Text.Contains(Text.Lower(d.description), q)
      || exists t :: t in d.tags && Text.Contains(Text.Lower(t), q)
  }

  /** The entries that satisfy `c`, in registry order. */
  function Select(models: seq<Descriptor>, c: Criterion): (r: seq<Descriptor>)
    ensures forall d :: d in r <==> d in models && Selects(c, d)
    ensures |r| <= |models|
  {
    if models == [] then []
    else
      var rest := Select(models[1..], c);
      assert models == [models[0]] + models[1..];
      if Selects(c, models[0]) then [models[0]] + rest else rest
  }

  /** Every entry that satisfies `c` is selected as often as it occurs in
      the registry, every other entry not at all. */
  lemma {:induction false} SelectMultiplicity(models: seq<Descriptor>, c: Criterion)
    ensures forall d :: multiset(Select(models, c))[d] == if Selects(c, d) then multiset(models)[d] else 0
  {
    if models != [] {
      SelectMultiplicity(models[1..], c);
      assert models == [models[0]] + models[1..];
    }
  }

  /** Selection distributes over concatenation, so it keeps registry order. */
  lemma {:induction false} SelectConcat(a: seq<Descriptor>, b: seq<Descriptor>, c: Criterion)
    ensures Select(a + b, c) == Select(a, c) + Select(b, c)
  {
    if a == [] {
      assert a + b == b;
    } else {
      assert (a + b)[1..] == a[1..] + b;
      SelectConcat(a[1..], b, c);
    }
  }

  /** A one-entry registry is kept whole or dropped. */
  lemma SelectOne(d: Descriptor, c: Criterion)
    ensures Select([d], c) == if Selects(c, d) then [d] else []
  {
    assert [d][1..] == [];
  }

  /** Extending the registry by one entry extends the selection by that
      entry exactly when it satisfies the criterion. */
  lemma SelectSnoc(s: seq<Descriptor>, d: Descriptor, c: Criterion)
    ensures Select(s + [d], c) == Select(s, c) + (if Selects(c, d) then [d] else [])
  {
    SelectConcat(s, [d], c);
    SelectOne(d, c);
  }

  /** `get_models_by_category`: exact, case-sensitive match on the category. */
  function ModelsByCategory(models: seq<Descriptor>, category: string): (r: seq<Descriptor>)
    ensures forall d :: d in r <==> d in models && d.category == category
    ensures forall d :: multiset(r)[d] == if d.category == category then multiset(models)[d] else 0
  {
    SelectMultiplicity(models, InCategory(category));
    Select(models, InCategory(category))
  }

  /** `get_models_by_tag`: exact, case-sensitive membership of the tag. */
  function ModelsByTag(models: seq<Descriptor>, tag: string): (r: seq<Descriptor>)
    ensures forall d :: d in r <==> d in models && tag in d.tags
    ensures forall d :: multiset(r)[d] == if tag in d.tags then multiset(models)[d] else 0
  {
    SelectMultiplicity(models, HasTag(tag));
    Select(models, HasTag(tag))
  }

  // ---------------------------------------------------------------------
  // Default parameters

  /** The `ValueError` the registry functions raise. */
  datatype RegistryError = ModelNotFound(modelId: string)

  /** `{width, height, num_inference_steps, guidance_scale}`. */
  datatype Defaults = Defaults(width: int, height: int, numInferenceSteps: int, guidanceScale: real)

  /** `get_default_parameters_for_model`. */
  function DefaultParametersForModel(models: seq<Descriptor>, id: string): (r: Result<Defaults, RegistryError>)
    ensures r.Failure? <==> !IsValidModelId(models, id)
    ensures r.Failure? ==> r.error == ModelNotFound(id)
    ensures r.Success? ==>
      exists i :: 0 <= i < |models| && models[i].id == id
        && r.value == Defaults(models[i].defaultWidth, models[i].defaultHeight,
                               models[i].defaultSteps, models[i].defaultGuidance)
  {
    match FindById(models, id)
    case None => Failure(ModelNotFound(id))
    case Some(d) => Success(Defaults(d.defaultWidth, d.defaultHeight, d.defaultSteps, d.defaultGuidance))
  }

  /** With unique ids, the defaults of an entry are its own `default_*` fields. */
  lemma DefaultsOfEntry(models: seq<Descriptor>, i: int)
    requires UniqueIds(models)
    requires 0 <= i < |models|
    ensures DefaultParametersForModel(models, models[i].id)
      == Success(Defaults(models[i].defaultWidth, models[i].defaultHeight,
                          models[i].defaultSteps, models[i].defaultGuidance))
  {
    FindByIdUnique(models, i);
  }

  // ---------------------------------------------------------------------
  // Parameter validation

  /** The six recognised generation parameters; an absent key is `None`.
      Keys other than these six have no place in the bag. */
  datatype Params = Params(
    width: Option<int>,
    height: Option<int>,
    numInferenceSteps: Option<int>,
    guidanceScale: Option<real>,
    seed: Option<int>,
    negativePrompt: Option<string>)

  const EmptyParams: Params := Params(None, None, None, None, None, None)

  /** The names of the keys present in a bag. */
  function Keys(p: Params): (r: set<string>)
    ensures r <= {"width", "height", "num_inference_steps", "guidance_scale", "seed", "negative_prompt"}
    ensures p == EmptyParams <==> r == {}
  {
    (if p.width.Some? then {"width"} else {})
    + (if p.height.Some? then {"height"} else {})
    + (if p.numInferenceSteps.Some? then {"num_inference_steps"} else {})
    + (if p.guidanceScale.Some? then {"guidance_scale"} else {})
    + (if p.seed.Some? then {"seed"} else {})
    + (if p.negativePrompt.Some? then {"negative_prompt"} else {})
  }

  /** `max(lo, min(x, hi))` on integers. */
  function ClampInt(x: int, lo: int, hi: int): (r: int)
    ensures lo <= hi ==> lo <= r <= hi
    ensures lo <= x <= hi ==> r == x
    ensures x < lo ==> r == lo
    ensures hi < x ==> r == if lo <= hi then hi else lo
  {
    if x < hi then (if lo < x then x else lo) else (if lo < hi then hi else lo)
  }

  /** `max(lo, min(x, hi))` on guidance values. */
  function ClampReal(x: real, lo: real, hi: real): (r: real)
    ensures lo <= hi ==> lo <= r <= hi
    ensures lo <= x <= hi ==> r == x
    ensures x < lo ==> r == lo
    ensures hi < x ==> r == if lo <= hi then hi else lo
  {
    if x < hi then (if lo < x then x else lo) else (if lo < hi then hi else lo)
  }

  /** `(x // 8) * 8`: the largest multiple of 8 not above `x`. With a
      positive divisor Python's floor division and Dafny's `/` agree. */
  function RoundDown8(x: int): (r: int)
    ensures r % 8 == 0
    ensures r <= x < r + 8
  {
    (x / 8) * 8
  }

  /** Two multiples of 8 less than 8 apart are equal. */
  lemma MultiplesOf8Close(a: int, b: int)
    requires a % 8 == 0 && b % 8 == 0
    requires a <= b < a + 8
    ensures a == b
  {
    assert a == (a / 8) * 8 && b == (b / 8) * 8;
    assert a / 8 == b / 8;
  }

  /** A width or height: clamped to `[256, maxDim]`, then rounded down
      to a multiple of 8. */
  function ClampDimension(x: int, maxDim: int): (r: int)
    ensures r % 8 == 0
    ensures MinDimension <= r
    ensures MinDimension <= maxDim ==> r <= maxDim
    ensures maxDim < MinDimension ==> r == MinDimension
    ensures x < MinDimension ==> r == MinDimension
    ensures MinDimension <= x <= maxDim ==> r <= x < r + 8
    ensures MinDimension <= maxDim < x ==> r <= maxDim < r + 8
  {
    var c := ClampInt(x, MinDimension, maxDim);
    assert MinDimension % 8 == 0;
    var r := RoundDown8(c);
    assert MinDimension <= r by {
      if r < MinDimension {
        assert r + 8 <= MinDimension by {
          if MinDimension < r + 8 { MultiplesOf8Close(r, MinDimension); }
        }
      }
    }
    r
  }

  /** The bag `validate_parameters_for_model` returns for entry `d`. */
  function ValidateFor(d: Descriptor, p: Params): Params
  {
    Params(
      width := if p.width.Some? then Some(ClampDimension(p.width.value, d.maxWidth)) else None,
      height := if p.height.Some? then Some(ClampDimension(p.height.value, d.maxHeight)) else None,
      numInferenceSteps :=
        if p.numInferenceSteps.Some? then Some(ClampInt(p.numInferenceSteps.value, d.minSteps, d.maxSteps))
        else None,
      guidanceScale :=
        if p.guidanceScale.Some? then Some(ClampReal(p.guidanceScale.value, d.minGuidance, d.maxGuidance))
        else None,
      seed := if p.seed.Some? && d.supportsSeed then p.seed else None,
      negativePrompt := if p.negativePrompt.Some? && d.supportsNegativePrompt then p.negativePrompt else None)
  }

  /** `validate_parameters_for_model`: fails for an unknown id, otherwise
      builds the validated bag key by key. */
  method ValidateParametersForModel(models: seq<Descriptor>, id: string, parameters: Params)
    returns (r: Result<Params, RegistryError>)
    ensures r.Failure? <==> !IsValidModelId(models, id)
    ensures r.Failure? ==> r.error == ModelNotFound(id)
    ensures r.Success? ==> FindById(models, id).Some? && r.value == ValidateFor(FindById(models, id).value, parameters)
  {
    var model := GetModelById(models, id);
    if model.None? {
      return Failure(ModelNotFound(id));
    }
    var d := model.value;
    var validated := EmptyParams;
    if parameters.width.Some? {
      var width := parameters.width.value;
      validated := validated.(width := Some(ClampInt(width, MinDimension, d.maxWidth)));
      validated := validated.(width := Some((validated.width.value / 8) * 8));
    }
    if parameters.height.Some? {
      var height := parameters.height.value;
      validated := validated.(height := Some(ClampInt(height, MinDimension, d.maxHeight)));
      validated := validated.(height := Some((validated.height.value / 8) * 8));
    }
    if parameters.numInferenceSteps.Some? {
      var steps := parameters.numInferenceSteps.value;
      validated := validated.(numInferenceSteps := Some(ClampInt(steps, d.minSteps, d.maxSteps)));
    }
    if parameters.guidanceScale.Some? {
      var guidance := parameters.guidanceScale.value;
      validated := validated.(guidanceScale := Some(ClampReal(guidance, d.minGuidance, d.maxGuidance)));
    }
    if parameters.seed.Some? && d.supportsSeed {
      validated := validated.(seed := parameters.seed);
    }
    if parameters.negativePrompt.Some? && d.supportsNegativePrompt {
      validated := validated.(negativePrompt := parameters.negativePrompt);
    }
    return Success(validated);
  }

  /** Which keys survive validation: the four numeric keys exactly when
      present, seed and negative prompt only when the model supports them,
      passed through unchanged; so the output keys are among the input's. */
  lemma ValidatedKeys(d: Descriptor, p: Params)
    ensures ValidateFor(d, p).width.Some? <==> p.width.Some?
    ensures ValidateFor(d, p).height.Some? <==> p.height.Some?
    ensures ValidateFor(d, p).numInferenceSteps.Some? <==> p.numInferenceSteps.Some?
    ensures ValidateFor(d, p).guidanceScale.Some? <==> p.guidanceScale.Some?
    ensures ValidateFor(d, p).seed == if d.supportsSeed then p.seed else None
    ensures ValidateFor(d, p).negativePrompt == if d.supportsNegativePrompt then p.negativePrompt else None
    ensures Keys(ValidateFor(d, p)) <= Keys(p)
  {
  }

  /** Every numeric value that comes out lies in the model's range, and
      widths and heights are multiples of 8 no smaller than 256. */
  lemma ValidatedRanges(d: Descriptor, p: Params)
    requires WellFormed(d)
    ensures var v := ValidateFor(d, p);
      && (v.width.Some? ==> v.width.value % 8 == 0 && MinDimension <= v.width.value <= d.maxWidth)
      && (v.height.Some? ==> v.height.value % 8 == 0 && MinDimension <= v.height.value <= d.maxHeight)
      && (v.numInferenceSteps.Some? ==> d.minSteps <= v.numInferenceSteps.value <= d.maxSteps)
      && (v.guidanceScale.Some? ==> d.minGuidance <= v.guidanceScale.value <= d.maxGuidance)
  {
  }

  /** Clamping a dimension twice is the same as clamping it once. */
  lemma {:induction false} ClampDimensionIdempotent(x: int, maxDim: int)
    ensures ClampDimension(ClampDimension(x, maxDim), maxDim) == ClampDimension(x, maxDim)
  {
    var c := ClampDimension(x, maxDim);
    if MinDimension <= maxDim {
      var c2 := ClampDimension(c, maxDim);
      MultiplesOf8Close(c2, c);
    }
  }

  /** Validating an already validated bag changes nothing, for any entry. */
  lemma ValidateIdempotent(d: Descriptor, p: Params)
    ensures ValidateFor(d, ValidateFor(d, p)) == ValidateFor(d, p)
  {
    if p.width.Some? { ClampDimensionIdempotent(p.width.value, d.maxWidth); }
    if p.height.Some? { ClampDimensionIdempotent(p.height.value, d.maxHeight); }
  }

  /** The defaults of a well-formed entry pass validation unchanged. */
  lemma DefaultsAreValid(d: Descriptor)
    requires WellFormed(d)
    ensures var p := Params(Some(d.defaultWidth), Some(d.defaultHeight), Some(d.defaultSteps),
                            Some(d.defaultGuidance), None, None);
      ValidateFor(d, p) == p
  {
    MultiplesOf8Close(ClampDimension(d.defaultWidth, d.maxWidth), d.defaultWidth);
    MultiplesOf8Close(ClampDimension(d.defaultHeight, d.maxHeight), d.defaultHeight);
  }

  /** Lookups match ids exactly: no case folding. */
  lemma LookupIsExact()
    ensures FindById(AvailableModels, "black-forest-labs/FLUX.1-dev") == Some(AvailableModels[0])
    ensures FindById(AvailableModels, "black-forest-labs/flux.1-dev") == None
    ensures !IsValidModelId(AvailableModels, "nonexistent/model")
  {
    var lowered := "black-forest-labs/flux.1-dev";
    assert AvailableModels[0].id[18] != lowered[18];
    assert forall i :: 1 <= i < |AvailableModels| ==> |AvailableModels[i].id| != |lowered|;
    assert forall i :: 0 <= i < |AvailableModels| ==> |AvailableModels[i].id| != |"nonexistent/model"|;
  }

  /** For FLUX a width of 5000 becomes 2048; the unknown model fails. */
  lemma FluxWidthExample()
    ensures ValidateFor(AvailableModels[0], EmptyParams.(width := Some(5000))).width == Some(2048)
    ensures DefaultParametersForModel(AvailableModels, "nonexistent/model") == Failure(ModelNotFound("nonexistent/model"))
  {
    LookupIsExact();
  }

  /** SDXL Lightning: `{width: 5000, num_inference_steps: 2, seed: 42}`
      becomes `{width: 1024, num_inference_steps: 4, seed: 42}`. */
  lemma LightningExample()
    ensures FindById(AvailableModels, "ByteDance/SDXL-Lightning") == Some(AvailableModels[1])
    ensures ValidateFor(AvailableModels[1], Params(Some(5000), None, Some(2), None, Some(42), None))
      == Params(Some(1024), None, Some(4), None, Some(42), None)
  {
    RegistryInvariants();
    FindByIdUnique(AvailableModels, 1);
  }
}
