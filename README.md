# Model capability registry and parameter validation

A Dafny model of the pure core of an image-generation back end: the
static registry of five text-to-image model descriptors, the lookups over
it, the validator that clamps a bag of generation parameters to one
model's limits, the service-layer projections (summary, search, UI
listing), the stand-alone input validators, the round-up-to-8 helper and
the parameter assembly of the image service.

Modules, one per source file plus three helpers:

- `Wrappers` (`wrappers.dfy`): `Option`, `Result` and `Outcome`. A Python
  function that returns `True` or raises `ValueError` returns an `Outcome`;
  one that returns a value or raises returns a `Result`.
- `Text` (`text.dfy`): ASCII lower-casing, substring search, Python's
  string order (by code point, prefix first), and `sorted(list(s))` for a
  set of strings as an insertion into a strictly sorted sequence.
- `ModelsConfig` (`models_config.dfy`): `backend/models/models_config.py`.
  The registry is the constant `AvailableModels`. The lookups take the
  registry as a parameter `models`, so their contracts hold for any table;
  facts about the shipped table are lemmas on `AvailableModels`. The
  parameter bag is `Params`, six `Option` fields, one per recognised key.
  `ValidateFor(d, p)` is the bag the validator returns for entry `d`. The
  method `ValidateParametersForModel` builds it key by key, as the source
  does, and is proved to return it.
- `ModelService` (`model_service.dfy`): `backend/services/model_service.py`.
  The class has no state, so its methods are module members. The loops of
  `get_model_summary`, `search_models` and `get_models_for_ui` are methods
  with loop invariants. They are proved against the specification
  functions `CountBy`, `TagsOf` and `ModelsConfig.Select`.
- `Validators` (`validators.dfy`): `backend/utils/validators.py`, with the
  source's default limits as Dafny default parameters.
- `ImageHelpers` (`image_helpers.dfy`): `pad_to_multiple_of_8`.
- `ImageService` (`image_service.dfy`): `_validate_generation_inputs` and
  `_build_generation_params`.
- `ParameterChecks` (`parameter_checks.dfy`): two lemmas that relate the
  registry's clamping validator to the stand-alone validators. No source
  file does this; the lemmas state how the two layers agree.

Behaviour worth noting, as the code has it:

- Widths and heights never end up below 256. The clamp floor 256 is a
  multiple of 8, so rounding down cannot go below it (`ClampDimension`).
- The validator forwards a present negative prompt whenever the model
  supports it, the empty string included. It does not check truthiness.
- Tags are a list in the source and a `seq` here.
- Idempotence of the validator holds for every descriptor. It does not
  depend on the registry invariants (`ValidateIdempotent`).

## Model

| member | source | states |
|---|---|---|
| ModelsConfig.RegistryInvariants | backend/models/models_config.py:26-132 | the shipped table has five entries; each has min ≤ default ≤ max for steps and guidance, 256 ≤ default ≤ max for width and height, 8-aligned sizes, a non-empty id; ids are unique |
| ModelsConfig.FindById | backend/models/models_config.py:169-172 | absent exactly when no entry has this id; otherwise an entry with an equal id, and no earlier entry has it |
| ModelsConfig.FindByIdUnique | backend/models/models_config.py:169-172 | with unique ids, looking up any entry's id returns that entry |
| ModelsConfig.GetModelById | backend/models/models_config.py:152-172 | the scanning loop with early return yields the first exact-id match, or None |
| ModelsConfig.IsValidModelId | backend/models/models_config.py:241 | true exactly when the lookup finds an entry |
| ModelsConfig.LookupIsExact | backend/models/models_config.py:169-172 | ids are matched exactly: the FLUX id is found, its lower-cased spelling and "nonexistent/model" are not |
| ModelsConfig.ModelNames | backend/models/models_config.py:258 | one name per entry, in registry order |
| ModelsConfig.ModelIds | backend/models/models_config.py:275 | one id per entry in order; its members are exactly the valid ids; it is repeat-free exactly when ids are unique |
| ModelsConfig.Select | backend/models/models_config.py:192-196 | an entry is in the result exactly when it is in the registry and satisfies the criterion |
| ModelsConfig.SelectMultiplicity | backend/models/models_config.py:192-196 | each entry satisfying the criterion occurs as often as in the registry, every other entry not at all |
| ModelsConfig.SelectConcat | backend/models/models_config.py:216-220 | filtering distributes over concatenation, so registry order is kept |
| ModelsConfig.SelectOne | backend/models/models_config.py:192-196 | a single entry is kept exactly when it satisfies the criterion |
| ModelsConfig.SelectSnoc | backend/models/models_config.py:192-196 | one more registry entry adds that entry at the end of the result exactly when it satisfies the criterion |
| ModelsConfig.ModelsByCategory | backend/models/models_config.py:192-196 | exactly the entries whose category equals the query, with their multiplicities; an empty result is no error |
| ModelsConfig.ModelsByTag | backend/models/models_config.py:216-220 | exactly the entries whose tag list contains the tag, with their multiplicities |
| ModelsConfig.DefaultParametersForModel | backend/models/models_config.py:298-308 | fails with ModelNotFound exactly for an unknown id; otherwise the four default_* fields of an entry with that id |
| ModelsConfig.DefaultsOfEntry | backend/models/models_config.py:303-308 | with unique ids, an entry's defaults are its own default_* fields |
| ModelsConfig.Keys | backend/models/models_config.py:338-376 | the present keys are among the six recognised names; none present exactly for the empty bag |
| ModelsConfig.ClampInt | backend/models/models_config.py:356-359 | max(lo, min(x, hi)): inside [lo, hi] when lo ≤ hi, x itself when in range, lo below it, hi above it |
| ModelsConfig.ClampReal | backend/models/models_config.py:364-367 | the same clamp on guidance values |
| ModelsConfig.RoundDown8 | backend/models/models_config.py:345 | the largest multiple of 8 not above the input |
| ModelsConfig.ClampDimension | backend/models/models_config.py:341-351 | a multiple of 8, at least 256, at most max when max ≥ 256 (else exactly 256); an in-range value is rounded down, a too-large one becomes max rounded down |
| ModelsConfig.ValidateFor | backend/models/models_config.py:338-376 | the validated bag for one entry: width and height clamped to [256, max] and rounded down to 8, steps and guidance clamped to the entry's range, each only when present; seed and negative prompt passed through only when present and supported (definition; its properties are ValidatedKeys, ValidatedRanges, ValidateIdempotent and DefaultsAreValid) |
| ModelsConfig.ValidateParametersForModel | backend/models/models_config.py:333-376 | fails with ModelNotFound exactly for an unknown id; otherwise returns the clamped bag for the entry found |
| ModelsConfig.ValidatedKeys | backend/models/models_config.py:338-376 | numeric keys survive exactly when present; seed and negative prompt only when present and supported, unchanged; output keys ⊆ input keys |
| ModelsConfig.ValidatedRanges | backend/models/models_config.py:341-367 | for a well-formed entry every present numeric output lies in the entry's range; width and height are multiples of 8 and at least 256 |
| ModelsConfig.ClampDimensionIdempotent | backend/models/models_config.py:341-351 | clamping a dimension twice equals clamping once |
| ModelsConfig.ValidateIdempotent | backend/models/models_config.py:341-376 | validating a validated bag returns it unchanged |
| ModelsConfig.DefaultsAreValid | backend/models/models_config.py:341-367 | a well-formed entry's defaults pass validation unchanged |
| ModelsConfig.FluxWidthExample | backend/models/models_config.py:328-331 | for FLUX a width of 5000 becomes 2048; asking for an unknown model's defaults fails |
| ModelsConfig.LightningExample | backend/models/models_config.py:341-371 | SDXL Lightning turns {width 5000, steps 2, seed 42} into {width 1024, steps 4, seed 42} |
| ModelService.CountBy | backend/services/model_service.py:263-272 | the dictionary `counts[key] = counts.get(key, 0) + 1` builds, entry by entry (definition; its meaning is CountByMeaning) |
| ModelService.CountByMeaning | backend/services/model_service.py:263-272 | in the counted dictionary a key is present exactly when some entry has it, mapped to the number of such entries |
| ModelService.CountModels | backend/services/model_service.py:263-272 | the counting loop builds exactly that dictionary |
| ModelService.CountsSumToTotal | backend/services/model_service.py:263-272 | the counts add up to the number of entries |
| ModelService.SummaryCounts | backend/services/model_service.py:263-272 | the keys are exactly the categories (providers) occurring in the registry, and the counts sum to the total |
| ModelService.TagsOf | backend/services/model_service.py:275-277 | the set `all_tags.update(model['tags'])` builds, entry by entry (definition; its meaning is TagsOfMeaning) |
| ModelService.TagsOfMeaning | backend/services/model_service.py:275-277 | the collected tag set holds exactly the strings occurring in some entry's tag list |
| ModelService.CollectTags | backend/services/model_service.py:275-277 | the loop collects exactly that set |
| Text.Lower | backend/services/model_service.py:352 | `.lower()` for ASCII: same length, each upper-case ASCII letter shifted to lower case, every other character kept |
| Text.Contains | backend/services/model_service.py:358-368 | Python's `in` on strings: the needle occurs as a contiguous piece of the haystack; the empty needle occurs everywhere, and a needle longer than the haystack never does |
| Text.Less | backend/services/model_service.py:283 | the string order `sorted` uses: lexicographic by code point, a proper prefix first; it never relates a string to itself |
| Text.InsertSorted | backend/services/model_service.py:283 | inserting into a strictly sorted list keeps it strictly sorted and adds just that element |
| Text.SortedList | backend/services/model_service.py:283 | sorted(list(tags)): strictly ascending, holding exactly the set's elements |
| ModelService.GetModelSummary | backend/services/model_service.py:258-287 | total is the registry length; category and provider counts as above; unique_tags strictly sorted and equal to the union of all tags |
| ModelService.SearchModels | backend/services/model_service.py:349-370 | the empty query gives the registry unchanged; otherwise exactly the entries whose lower-cased name, description or some tag contains the lower-cased query, in order, each as often as in the registry |
| ModelService.SearchFastFindsLightning | backend/services/model_service.py:344-345 | searching "fast" finds SDXL Lightning |
| ModelService.GetModelsForUi | backend/services/model_service.py:308-329 | one item per entry in registry order, copying id, name, description, category, time, tags and the four defaults |
| ModelService.UiDefaultsAgree | backend/services/model_service.py:320-325 | the defaults listed for the UI are those the default-parameters query returns |
| ModelService.GetModelDetails | backend/services/model_service.py:94-101 | get_model_by_id's answer: absent exactly for an unknown id, otherwise the first registry entry with that id |
| ModelService.ValidateModelId | backend/services/model_service.py:163-170 | true exactly when some entry has that id |
| ModelService.GetDefaultParameters | backend/services/model_service.py:195-202 | the registry's result, the unknown-model error included |
| ModelService.ValidateAndPrepareParameters | backend/services/model_service.py:234-241 | the registry validator's result, the unknown-model error included |
| Validators.IsSpace | backend/utils/validators.py:47 | the characters `str.strip()` removes, those with `str.isspace()`: U+0009-U+000D, U+001C-U+0020, U+0085, U+00A0, U+1680, U+2000-U+200A, U+2028, U+2029, U+202F, U+205F, U+3000; space, tab, newline and carriage return are among them, ASCII letters and digits are not |
| Validators.AllSpace | backend/utils/validators.py:47 | `not prompt.strip()`: every character of the string is whitespace, so the empty string qualifies |
| Validators.ValidatePrompt | backend/utils/validators.py:42-57 | accepts exactly a non-empty, not all-whitespace prompt within max_length (default 1000); reports empty, then whitespace, then too long |
| Validators.ValidateNegativePrompt | backend/utils/validators.py:83-93 | accepts None, the empty string and anything within max_length (default 500); otherwise too long |
| Validators.ValidateImageDimensions | backend/utils/validators.py:133-155 | accepts exactly min ≤ w, h ≤ max with both multiples of 8; errors in the order width-min, height-min, width-max, height-max, width-mod, height-mod |
| Validators.ValidateSteps | backend/utils/validators.py:185-195 | accepts exactly min ≤ steps ≤ max (defaults 1..100); below-min reported before above-max |
| Validators.ValidateGuidanceScale | backend/utils/validators.py:231-244 | accepts exactly min ≤ g ≤ max (defaults 1.0..20.0) |
| Validators.ValidateSeed | backend/utils/validators.py:268-284 | accepts None and 0..2^32-1; negative and too-large seeds get their own errors |
| Validators.ValidateModelId | backend/utils/validators.py:307-316 | accepts exactly a non-empty id in the list; empty is reported before unknown |
| Validators.DimensionExamples | backend/utils/validators.py:120-124 | 100 x 100 fails on the width minimum; 768 x 768 passes; a blank prompt is a whitespace error |
| ImageHelpers.PadUp8 | backend/utils/image_helpers.py:259-260 | a multiple of 8, at least the input and less than input + 8 |
| ImageHelpers.PadToMultipleOf8 | backend/utils/image_helpers.py:238-262 | both sides padded independently to multiples of 8 within +7 |
| ImageHelpers.PadIsLeast | backend/utils/image_helpers.py:259-260 | no multiple of 8 at or above the input is below the padded value |
| ImageHelpers.PadFixesMultiples | backend/utils/image_helpers.py:259-262 | multiples of 8 are unchanged, so padding twice equals padding once |
| ImageHelpers.PadExample | backend/utils/image_helpers.py:255-256 | (765, 770) becomes (768, 776) |
| ImageService.ValidateGenerationInputs | backend/services/image_service.py:156-178 | passes exactly when both the prompt and the negative prompt validate; a prompt error is reported first |
| ImageService.EmptyNegativePromptIgnored | backend/services/image_service.py:176-178 | an empty negative prompt is treated like an absent one |
| ImageService.BuildGenerationParams | backend/services/image_service.py:180-227 | width and height always present and unchanged; steps, guidance and seed exactly as given; the negative prompt exactly when truthy |
| ParameterChecks.ValidatedPassesRangeChecks | backend/models/models_config.py:341-367 | for each shipped model, clamped dimensions, steps and guidance pass the stand-alone validators with their default limits |
| ParameterChecks.ModelIdChecksAgree | backend/utils/validators.py:307-316 | validate_model_id against the id list agrees with is_valid_model_id, except that the empty id is rejected |

## Left out

- `backend/app.py`, `backend/config.py` and the `__init__.py` files: HTTP routing, environment loading and re-exports, not part of this model.
- The remote inference call, timestamps, response formatting and all PIL and base64 work in the image service and helpers: external I/O and foreign libraries.
- Logging and the defensive `.copy()` calls: Dafny values are immutable.
- `get_all_models` and `ModelService.get_available_models` are the constant `AvailableModels` itself. The service's `get_models_by_category` and `get_models_by_tag` only delegate, and they are not repeated here.
- The `isinstance` checks that raise `TypeError`, and the `int()`, `float()` and `str()` coercions: inputs are already typed.
- ModelsConfig.ValidateParametersForModel: unrecognised keys such as `'steps'` cannot be written in the `Params` input type. They are dropped by construction, not by a visible step.
- ModelService.SearchModels: `.lower()` is modelled for ASCII letters only (`Text.Lower`). Python's full Unicode case mapping is not modelled.
- Guidance values are `real`. IEEE floating point is not modelled.
- ModelService.GetModelSummary: the three loops of the source are calls of the helper methods `CountModels` (twice) and `CollectTags`, one loop each. The Python set's iteration order is a nondeterministic choice in `Text.SortedList`. The sorted output is the same either way.
- The registry validator forwards a seed without range-checking it, as the source does. Only `validate_seed` checks 0..2^32-1.
