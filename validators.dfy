/** Stand-alone input checks. Each returns `Pass` (the source's `True`)
    or fails with the error the source raises; the order of the checks
    decides which error is reported. */
module Validators {
  import opened Wrappers

  /** The `ValueError`s the validators raise, one per message. */
  datatype ValidationError =
    | EmptyPrompt
    | WhitespacePrompt
    | PromptTooLong(length: int, maxLength: int)
    | NegativePromptTooLong(length: int, maxLength: int)
    | WidthBelowMinimum(width: int, minSize: int)
    | HeightBelowMinimum(height: int, minSize: int)
    | WidthAboveMaximum(width: int, maxSize: int)
    | HeightAboveMaximum(height: int, maxSize: int)
    | WidthNotMultipleOf8(width: int)
    | HeightNotMultipleOf8(height: int)
    | StepsBelowMinimum(steps: int, minSteps: int)
    | StepsAboveMaximum(steps: int, maxSteps: int)
    | GuidanceBelowMinimum(guidance: real, minGuidance: real)
    | GuidanceAboveMaximum(guidance: real, maxGuidance: real)
    | NegativeSeed
    | SeedTooLarge(seed: int)
    | EmptyModelId
    | UnknownModelId(modelId: string)

  /** The largest seed accepted, `2**32 - 1`. */
  const MaxSeed: int := 0x1_0000_0000 - 1

  /** The characters Python's `str.strip()` removes (those for which
      `str.isspace()` holds). */
  predicate IsSpace(c: char): (r: bool)
    ensures c == ' ' || c == '\t' || c == '\n' || c == '\r' ==> r
    ensures 'a' <= c <= 'z' || 'A' <= c <= 'Z' || '0' <= c <= '9' ==> !r
  {
    var n := c as int;
    || 0x09 <= n <= 0x0D
    || 0x1C <= n <= 0x20
    || n == 0x85 || n == 0xA0 || n == 0x1680
    || 0x2000 <= n <= 0x200A
    || n == 0x2028 || n == 0x2029 || n == 0x202F || n == 0x205F || n == 0x3000
  }

  /** `not s.strip()`: nothing but whitespace is left. */
  predicate AllSpace(s: string): (r: bool)
    ensures s == "" ==> r
    ensures r <==> forall c :: c in s ==> IsSpace(c)
  {
    forall i :: 0 <= i < |s| ==> IsSpace(s[i])
  }

  /** `validate_prompt`. */
  function ValidatePrompt(prompt: string, maxLength: int := 1000): (r: Outcome<ValidationError>)
    ensures r.Pass? <==> prompt != "" && !AllSpace(prompt) && |prompt| <= maxLength
    ensures prompt == "" ==> r == Fail(EmptyPrompt)
    ensures prompt != "" && AllSpace(prompt) ==> r == Fail(WhitespacePrompt)
    ensures !AllSpace(prompt) && |prompt| > maxLength ==> r == Fail(PromptTooLong(|prompt|, maxLength))
  {
    if prompt == "" then Fail(EmptyPrompt)
    else if AllSpace(prompt) then Fail(WhitespacePrompt)
    else if |prompt| > maxLength then Fail(PromptTooLong(|prompt|, maxLength))
    else Pass
  }

  /** `validate_negative_prompt`: `None` and the empty string are accepted. */
  function ValidateNegativePrompt(negativePrompt: Option<string>, maxLength: int := 500): (r: Outcome<ValidationError>)
    ensures r.Pass? <==> negativePrompt.None? || |negativePrompt.value| <= maxLength || negativePrompt.value == ""
    ensures r.Fail? ==> r.error == NegativePromptTooLong(|negativePrompt.value|, maxLength)
  {
    match negativePrompt
    case None => Pass
    case Some(s) =>
      if s == "" then Pass
      else if |s| > maxLength then Fail(NegativePromptTooLong(|s|, maxLength))
      else Pass
  }

  /** `validate_image_dimensions`. */
  function ValidateImageDimensions(width: int, height: int, minSize: int := 256, maxSize: int := 2048)
    : (r: Outcome<ValidationError>)
    ensures r.Pass? <==>
      minSize <= width <= maxSize && minSize <= height <= maxSize && width % 8 == 0 && height % 8 == 0
    ensures width < minSize ==> r == Fail(WidthBelowMinimum(width, minSize))
    ensures minSize <= width && height < minSize ==> r == Fail(HeightBelowMinimum(height, minSize))
    ensures minSize <= width && minSize <= height && width > maxSize ==> r == Fail(WidthAboveMaximum(width, maxSize))
    ensures minSize <= width <= maxSize && minSize <= height && height > maxSize
      ==> r == Fail(HeightAboveMaximum(height, maxSize))
    ensures minSize <= width <= maxSize && minSize <= height <= maxSize && width % 8 != 0
      ==> r == Fail(WidthNotMultipleOf8(width))
    ensures minSize <= width <= maxSize && minSize <= height <= maxSize && width % 8 == 0 && height % 8 != 0
      ==> r == Fail(HeightNotMultipleOf8(height))
  {
    if width < minSize then Fail(WidthBelowMinimum(width, minSize))
    else if height < minSize then Fail(HeightBelowMinimum(height, minSize))
    else if width > maxSize then Fail(WidthAboveMaximum(width, maxSize))
    else if height > maxSize then Fail(HeightAboveMaximum(height, maxSize))
    else if width % 8 != 0 then Fail(WidthNotMultipleOf8(width))
    else if height % 8 != 0 then Fail(HeightNotMultipleOf8(height))
    else Pass
  }

  /** `validate_steps`. */
  function ValidateSteps(steps: int, minSteps: int := 1, maxSteps: int := 100): (r: Outcome<ValidationError>)
    ensures r.Pass? <==> minSteps <= steps <= maxSteps
    ensures steps < minSteps ==> r == Fail(StepsBelowMinimum(steps, minSteps))
    ensures minSteps <= steps && steps > maxSteps ==> r == Fail(StepsAboveMaximum(steps, maxSteps))
  {
    if steps < minSteps then Fail(StepsBelowMinimum(steps, minSteps))
    else if steps > maxSteps then Fail(StepsAboveMaximum(steps, maxSteps))
    else Pass
  }

  /** `validate_guidance_scale`. */
  function ValidateGuidanceScale(guidance: real, minGuidance: real := 1.0, maxGuidance: real := 20.0)
    : (r: Outcome<ValidationError>)
    ensures r.Pass? <==> minGuidance <= guidance <= maxGuidance
    ensures guidance < minGuidance ==> r == Fail(GuidanceBelowMinimum(guidance, minGuidance))
    ensures minGuidance <= guidance && guidance > maxGuidance ==> r == Fail(GuidanceAboveMaximum(guidance, maxGuidance))
  {
    if guidance < minGuidance then Fail(GuidanceBelowMinimum(guidance, minGuidance))
    else if guidance > maxGuidance then Fail(GuidanceAboveMaximum(guidance, maxGuidance))
    else Pass
  }

  /** `validate_seed`: absent, or a 32-bit unsigned value. */
  function ValidateSeed(seed: Option<int>): (r: Outcome<ValidationError>)
    ensures r.Pass? <==> seed.None? || 0 <= seed.value < 0x1_0000_0000
    ensures seed.Some? && seed.value < 0 ==> r == Fail(NegativeSeed)
    ensures seed.Some? && seed.value > MaxSeed ==> r == Fail(SeedTooLarge(seed.value))
  {
    match seed
    case None => Pass
    case Some(s) =>
      if s < 0 then Fail(NegativeSeed)
      else if s > MaxSeed then Fail(SeedTooLarge(s))
      else Pass
  }

  /** `validate_model_id`. */
  function ValidateModelId(modelId: string, validModels: seq<string>): (r: Outcome<ValidationError>)
    ensures r.Pass? <==> modelId != "" && modelId in validModels
    ensures modelId == "" ==> r == Fail(EmptyModelId)
    ensures modelId != "" && modelId !in validModels ==> r == Fail(UnknownModelId(modelId))
  {
    if modelId == "" then Fail(EmptyModelId)
    else if modelId !in validModels then Fail(UnknownModelId(modelId))
    else Pass
  }

  /** The default limits reject 100 x 100 for its width first and accept 768 x 768. */
  lemma DimensionExamples()
    ensures ValidateImageDimensions(100, 100) == Fail(WidthBelowMinimum(100, 256))
    ensures ValidateImageDimensions(768, 768) == Pass
    ensures ValidatePrompt("   ") == Fail(WhitespacePrompt)
  {
  }
}
