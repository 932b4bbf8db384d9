/** The two pure steps of the image generation service that come before
    the remote call: checking the prompts and assembling the parameters. */
module ImageService {
  import opened Wrappers
  import opened Validators
  import opened ModelsConfig

  /** Python truthiness of an optional string: present and not empty. */
  predicate Truthy(s: Option<string>)
  {
    s.Some? && s.value != ""
  }

  /** `ImageGenerationService._validate_generation_inputs`: the prompt is
      always checked, the negative prompt only when it is truthy. */
  function ValidateGenerationInputs(prompt: string, negativePrompt: Option<string>): (r: Outcome<ValidationError>)
    ensures r.Pass? <==> ValidatePrompt(prompt).Pass? && ValidateNegativePrompt(negativePrompt).Pass?
    ensures ValidatePrompt(prompt).Fail? ==> r == ValidatePrompt(prompt)
    ensures ValidatePrompt(prompt).Pass? ==> r == ValidateNegativePrompt(negativePrompt)
  {
    var promptCheck := ValidatePrompt(prompt);
    if promptCheck.Fail? then promptCheck
    else if Truthy(negativePrompt) then ValidateNegativePrompt(negativePrompt)
    else Pass
  }

  /** `ImageGenerationService._build_generation_params`: width and height
      always, the optional values only when given, and the negative prompt
      only when truthy. */
  method BuildGenerationParams(
    width: int,
    height: int,
    numInferenceSteps: Option<int>,
    guidanceScale: Option<real>,
    negativePrompt: Option<string>,
    seed: Option<int>)
    returns (params: Params)
    ensures params.width == Some(width) && params.height == Some(height)
    ensures params.numInferenceSteps == numInferenceSteps
    ensures params.guidanceScale == guidanceScale
    ensures params.seed == seed
    ensures params.negativePrompt.Some? <==> Truthy(negativePrompt)
    ensures params.negativePrompt.Some? ==> params.negativePrompt == negativePrompt
    ensures {"width", "height"} <= Keys(params)
  {
    params := EmptyParams.(width := Some(width), height := Some(height));
    if numInferenceSteps.Some? {
      params := params.(numInferenceSteps := numInferenceSteps);
    }
    if guidanceScale.Some? {
      params := params.(guidanceScale := guidanceScale);
    }
    if Truthy(negativePrompt) {
      params := params.(negativePrompt := negativePrompt);
    }
    if seed.Some? {
      params := params.(seed := seed);
    }
  }

  /** An empty negative prompt is neither checked nor forwarded. */
  lemma EmptyNegativePromptIgnored(prompt: string)
    ensures ValidateGenerationInputs(prompt, Some("")) == ValidateGenerationInputs(prompt, None)
  {
  }
}
