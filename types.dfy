/** The records the program passes around (src/lib/types/index.ts). A
    JavaScript `number` is a `real`: knob values are stored, copied and
    printed, never combined, so rounding plays no part. */
module Types {
  import opened Wrappers

  /** A user-defined quality of the transformation, on a 0-100 scale. */
  datatype CognitiveKnob = CognitiveKnob(
    id: string,
    name: string,
    description: string,
    value: real,
    lowLabel: Option<string>,
    highLabel: Option<string>)

  /** The sampling field an LLM knob drives. */
  datatype ParameterName = Temperature | MaxTokens | TopP | FrequencyPenalty | PresencePenalty

  /** A sampling-parameter knob with its slider range. */
  datatype LLMKnob = LLMKnob(
    id: string,
    name: string,
    description: string,
    value: real,
    min: real,
    max: real,
    step: real,
    parameter: ParameterName)

  /** A JavaScript `Date`, as its time value in milliseconds since the epoch. */
  type Instant = int

  /** A named snapshot of the settings, as the application holds it. */
  datatype KnobConfiguration = KnobConfiguration(
    id: string,
    name: string,
    cognitiveKnobs: seq<CognitiveKnob>,
    llmKnobs: seq<LLMKnob>,
    systemPrompt: string,
    createdAt: Instant)

  /** The same snapshot as it is written to storage, with `createdAt` as an
      ISO-8601 string. */
  datatype StoredConfiguration = StoredConfiguration(
    id: string,
    name: string,
    cognitiveKnobs: seq<CognitiveKnob>,
    llmKnobs: seq<LLMKnob>,
    systemPrompt: string,
    createdAt: string)

  /** The `parameters` object of a request body; a field the body leaves out
      is `None`. A field set to `null` is not represented. */
  datatype RequestParameters = RequestParameters(
    temperature: Option<real>,
    maxTokens: Option<real>,
    topP: Option<real>,
    frequencyPenalty: Option<real>,
    presencePenalty: Option<real>)

  /** The JSON body the generation endpoint accepts. A missing or null
      `sourceText` is `None`. */
  datatype GenerationRequest = GenerationRequest(
    sourceText: Option<string>,
    cognitiveKnobs: seq<CognitiveKnob>,
    systemPrompt: string,
    parameters: RequestParameters)
}
