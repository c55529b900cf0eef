/**
 * The values the core exchanges with the generation service, in place of the SDK's types.
 * A Go pointer or slice element that may be nil is an `Option`.
 */
module GenAI {
  import opened Wrappers
  import opened GoStrings
  import opened GoInt32

  /** `genai.ThinkingLevel`; `Unspecified` is the zero value (the empty string). */
  datatype ThinkingLevel = Unspecified | Minimal | Low | Medium | High

  /** A piece of generated text; `thought` marks intermediate reasoning. */
  datatype Part = Part(text: GoString, thought: bool)

  datatype Content = Content(parts: seq<Option<Part>>)

  datatype Candidate = Candidate(content: Option<Content>)

  /** A usage snapshot: the token counts as of one result, not increments. */
  datatype UsageMetadata = UsageMetadata(
    promptTokenCount: int32,
    candidatesTokenCount: int32,
    thoughtsTokenCount: int32,
    totalTokenCount: int32)

  datatype GenerateContentResponse = GenerateContentResponse(
    candidates: seq<Option<Candidate>>,
    modelVersion: GoString,
    usageMetadata: Option<UsageMetadata>)

  /** One `(result, err)` pair yielded by the response stream. */
  datatype StreamItem = Error(message: GoString) | Result(response: Option<GenerateContentResponse>)

  datatype ThinkingConfig = ThinkingConfig(
    includeThoughts: bool,
    thinkingBudget: Option<int32>,
    thinkingLevel: ThinkingLevel)

  datatype GenerateContentConfig = GenerateContentConfig(
    maxOutputTokens: int32,
    systemInstruction: Option<Content>,
    thinkingConfig: Option<ThinkingConfig>)

  /** The system instruction as the SDK carries it: one content with one non-thought part. */
  function SystemInstructionContent(text: GoString): (c: Option<Content>)
    ensures c.Some? && |c.value.parts| == 1 && c.value.parts[0] == Some(Part(text, false))
  {
    Some(Content([Some(Part(text, false))]))
  }
}
