/**
 * The task-aware request builder and stream consumer (english-translator/translate.go): the thinking
 * level parser, the model-family tests, `createLLMConfigs` and `streamContent`.
 */
module Translate {
  import opened Wrappers
  import opened GoStrings
  import opened GoInt32
  import opened Html
  import opened GenAI
  import opened Tasks
  import opened Stream

  /** The two errors `createLLMConfigs` can return. */
  datatype ConfigError =
    | InvalidThinkingLevel(level: GoString)  // the requested level is not one of the four names
    | LevelNotAllowed(model: GoString)       // a Gemini 3 Pro model was given minimal or medium

  /** `LlmRequestConfig`: the request as the program describes it; `thinkingBudget` is a nilable pointer. */
  datatype LlmRequestConfig = LlmRequestConfig(
    systemInstruction: GoString,
    model: GoString,
    maxTokens: int32,
    inputText: GoString,
    includeThoughts: bool,
    thinkingBudget: Option<int32>,
    thinkingLevel: ThinkingLevel)

  const MinimalName: GoString := [109, 105, 110, 105, 109, 97, 108]  // "minimal"
  const LowName: GoString := [108, 111, 119]  // "low"
  const MediumName: GoString := [109, 101, 100, 105, 117, 109]  // "medium"
  const HighName: GoString := [104, 105, 103, 104]  // "high"

  /** The name a user writes for a thinking level; the unspecified level has none. */
  function LevelName(level: ThinkingLevel): GoString {
    match level
    case Unspecified => []
    case Minimal => MinimalName
    case Low => LowName
    case Medium => MediumName
    case High => HighName
  }

  /** `parseThinkingLevel`: the level named by `level`, ignoring case and surrounding white space. */
  function ParseThinkingLevel(level: GoString): (r: Result<ThinkingLevel, ConfigError>)
    ensures r.Success? <==> ToLower(TrimSpace(level)) in {MinimalName, LowName, MediumName, HighName}
    ensures r.Success? ==> r.value != Unspecified && LevelName(r.value) == ToLower(TrimSpace(level))
    ensures r.Failure? ==> r.error == InvalidThinkingLevel(level)
  {
    var normalized := ToLower(TrimSpace(level));
    if normalized == MinimalName then Success(Minimal)
    else if normalized == LowName then Success(Low)
    else if normalized == MediumName then Success(Medium)
    else if normalized == HighName then Success(High)
    else Failure(InvalidThinkingLevel(level))
  }

  /** Every level's own name parses back to it. */
  lemma ParseLevelName(level: ThinkingLevel)
    requires level != Unspecified
    ensures ParseThinkingLevel(LevelName(level)) == Success(level)
  {
    var name := LevelName(level);
    match level
    case Minimal => NormalFormUnchanged(MinimalName);
    case Low => NormalFormUnchanged(LowName);
    case Medium => NormalFormUnchanged(MediumName);
    case High => NormalFormUnchanged(HighName);
    assert ToLower(TrimSpace(name)) == name;
    assert |MinimalName| == 7 && |LowName| == 3 && |MediumName| == 6 && |HighName| == 4;
  }

  /** Parsing ignores white space around the level and the case of its letters. */
  lemma ParseIgnoresCaseAndPadding(left: GoString, level: GoString, right: GoString)
    requires AllSpace(left) && AllSpace(right)
    ensures ParseThinkingLevel(left + level + right).Success? == ParseThinkingLevel(level).Success?
    ensures ParseThinkingLevel(ToLower(level)).Success? == ParseThinkingLevel(level).Success?
    ensures ParseThinkingLevel(level).Success? ==>
              ParseThinkingLevel(left + level + right) == ParseThinkingLevel(ToLower(level)) == ParseThinkingLevel(level)
  {
    var normalized := ToLower(TrimSpace(level));
    assert ToLower(TrimSpace(left + level + right)) == normalized by {
      TrimSpacePadding(left, level, right);
    }
    assert ToLower(TrimSpace(ToLower(level))) == normalized by {
      TrimSpaceToLower(level);
      ToLowerIdempotent(TrimSpace(level));
    }
    ParseSameNormalForm(left + level + right, level);
    ParseSameNormalForm(ToLower(level), level);
  }

  /** Two spellings with the same normal form parse alike, up to the text an error quotes. */
  lemma ParseSameNormalForm(a: GoString, b: GoString)
    requires ToLower(TrimSpace(a)) == ToLower(TrimSpace(b))
    ensures ParseThinkingLevel(a).Success? == ParseThinkingLevel(b).Success?
    ensures ParseThinkingLevel(a).Success? ==> ParseThinkingLevel(a) == ParseThinkingLevel(b)
  {
  }

  const ModelsPrefix: GoString := [109, 111, 100, 101, 108, 115, 47]  // "models/"
  const Gemini3Prefix: GoString := [103, 101, 109, 105, 110, 105, 45, 51]  // "gemini-3"
  const Gemini3ProPrefix: GoString := [103, 101, 109, 105, 110, 105, 45, 51, 45, 112, 114, 111]  // "gemini-3-pro"

  /** The model name as the family tests see it: trimmed, lower-cased, one leading "models/" removed. */
  function FamilyName(modelName: GoString): (r: GoString)
    ensures HasPrefix(ToLower(TrimSpace(modelName)), ModelsPrefix) ==> ModelsPrefix + r == ToLower(TrimSpace(modelName))
    ensures !HasPrefix(ToLower(TrimSpace(modelName)), ModelsPrefix) ==> r == ToLower(TrimSpace(modelName))
  {
    TrimPrefix(ToLower(TrimSpace(modelName)), ModelsPrefix)
  }

  /** `isGemini3Model`. */
  predicate IsGemini3Model(modelName: GoString) {
    HasPrefix(FamilyName(modelName), Gemini3Prefix)
  }

  /** `isGemini3ProModel`. */
  predicate IsGemini3ProModel(modelName: GoString) {
    HasPrefix(FamilyName(modelName), Gemini3ProPrefix)
  }

  /** Every Gemini 3 Pro model is a Gemini 3 model. */
  lemma ProIsGemini3(modelName: GoString)
    ensures IsGemini3ProModel(modelName) ==> IsGemini3Model(modelName)
  {
    assert Gemini3Prefix <= Gemini3ProPrefix;
  }

  /** The family tests ignore case, surrounding white space and a "models/" resource prefix. */
  lemma FamilyIgnoresCaseAndPadding(left: GoString, modelName: GoString, right: GoString)
    requires AllSpace(left) && AllSpace(right)
    ensures FamilyName(left + modelName + right) == FamilyName(modelName)
    ensures FamilyName(ToLower(modelName)) == FamilyName(modelName)
  {
    TrimSpacePadding(left, modelName, right);
    TrimSpaceToLower(modelName);
    ToLowerIdempotent(TrimSpace(modelName));
  }

  /** A trimmed, lower-case name is in the same family with or without the "models/" prefix. */
  lemma ResourcePrefixIgnored(name: GoString)
    requires NoUpper(name) && name != [] && !IsAsciiSpace(name[0]) && !IsAsciiSpace(name[|name| - 1])
    requires !HasPrefix(name, ModelsPrefix)
    ensures FamilyName(ModelsPrefix + name) == FamilyName(name) == name
  {
    var full := ModelsPrefix + name;
    PrefixedNameNormal(name);
    NormalFormUnchanged(full);
    NormalFormUnchanged(name);
    assert ModelsPrefix <= full;
    assert full[|ModelsPrefix|..] == name;
  }

  lemma PrefixedNameNormal(name: GoString)
    requires NoUpper(name) && name != [] && !IsAsciiSpace(name[|name| - 1])
    ensures NoUpper(ModelsPrefix + name)
    ensures !IsAsciiSpace((ModelsPrefix + name)[0]) && !IsAsciiSpace((ModelsPrefix + name)[|ModelsPrefix + name| - 1])
  {
    assert NoUpper(ModelsPrefix);
    NoUpperAppend(ModelsPrefix, name);
  }

  /** Blank means empty after `strings.TrimSpace`. */
  predicate IsBlank(s: GoString) {
    AllSpace(s)
  }

  /** The thinking level a Gemini 3 model gets: the requested one if given, else high or low by the thinking flag. */
  function ResolveLevel(modelName: GoString, enableThinking: bool, requestedLevel: GoString): (r: Result<ThinkingLevel, ConfigError>)
    ensures !IsBlank(requestedLevel) && ParseThinkingLevel(requestedLevel).Failure? ==> r == ParseThinkingLevel(requestedLevel)
    ensures r.Success? ==> r.value != Unspecified
    ensures r.Success? && !IsBlank(requestedLevel) ==> r == ParseThinkingLevel(requestedLevel)
    ensures r.Success? && IsBlank(requestedLevel) ==> r.value == if enableThinking then High else Low
    ensures IsGemini3ProModel(modelName) && r.Success? ==> r.value == Low || r.value == High
    ensures r.Failure? <==>
              (!IsBlank(requestedLevel) && (ParseThinkingLevel(requestedLevel).Failure? ||
               (IsGemini3ProModel(modelName) && ParseThinkingLevel(requestedLevel).value != Low &&
                ParseThinkingLevel(requestedLevel).value != High)))
    ensures r.Failure? && ParseThinkingLevel(requestedLevel).Success? ==> r.error == LevelNotAllowed(modelName)
  {
    var level :=
      if !IsBlank(requestedLevel) then ParseThinkingLevel(requestedLevel)
      else if enableThinking then Success(High)
      else Success(Low);
    if level.Failure? then level
    else if IsGemini3ProModel(modelName) && level.value != Low && level.value != High then Failure(LevelNotAllowed(modelName))
    else level
  }

  /**
   * The output-token ceiling as Go computes it in `int32`: the byte length converted, multiplied,
   * then the base and the budget added, each step wrapping around.
   */
  function Ceiling(inputLength: nat, multiplier: int32, base: int32, budget: int32): (r: int32)
    ensures r == Wrap(inputLength * multiplier + base + budget)
    ensures InRange(inputLength * multiplier + base + budget) ==> r == inputLength * multiplier + base + budget
  {
    WrapMul(inputLength, multiplier);
    WrapAdd(inputLength * multiplier, base);
    WrapAdd(inputLength * multiplier + base, budget);
    Wrap(Wrap(Wrap(Wrap(inputLength) * multiplier) + base) + budget)
  }

  /** The budget a successful request adds to the ceiling: none for Gemini 3, else 1024 or 0 by the thinking flag. */
  function AddedBudget(modelName: GoString, enableThinking: bool): int32 {
    if IsGemini3Model(modelName) || !enableThinking then 0 else 1024
  }

  /**
   * The SDK config built from a request: the same ceiling and system instruction, and the thinking
   * level for Gemini 3 or the budget otherwise.
   */
  function GenerationConfig(request: LlmRequestConfig, isGemini3: bool): (c: GenerateContentConfig)
    ensures c.maxOutputTokens == request.maxTokens
    ensures c.systemInstruction == SystemInstructionContent(request.systemInstruction)
    ensures c.thinkingConfig.Some? && c.thinkingConfig.value.includeThoughts == request.includeThoughts
    ensures isGemini3 ==> c.thinkingConfig.value.thinkingLevel == request.thinkingLevel && c.thinkingConfig.value.thinkingBudget.None?
    ensures !isGemini3 ==> c.thinkingConfig.value.thinkingBudget == request.thinkingBudget && c.thinkingConfig.value.thinkingLevel == Unspecified
  {
    GenerateContentConfig(
      request.maxTokens,
      SystemInstructionContent(request.systemInstruction),
      Some(if isGemini3 then ThinkingConfig(request.includeThoughts, None, request.thinkingLevel)
           else ThinkingConfig(request.includeThoughts, request.thinkingBudget, Unspecified)))
  }

  /**
   * `createLLMConfigs`: the request description and the generation config for running `task` on
   * `inputText` with `modelName`. Gemini 3 models get a thinking level, every other model a budget.
   */
  function CreateLLMConfigs(task: TaskDefinition, modelName: GoString, inputText: GoString, enableThinking: bool,
                            requestedLevel: GoString): (r: Result<(LlmRequestConfig, GenerateContentConfig), ConfigError>)
    // Errors come only from the level of a Gemini 3 model.
    ensures r.Failure? <==> IsGemini3Model(modelName) && ResolveLevel(modelName, enableThinking, requestedLevel).Failure?
    ensures r.Failure? ==> r.error == ResolveLevel(modelName, enableThinking, requestedLevel).error
    // The request.
    ensures r.Success? ==> r.value.0.systemInstruction == task.systemInstruction && r.value.0.model == modelName
    ensures r.Success? ==> r.value.0.inputText == task.inputPrefix + Escape(inputText) + task.inputSuffix
    ensures r.Success? ==> r.value.0.includeThoughts == enableThinking
    ensures r.Success? && IsGemini3Model(modelName) ==>
              r.value.0.thinkingBudget.None? &&
              r.value.0.thinkingLevel == ResolveLevel(modelName, enableThinking, requestedLevel).value
    ensures !IsGemini3Model(modelName) ==>
              r.Success? &&
              r.value.0.thinkingBudget == Some(if enableThinking then 1024 else 0) &&
              r.value.0.thinkingLevel == Unspecified
    // The ceiling adds the budget only for budget-based models.
    ensures r.Success? ==>
              r.value.0.maxTokens == Wrap(|inputText| * task.maxTokensMultiplier + task.maxTokensBase + AddedBudget(modelName, enableThinking))
    // The generation config carries the same ceiling and exactly one thinking representation.
    ensures r.Success? ==> r.value.1.maxOutputTokens == r.value.0.maxTokens
    ensures r.Success? ==> r.value.1.systemInstruction == SystemInstructionContent(task.systemInstruction)
    ensures r.Success? ==> r.value.1.thinkingConfig.Some? && r.value.1.thinkingConfig.value.includeThoughts == enableThinking
    ensures r.Success? ==> (r.value.1.thinkingConfig.value.thinkingLevel != Unspecified <==> IsGemini3Model(modelName))
    ensures r.Success? ==> (r.value.1.thinkingConfig.value.thinkingBudget.Some? <==> !IsGemini3Model(modelName))
    ensures r.Success? ==>
              r.value.1.thinkingConfig.value.thinkingLevel == r.value.0.thinkingLevel &&
              r.value.1.thinkingConfig.value.thinkingBudget == r.value.0.thinkingBudget
  {
    var isGemini3 := IsGemini3Model(modelName);
    var level := if isGemini3 then ResolveLevel(modelName, enableThinking, requestedLevel) else Success(Unspecified);
    if level.Failure? then Failure(level.error)
    else
      var budget := AddedBudget(modelName, enableThinking);
      var thinkingBudget: Option<int32> := if isGemini3 then None else Some(budget);
      var maxTokens := Ceiling(|inputText|, task.maxTokensMultiplier, task.maxTokensBase, budget);
      assert maxTokens == Wrap(|inputText| * task.maxTokensMultiplier + task.maxTokensBase + budget);
      var request := LlmRequestConfig(
        task.systemInstruction,
        modelName,
        maxTokens,
        task.inputPrefix + Escape(inputText) + task.inputSuffix,
        enableThinking,
        thinkingBudget,
        level.value);
      var config := GenerationConfig(request, isGemini3);
      Success((request, config))
  }

  /** For other models the requested level is ignored, so a bad level string never causes an error. */
  lemma NonGemini3IgnoresLevel(task: TaskDefinition, modelName: GoString, inputText: GoString, enableThinking: bool,
                               level1: GoString, level2: GoString)
    requires !IsGemini3Model(modelName)
    ensures CreateLLMConfigs(task, modelName, inputText, enableThinking, level1)
         == CreateLLMConfigs(task, modelName, inputText, enableThinking, level2)
  {
  }

  /** Gemini 3 Pro rejects minimal and medium, naming the model in the error. */
  lemma ProRejectsMinimalAndMedium(task: TaskDefinition, modelName: GoString, inputText: GoString, enableThinking: bool,
                                   level: ThinkingLevel)
    requires IsGemini3ProModel(modelName)
    requires level == Minimal || level == Medium
    ensures CreateLLMConfigs(task, modelName, inputText, enableThinking, LevelName(level)) == Failure(LevelNotAllowed(modelName))
  {
    ProIsGemini3(modelName);
    ParseLevelName(level);
    LevelNameNotBlank(level);
    ProRejectsParsed(modelName, enableThinking, LevelName(level));
  }

  lemma LevelNameNotBlank(level: ThinkingLevel)
    requires level != Unspecified
    ensures !IsBlank(LevelName(level))
  {
    assert !IsAsciiSpace(LevelName(level)[0]);
  }

  lemma ProRejectsParsed(modelName: GoString, enableThinking: bool, requestedLevel: GoString)
    requires IsGemini3ProModel(modelName) && !IsBlank(requestedLevel)
    requires ParseThinkingLevel(requestedLevel) == Success(Minimal) || ParseThinkingLevel(requestedLevel) == Success(Medium)
    ensures ResolveLevel(modelName, enableThinking, requestedLevel) == Failure(LevelNotAllowed(modelName))
  {
  }

  /** Without an explicit level, a Gemini 3 model (Pro included) always succeeds, with high or low thinking. */
  lemma DefaultLevelAlwaysAllowed(task: TaskDefinition, modelName: GoString, inputText: GoString, enableThinking: bool,
                                  requestedLevel: GoString)
    requires IsGemini3Model(modelName) && IsBlank(requestedLevel)
    ensures CreateLLMConfigs(task, modelName, inputText, enableThinking, requestedLevel).Success?
    ensures CreateLLMConfigs(task, modelName, inputText, enableThinking, requestedLevel).value.0.thinkingLevel
         == if enableThinking then High else Low
  {
  }

  /** While the formula fits in `int32`, the ceiling is exactly bytes times multiplier, plus base and budget. */
  lemma ExactCeiling(task: TaskDefinition, modelName: GoString, inputText: GoString, enableThinking: bool, requestedLevel: GoString)
    requires CreateLLMConfigs(task, modelName, inputText, enableThinking, requestedLevel).Success?
    requires InRange(|inputText| * task.maxTokensMultiplier + task.maxTokensBase + AddedBudget(modelName, enableThinking))
    ensures CreateLLMConfigs(task, modelName, inputText, enableThinking, requestedLevel).value.0.maxTokens
         == |inputText| * task.maxTokensMultiplier + task.maxTokensBase + AddedBudget(modelName, enableThinking)
  {
  }

  /** The tech-qa ceiling does not depend on the input: 512, plus the budget for budget-based models. */
  lemma TechQaCeilingFixed(modelName: GoString, inputText: GoString, enableThinking: bool, requestedLevel: GoString)
    requires CreateLLMConfigs(TechQaTask, modelName, inputText, enableThinking, requestedLevel).Success?
    ensures CreateLLMConfigs(TechQaTask, modelName, inputText, enableThinking, requestedLevel).value.0.maxTokens
         == 512 + AddedBudget(modelName, enableThinking)
  {
    CatalogFormulas();
    ExactCeiling(TechQaTask, modelName, inputText, enableThinking, requestedLevel);
  }

  /** The translate ceiling is ten output tokens per input byte, plus the budget, while it fits in `int32`. */
  lemma TranslateCeiling(modelName: GoString, inputText: GoString, enableThinking: bool, requestedLevel: GoString)
    requires CreateLLMConfigs(TranslateTask, modelName, inputText, enableThinking, requestedLevel).Success?
    requires |inputText| * 10 + 1024 < 0x8000_0000
    ensures CreateLLMConfigs(TranslateTask, modelName, inputText, enableThinking, requestedLevel).value.0.maxTokens
         == |inputText| * 10 + AddedBudget(modelName, enableThinking)
  {
    CatalogFormulas();
    ExactCeiling(TranslateTask, modelName, inputText, enableThinking, requestedLevel);
  }

  /** "こんにちは" in UTF-8: five three-byte characters. */
  const Greeting: GoString := [0xE3, 0x81, 0x93, 0xE3, 0x82, 0x93, 0xE3, 0x81, 0xAB, 0xE3, 0x81, 0xA1, 0xE3, 0x81, 0xAF]

  /** Translating the 15 bytes of "こんにちは" without thinking on a budget-based model allows 150 tokens. */
  lemma GreetingCeiling(modelName: GoString)
    requires !IsGemini3Model(modelName)
    ensures CreateLLMConfigs(TranslateTask, modelName, Greeting, false, []).value.0.maxTokens == 150
  {
    TranslateCeiling(modelName, Greeting, false, []);
  }

  /**
   * `streamContent`: consumes the response stream, sending each part's text to the output in order
   * and overwriting the metadata from each result; the first error ends the call. `colorize` stands
   * for `color.BlueString` and `elapsed` for the time the call took.
   */
  method StreamContent(request: LlmRequestConfig, items: seq<StreamItem>, colorize: GoString -> GoString, elapsed: int)
    returns (sent: seq<GoString>, metadata: Metadata, err: Option<StreamError>)
    ensures Outcome(sent, metadata, err) == Consume(request.model, items, colorize, elapsed)
  {
    sent := [];
    metadata := ZeroMetadata;
    err := None;
    var i := 0;
    while i < |items|
      invariant i <= FirstError(items)
      invariant sent == Output(items[..i], colorize) && metadata == MetadataOf(items[..i])
    {
      assert items[..i + 1][..i] == items[..i];
      if items[i].Error? {
        var message := items[i].message;
        if Contains(message, NotFoundCode) || Contains(message, NotFoundText) {
          err := Some(ModelUnavailable(request.model, message));
        } else {
          err := Some(CallFailed(message));
        }
        assert FirstError(items) == i;
        return;
      }
      var result := items[i].response;
      if result.Some? {
        var texts := SendCandidates(result.value.candidates, colorize);
        sent := sent + texts;
        metadata := metadata.(modelVersion := result.value.modelVersion);
        if result.value.usageMetadata.Some? {
          var usage := result.value.usageMetadata.value;
          metadata := metadata.(totalTokenCount := usage.totalTokenCount, promptTokenCount := usage.promptTokenCount,
                                candidatesTokenCount := usage.candidatesTokenCount, thoughtsTokenCount := usage.thoughtsTokenCount);
        }
      }
      i := i + 1;
    }
    assert items[..i] == items;
    metadata := metadata.(apiCallTime := elapsed);
  }

  /** The loop over one result's candidates, sending the texts of each candidate's parts. */
  method SendCandidates(candidates: seq<Option<Candidate>>, colorize: GoString -> GoString) returns (sent: seq<GoString>)
    ensures sent == CandidatesOutput(candidates, colorize)
  {
    sent := [];
    for c := 0 to |candidates|
      invariant sent == CandidatesOutput(candidates[..c], colorize)
    {
      var candidate := candidates[c];
      CandidatesOutputStep(candidates, c, colorize);
      if candidate.Some? && candidate.value.content.Some? {
        var texts := SendParts(candidate.value.content.value.parts, colorize);
        assert texts == CandidateOutput(candidate, colorize);
        sent := sent + texts;
      }
    }
    assert candidates[..|candidates|] == candidates;
  }

  lemma CandidatesOutputStep(candidates: seq<Option<Candidate>>, c: nat, colorize: GoString -> GoString)
    requires c < |candidates|
    ensures CandidatesOutput(candidates[..c + 1], colorize)
         == CandidatesOutput(candidates[..c], colorize) + CandidateOutput(candidates[c], colorize)
  {
    assert candidates[..c + 1][..c] == candidates[..c];
  }

  /** The loop over one candidate's parts: each non-empty part's text, unescaped and coloured if a thought. */
  method SendParts(parts: seq<Option<Part>>, colorize: GoString -> GoString) returns (sent: seq<GoString>)
    ensures sent == PartsOutput(parts, colorize)
  {
    sent := [];
    for p := 0 to |parts|
      invariant sent == PartsOutput(parts[..p], colorize)
    {
      assert parts[..p + 1][..p] == parts[..p];
      var part := parts[p];
      if part.Some? && part.value.text != [] {
        var text: GoString;
        if part.value.thought {
          text := colorize(Unescape(part.value.text));
        } else {
          text := Unescape(part.value.text);
        }
        sent := sent + [text];
      }
    }
    assert parts[..|parts|] == parts;
  }
}
