# llm-tools request core, in Dafny

This project models the core of two small Go command-line tools that send text to Google's Gemini
models and stream the answer to the terminal. Both come from the `llm-tools` repository.

- `english-translator/translate.go` is the task-aware request builder:
  - `parseThinkingLevel`;
  - the model-family tests `isGemini3Model` and `isGemini3ProModel`;
  - `createLLMConfigs`. It takes a task definition and chooses between a thinking level (Gemini 3)
    and a thinking budget (every other model). It computes the output-token ceiling in `int32`
    arithmetic. It wraps the HTML-escaped input in the task's prefix and suffix;
  - `streamContent`. It folds over the response stream. It forwards each non-empty part's
    unescaped text (thoughts in colour), keeps the last usage snapshot and stops at the first
    error, which it classifies as "model not found" or "call failed".
- `english-translator/main.go` is the earlier translation-only version:
  - its `createLLMConfigs`, with a fixed budget and `<text_to_translate>` tags;
  - its `streamContent`, without colour;
  - the renderer goroutine, which prints every streamed text five bytes at a time, pauses between
    steps and ends the output with a newline.
- `assistant/tasks.go` is the task catalog:
  - `TaskDefinition`, `taskDefinitions` and `taskAliases`;
  - `getTaskDefinition`, which trims, lower-cases, defaults to "translate", applies one alias step
    and searches linearly;
  - `taskUsageLines`.

How the model is organised:

- Go strings are byte sequences (`GoStrings.GoString`).
- Go string literals are their UTF-8 encoding (`GoStrings.Utf8`). Short names are written as byte
  displays, with the text in a comment.
- `int32` is a subset type. Wrap-around is written out (`GoInt32.Wrap`).
- The SDK's response and config types are plain datatypes (`GenAI`).
- A response stream is a sequence of items. Each item is either an error or a possibly-nil result.
- The channel between `streamContent` and the renderer is the sequence of texts sent.

Modules, one per file:

- `Wrappers`: `Option` and `Result`.
- `GoStrings`: the `strings` functions the core uses, restricted to ASCII.
- `GoInt32`: `int32` and its wrap-around.
- `Html`: `html.EscapeString` and the inverse `html.UnescapeString` performs on its output.
- `GenAI`: the SDK types.
- `Stream`: the fold both `streamContent` versions perform, as functions.
- `Tasks`: the catalog and its lookup.
- `Translate`: the task-aware builder and its imperative `streamContent`.
- `LegacyMain`: the earlier `createLLMConfigs`, `streamContent` and renderer.

## Model

| member | source | states |
|---|---|---|
| GoInt32.Wrap | english-translator/translate.go:166-169 | the `int32` Go produces for an exact value is congruent to it modulo 2^32, and equals it when it is in range |
| GoInt32.WrapAdd | english-translator/translate.go:166-169 | wrapping after each addition step gives the same `int32` as wrapping the exact sum once |
| GoInt32.WrapMul | english-translator/translate.go:166 | wrapping the conversion before the multiplication gives the same `int32` as wrapping the exact product |
| GoStrings.EncodeRune | assistant/tasks.go:23 | a character's UTF-8 encoding is 1 to 4 bytes; it is one byte exactly for ASCII and three bytes exactly for the basic multilingual plane above U+07FF; continuation bytes lie in 0x80-0xBF |
| GoStrings.AsciiIsUtf8 | assistant/tasks.go:25-26 | for ASCII text, one byte per character is the same as the UTF-8 encoding |
| GoStrings.TrimLeftSpace | assistant/tasks.go:47 | the result is a suffix of the input; everything dropped is white space; the result does not start with white space |
| GoStrings.TrimRightSpace | assistant/tasks.go:47 | the result is a prefix of the input; everything dropped is white space; the result does not end with white space |
| GoStrings.TrimSpace | assistant/tasks.go:47 | the result is empty exactly when the input is all white space; otherwise it neither starts nor ends with white space |
| GoStrings.TrimSpaceMiddle | assistant/tasks.go:47 | the result of `TrimSpace` is a middle segment of the input with only white space before and after it, so together with `TrimSpace`'s own contract it is the input with its leading and trailing white space removed |
| GoStrings.ToLower | assistant/tasks.go:47 | same length; every byte is mapped by the ASCII lower-case mapping |
| GoStrings.ToLowerIdempotent | english-translator/translate.go:110 | lower-casing twice is the same as lower-casing once |
| GoStrings.TrimSpacePadding | assistant/tasks.go:47 | adding white space on either side does not change what `TrimSpace` returns |
| GoStrings.TrimSpaceToLower | english-translator/translate.go:110 | trimming commutes with lower-casing |
| GoStrings.NormalFormUnchanged | english-translator/translate.go:110 | a name without upper-case letters and without surrounding white space is its own normal form |
| GoStrings.NoUpperAppend | english-translator/translate.go:126-127 | joining two names without upper-case letters gives a name without upper-case letters |
| GoStrings.TrimPrefix | english-translator/translate.go:127 | when the prefix is present it is removed exactly once, so putting it back gives the input; otherwise the input is returned unchanged |
| GoStrings.HasPrefix | english-translator/translate.go:215 | `strings.HasPrefix`: the prefix is an initial segment of the string; the Gemini 3 family tests are stated with it |
| GoStrings.Contains | english-translator/translate.go:230 | true exactly when the substring occurs at some position |
| GoStrings.TrimRightNewlines | assistant/tasks.go:67 | removes exactly the trailing run of newlines: the result is a prefix, does not end in a newline, and only newlines were dropped |
| GoStrings.FlattenAppend | english-translator/main.go:454-463 | concatenating the pieces of two lists is the concatenation of each list's pieces |
| Html.Escape | english-translator/translate.go:175 | the result contains no `<`, `>`, `"` or `'`; text without special bytes is unchanged |
| Html.Unescape | english-translator/translate.go:255-257 | each of the five entities `html.EscapeString` writes becomes its byte and every other byte is kept, so the result is never longer and is empty only for empty input; its partner is the round trip `UnescapeEscape` |
| Html.UnescapeEscape | english-translator/translate.go:175 | unescaping escaped text gives back the text (round trip) |
| Html.UnescapePlain | english-translator/translate.go:255-257 | text without `&` is unescaped to itself |
| Html.UnescapeEntity | english-translator/translate.go:255-257 | each of the five entities decodes to the byte it stands for |
| Tasks.CatalogFormulas | assistant/tasks.go:27-28 | translate allows 10 tokens per byte with no base; tech-qa allows no tokens per byte and a base of 512 (lines 36-37) |
| Tasks.NormalizeTaskName | assistant/tasks.go:47-53 | a blank name becomes "translate"; an alias is replaced by its target; any other name is searched for trimmed and lower-cased |
| Tasks.FindTask | assistant/tasks.go:54-59 | nothing is found exactly when no task has the name; what is found is a catalog task with that name |
| Tasks.FindTaskFirst | assistant/tasks.go:54-57 | the search returns the first task with the name; no earlier task has it |
| Tasks.GetTaskDefinition | assistant/tasks.go:46-60 | a found task carries the normalised name; a failed lookup returns the zero `TaskDefinition` and false |
| Tasks.LookupSucceedsIffListed | assistant/tasks.go:46-60 | the lookup succeeds exactly when some catalog task has the normalised name, and then returns a catalog task |
| Tasks.LookupIgnoresCaseAndPadding | assistant/tasks.go:47 | white space around the name and the case of its letters do not change the lookup |
| Tasks.BlankNameIsTranslate | assistant/tasks.go:48-50 | an empty or all-white-space name selects the translate task |
| Tasks.LookupByOwnName | assistant/tasks.go:20-39 | each catalog task is found under its own name |
| Tasks.AliasesSelectTechQa | assistant/tasks.go:41-44 | "qa" and "question", in any case and padding, select tech-qa; an alias's target is not itself an alias, so one step suffices |
| Tasks.UnknownNameNotFound | assistant/tasks.go:59 | a name that is neither a task nor an alias ("bogus") gives the zero task and false |
| Tasks.UsageLinesOf | assistant/tasks.go:64-66 | one usage line per task, in catalog order |
| Tasks.UsageLine | assistant/tasks.go:65 | one task's usage line is two spaces, a dash and a space, the task name, a colon and a space, then the description |
| Tasks.JoinLines | assistant/tasks.go:62-68 | the reference for what `taskUsageLines` returns: the lines with one newline between every two of them and none after the last; `TerminatedIsJoinedPlusNewline` relates it to the builder's output |
| Tasks.TerminatedIsJoinedPlusNewline | assistant/tasks.go:63-66 | lines each followed by a newline are the lines joined by newlines, plus one final newline |
| Tasks.TrimmedTerminatedIsJoined | assistant/tasks.go:67 | trimming the builder's trailing newlines leaves the lines joined by newlines, when the last line does not end in a newline |
| Tasks.TaskUsageLines | assistant/tasks.go:62-68 | the result is the catalog's `  - name: description` lines joined by newlines, with no trailing newline |
| Tasks.BuildUsageLines | assistant/tasks.go:63-67 | the builder loop writes each line followed by a newline, then the trailing newlines are trimmed |
| Tasks.TechQaDescriptionEnd | assistant/tasks.go:32 | the last catalog description ends in a non-ASCII byte, not a newline |
| Translate.ParseThinkingLevel | english-translator/translate.go:109-123 | success exactly when the trimmed, lower-cased text is one of minimal, low, medium or high; the level's name is that text; a failure carries the text as given |
| Translate.ParseLevelName | english-translator/translate.go:111-119 | every level's own name parses back to that level (round trip) |
| Translate.ParseIgnoresCaseAndPadding | english-translator/translate.go:110 | white space around the level and letter case do not change whether or what it parses to |
| Translate.FamilyName | english-translator/translate.go:126-127 | the name the family tests compare is the trimmed, lower-cased model name, with one leading "models/" removed when present |
| Translate.IsGemini3Model | english-translator/translate.go:212-216 | a model is Gemini 3 exactly when its family name starts with "gemini-3"; `FamilyIgnoresCaseAndPadding` and `ResourcePrefixIgnored` state what that name ignores |
| Translate.IsGemini3ProModel | english-translator/translate.go:125-129 | a model is Gemini 3 Pro exactly when its family name starts with "gemini-3-pro"; `ProIsGemini3` places it inside the Gemini 3 family |
| Translate.ProIsGemini3 | english-translator/translate.go:125-129 | every Gemini 3 Pro model is a Gemini 3 model (lines 212-216) |
| Translate.FamilyIgnoresCaseAndPadding | english-translator/translate.go:213 | the family tests ignore white space and letter case in the model name |
| Translate.ResourcePrefixIgnored | english-translator/translate.go:214 | a normalised model name belongs to the same family with or without the "models/" prefix |
| Translate.ResolveLevel | english-translator/translate.go:141-156 | an explicit level must parse, and its parse error is returned; a blank level defaults to high with thinking and low without; a Pro model accepts only low or high and otherwise fails naming the model |
| Translate.Ceiling | english-translator/translate.go:166-169 | the stepwise `int32` computation equals the exact formula wrapped once, and equals the exact formula when it is in range |
| Translate.GenerationConfig | english-translator/translate.go:181-208 | the SDK config has the request's ceiling, system instruction and thought flag; it has the level for Gemini 3 and the budget otherwise |
| Translate.CreateLLMConfigs | english-translator/translate.go:132-210 | fails exactly when a Gemini 3 model's level is rejected, with that error; otherwise the request has the task's instruction, the model, the prefix, escaped input and suffix, and the thought flag; Gemini 3 gets the resolved level and no budget; other models get a 1024 or 0 budget; the ceiling is bytes times multiplier plus base plus the added budget, wrapped to `int32`; the config has exactly one thinking representation |
| Translate.NonGemini3IgnoresLevel | english-translator/translate.go:141-162 | for other models the requested level string has no effect, so an invalid level is never an error |
| Translate.ProRejectsMinimalAndMedium | english-translator/translate.go:154-156 | a Gemini 3 Pro model asked for minimal or medium fails with the not-allowed error naming the model |
| Translate.DefaultLevelAlwaysAllowed | english-translator/translate.go:148-152 | with no level given, every Gemini 3 model, Pro included, succeeds with high or low |
| Translate.ExactCeiling | english-translator/translate.go:166-169 | while the formula fits in `int32`, the ceiling is exactly bytes times multiplier plus base plus budget |
| Translate.TechQaCeilingFixed | assistant/tasks.go:36-37 | the tech-qa ceiling is 512 plus the budget, whatever the input |
| Translate.TranslateCeiling | assistant/tasks.go:27-28 | the translate ceiling is ten tokens per input byte plus the budget, while it fits in `int32` |
| Translate.GreetingCeiling | english-translator/translate.go:166-169 | translating "こんにちは" (15 bytes) without thinking on a budget-based model allows 150 tokens |
| Translate.StreamContent | english-translator/translate.go:220-280 | the texts sent, the metadata and the error are those of the stream fold |
| Translate.SendCandidates | english-translator/translate.go:248-264 | the candidate loop sends the texts of each non-nil candidate's parts, in order |
| Translate.SendParts | english-translator/translate.go:251-260 | the part loop sends each non-empty part's unescaped text, coloured when it is a thought |
| Stream.ClassifyError | english-translator/translate.go:230-236 | an error is "model unavailable", naming the model, exactly when its message contains "404" or "not found"; otherwise the call failed; the cause is kept |
| Stream.PartOutput | english-translator/translate.go:252-259 | a part sends at most one text, and sends one exactly when it is non-nil with non-empty text |
| Stream.UpdateMetadata | english-translator/translate.go:267-275 | a nil result changes nothing; a result sets the model version; its usage, when present, replaces all four counters, and otherwise they are kept |
| Stream.FirstError | english-translator/translate.go:227-237 | the index of the first error item, or the length: every item before it is a result |
| Stream.Output | english-translator/translate.go:227-264 | the texts sent for the items, item after item; errors and nil results send nothing (`SilentItemsSendNothing`) |
| Stream.SilentItemsSendNothing | english-translator/translate.go:248 | a stream made only of errors and nil results sends nothing |
| Stream.MetadataOf | english-translator/translate.go:266-275 | the metadata after the items, each result updating it in turn; it never sets the call time, which stays zero |
| Stream.Consume | english-translator/translate.go:227-279 | the outcome has no error exactly when no item is an error; only then is the call time the elapsed time, and otherwise it is zero; the same fold is used for `english-translator/main.go` 340-386 |
| Stream.ErrorStops | english-translator/translate.go:228-236 | items after the first error are never looked at; the outcome carries the output and metadata gathered before it and the classified error |
| Stream.CompleteStream | english-translator/translate.go:276-279 | a stream without errors is processed completely and records the call time |
| Stream.OutputAppend | english-translator/translate.go:227-264 | what is sent for a stream is what is sent for its first part followed by what is sent for the rest |
| Stream.SentTextsNonEmpty | english-translator/translate.go:252 | every text sent is non-empty when the colour function keeps texts non-empty |
| Stream.PlainPartOutput | english-translator/main.go:364-366 | without colouring, a part's text is sent unescaped whether or not it is a thought |
| Stream.EscapedPartSentVerbatim | english-translator/translate.go:257 | a text the service escaped is sent exactly as it was before escaping |
| Stream.LastUsageWins | english-translator/translate.go:269-274 | the counters are the last usage snapshot, not a sum: later results without usage keep them |
| Stream.NoUsageZeroCounters | english-translator/translate.go:224 | until some result carries usage, the counters stay zero |
| Stream.LastResultSetsModelVersion | english-translator/translate.go:267-268 | the model version is that of the last non-nil result, however many nil results follow it |
| LegacyMain.ThinkingBudget | english-translator/main.go:299-304 | the budget is positive exactly when thinking is enabled, and is 1024 or 0 |
| LegacyMain.CreateLLMConfigs | english-translator/main.go:298-329 | the request has the fixed instruction, the model and the thought flag; the ceiling is ten tokens per byte plus the budget, wrapped to `int32`; the input is the escaped text between `<text_to_translate>` tags; the config mirrors the request with a budget and no level |
| LegacyMain.InputRecoversTarget | english-translator/main.go:310 | the text between the tags, unescaped, is exactly the text to translate |
| LegacyMain.TargetCannotCloseTag | english-translator/main.go:310 | the escaped text contains neither tag, so no input can end the tagged section early |
| LegacyMain.ExactCeiling | english-translator/main.go:309 | while it fits in `int32`, the ceiling is ten tokens per byte plus the budget |
| LegacyMain.GreetingCeiling | english-translator/main.go:309 | "こんにちは" allows 150 tokens, or 1174 with thinking |
| LegacyMain.SameCeilingAsTaskVersion | english-translator/translate.go:166-169 | on a budget-based model, the task-aware builder running the translate task asks for the same ceiling and budget as this version |
| LegacyMain.StreamContent | english-translator/main.go:333-387 | the texts sent, the metadata and the error are those of the stream fold without colouring |
| LegacyMain.ThoughtsSentPlain | english-translator/main.go:363-366 | thought parts are sent as their unescaped text, like any other part |
| LegacyMain.Render | english-translator/main.go:449-480 | prints every text's slices in order, then a newline unless the last text ended with one; it pauses once between every two slices of a text |
| LegacyMain.RenderText | english-translator/main.go:455-464 | the inner loop prints one text's slices and pauses between them |
| LegacyMain.Slices | english-translator/main.go:455-459 | the consecutive pieces of at most five bytes one text is printed in; `SlicesJoin` and `SliceShape` state that they rebuild the text and how many there are |
| LegacyMain.Pauses | english-translator/main.go:460-463 | one sleep after each piece but the last; `SliceShape` states it is one fewer than the pieces |
| LegacyMain.Printed | english-translator/main.go:454-477 | every text's pieces in order, then a newline unless the last text ended with one; `RenderedBytes` states which bytes that is |
| LegacyMain.SlicesJoin | english-translator/main.go:456-459 | a text's slices put back together are the text |
| LegacyMain.SliceShape | english-translator/main.go:457 | a text of n bytes is printed in ceil(n/5) slices of one to five bytes, with one pause fewer |
| LegacyMain.AllSlicesJoin | english-translator/main.go:454-464 | the slices of all texts put back together are the texts one after another |
| LegacyMain.RenderedBytes | english-translator/main.go:466-477 | the bytes printed are the texts followed by a newline exactly when the last text did not end with one, so the output always ends with a newline |
| LegacyMain.NothingSentPrintsNewline | english-translator/main.go:452 | with no text at all, only the newline is printed |

## Left out

- `english-translator/config.go` and its copy in `main.go` (lines 40-191): settings files and interactive setup are file and terminal I/O.
- `parseArgs` (`main.go` 232-259): command-line parsing is not part of this model.
- `initClient` (`main.go` 262-295, `translate.go` 74-107): building the SDK client is a foreign call.
- `printMetadata` (`main.go` 390-400, `translate.go` 283-294) and the rest of `main` outside the renderer goroutine (`main.go` 402-448 and 482-503): output to standard error, channel set-up and process exit.
- The `fmt.Fprintln(os.Stderr, err.Error())` before the "model not found" error (`translate.go` 231): output to standard error is not modelled.
- `listAvailableModels` (`main.go` 194-228, `translate.go` 39-71): it calls the model-listing API and prints the models whose supported actions include `generateContent`. In the model, a "not found" error only classifies the error.
- Concurrency. The goroutine, the buffered channel, `close` and the `done` handshake are not modelled. The renderer is a method over the sequence of texts `streamContent` sent, in the order sent.
- Time:
  - `time.Since(start)` is the `elapsed` parameter;
  - each `time.Sleep(timePerChar)` (25 ms, `main.go` 451 and 462) is counted as one pause; its duration is not modelled.
- The SDK's streaming call is the `items` parameter. Its types are plain datatypes.
- The wording of the Go error values (`fmt.Errorf` messages in Japanese) is not modelled. The model keeps which error it is, the model name and the cause.
- `color.BlueString` is the `colorize` function parameter. Its escape codes are not modelled.
- GoStrings.ToLower: only the ASCII upper-case letters are mapped. Go's `strings.ToLower` also maps non-ASCII letters.
- GoStrings.TrimSpace: only the six ASCII white-space bytes are trimmed. Go's `strings.TrimSpace` also trims Unicode spaces such as U+0085 and U+3000.
- Html.Unescape: only the five entities `html.EscapeString` writes are decoded. Go's `html.UnescapeString` decodes every HTML entity.
- LegacyMain.CreateLLMConfigs: Go's `int` product `len(targetText) * 10` is taken as exact, because a string long enough to overflow 64 bits cannot exist.
- LegacyMain.StreamContent: it reuses `Translate.SendCandidates` with the identity as the colour function. With the identity, that loop sends the same texts as this version's uncoloured loop.
