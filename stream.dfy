/**
 * What `streamContent` does with the response stream, in both snapshots of the program
 * (english-translator/translate.go and english-translator/main.go): a left fold over the
 * stream's items that forwards part texts, overwrites the metadata, and stops at the first error.
 */
module Stream {
  import opened Wrappers
  import opened GoStrings
  import opened GoInt32
  import opened Html
  import opened GenAI

  /** `LLMMetadata` / `TranslationMetadata`; `apiCallTime` is the elapsed time, set only on success. */
  datatype Metadata = Metadata(
    apiCallTime: int,
    modelVersion: GoString,
    promptTokenCount: int32,
    candidatesTokenCount: int32,
    thoughtsTokenCount: int32,
    totalTokenCount: int32)

  /** The zero metadata the fold starts from. */
  const ZeroMetadata: Metadata := Metadata(0, [], 0, 0, 0, 0)

  /** The two errors `streamContent` wraps a stream error in. */
  datatype StreamError =
    | ModelUnavailable(model: GoString, cause: GoString)  // the model is missing or cannot generate content
    | CallFailed(cause: GoString)                         // any other failure of the call

  const NotFoundCode: GoString := [52, 48, 52]  // "404"
  const NotFoundText: GoString := [110, 111, 116, 32, 102, 111, 117, 110, 100]  // "not found"

  /** The error returned for a stream error with text `message` while calling `model`. */
  function ClassifyError(model: GoString, message: GoString): (e: StreamError)
    ensures e.ModelUnavailable? <==> Contains(message, NotFoundCode) || Contains(message, NotFoundText)
    ensures e.ModelUnavailable? ==> e.model == model
    ensures e.cause == message
  {
    if Contains(message, NotFoundCode) || Contains(message, NotFoundText) then ModelUnavailable(model, message)
    else CallFailed(message)
  }

  /** The text sent for one part: nothing for a nil or empty part, else its unescaped text, coloured if a thought. */
  function PartOutput(part: Option<Part>, colorize: GoString -> GoString): (r: seq<GoString>)
    ensures |r| <= 1
    ensures r != [] <==> part.Some? && part.value.text != []
  {
    if part.None? || part.value.text == [] then []
    else if part.value.thought then [colorize(Unescape(part.value.text))]
    else [Unescape(part.value.text)]
  }

  /** The texts sent for a list of parts, in order. */
  function PartsOutput(parts: seq<Option<Part>>, colorize: GoString -> GoString): seq<GoString> {
    if parts == [] then [] else PartsOutput(parts[..|parts| - 1], colorize) + PartOutput(parts[|parts| - 1], colorize)
  }

  /** The texts sent for one candidate: none when it or its content is nil. */
  function CandidateOutput(candidate: Option<Candidate>, colorize: GoString -> GoString): seq<GoString> {
    if candidate.None? || candidate.value.content.None? then []
    else PartsOutput(candidate.value.content.value.parts, colorize)
  }

  function CandidatesOutput(candidates: seq<Option<Candidate>>, colorize: GoString -> GoString): seq<GoString> {
    if candidates == [] then []
    else CandidatesOutput(candidates[..|candidates| - 1], colorize) + CandidateOutput(candidates[|candidates| - 1], colorize)
  }

  /** The texts sent for one stream result: none when the result is nil. */
  function ResponseOutput(response: Option<GenerateContentResponse>, colorize: GoString -> GoString): seq<GoString> {
    if response.None? then [] else CandidatesOutput(response.value.candidates, colorize)
  }

  /** The metadata after one result: the model version always, the counters only with a usage snapshot. */
  function UpdateMetadata(m: Metadata, response: Option<GenerateContentResponse>): (r: Metadata)
    ensures response.None? ==> r == m
    ensures response.Some? ==> r.modelVersion == response.value.modelVersion
    ensures response.Some? && response.value.usageMetadata.Some? ==> Counters(r) == response.value.usageMetadata.value
    ensures response.Some? && response.value.usageMetadata.None? ==> Counters(r) == Counters(m)
    ensures r.apiCallTime == m.apiCallTime
  {
    if response.None? then m
    else
      var m' := m.(modelVersion := response.value.modelVersion);
      match response.value.usageMetadata
      case None => m'
      case Some(u) =>
        m'.(totalTokenCount := u.totalTokenCount, promptTokenCount := u.promptTokenCount,
            candidatesTokenCount := u.candidatesTokenCount, thoughtsTokenCount := u.thoughtsTokenCount)
  }

  /** The four token counters of a metadata record, as a usage snapshot. */
  function Counters(m: Metadata): UsageMetadata {
    UsageMetadata(m.promptTokenCount, m.candidatesTokenCount, m.thoughtsTokenCount, m.totalTokenCount)
  }

  /** The position of the first error in the stream, or its length when there is none. */
  function FirstError(items: seq<StreamItem>): (k: nat)
    ensures k <= |items|
    ensures forall i :: 0 <= i < k ==> items[i].Result?
    ensures k < |items| ==> items[k].Error?
  {
    if items == [] then 0
    else if items[0].Error? then 0
    else
      var k := 1 + FirstError(items[1..]);
      assert forall i :: 1 <= i < |items| ==> items[i] == items[1..][i - 1];
      k
  }

  predicate NoErrors(items: seq<StreamItem>) {
    forall i :: 0 <= i < |items| ==> items[i].Result?
  }

  /** Everything sent for a sequence of results, in order. */
  function Output(items: seq<StreamItem>, colorize: GoString -> GoString): seq<GoString> {
    if items == [] then []
    else
      var last := items[|items| - 1];
      Output(items[..|items| - 1], colorize) + (if last.Result? then ResponseOutput(last.response, colorize) else [])
  }

  /** The metadata accumulated over a sequence of results, before the call time is recorded. */
  function MetadataOf(items: seq<StreamItem>): (r: Metadata)
    ensures r.apiCallTime == 0
  {
    if items == [] then ZeroMetadata
    else
      var last := items[|items| - 1];
      if last.Result? then UpdateMetadata(MetadataOf(items[..|items| - 1]), last.response)
      else MetadataOf(items[..|items| - 1])
  }

  /** What a whole run of `streamContent` yields: the texts sent, the metadata returned and the error, if any. */
  datatype Outcome = Outcome(sent: seq<GoString>, metadata: Metadata, error: Option<StreamError>)

  /**
   * The outcome of consuming `items` for a call to `model` that took `elapsed`: everything up to the
   * first error is processed; an error is classified and returned with the metadata gathered so far,
   * and only a complete stream records the call time.
   */
  function Consume(model: GoString, items: seq<StreamItem>, colorize: GoString -> GoString, elapsed: int): (r: Outcome)
    ensures r.error.None? <==> NoErrors(items)
    ensures r.metadata.apiCallTime == (if r.error.None? then elapsed else 0)
  {
    var k := FirstError(items);
    var processed := items[..k];
    if k < |items| then
      Outcome(Output(processed, colorize), MetadataOf(processed), Some(ClassifyError(model, items[k].message)))
    else
      Outcome(Output(processed, colorize), MetadataOf(processed).(apiCallTime := elapsed), None)
  }

  /** Items after the first error are never looked at: the outcome is fixed by the prefix up to the error. */
  lemma ErrorStops(model: GoString, before: seq<StreamItem>, message: GoString, after: seq<StreamItem>,
                   colorize: GoString -> GoString, elapsed: int)
    requires NoErrors(before)
    ensures Consume(model, before + [Error(message)] + after, colorize, elapsed)
         == Outcome(Output(before, colorize), MetadataOf(before), Some(ClassifyError(model, message)))
  {
    var items := before + [Error(message)] + after;
    FirstErrorOf(before, message, after);
    assert items[..|before|] == before;
  }

  lemma {:induction false} FirstErrorOf(before: seq<StreamItem>, message: GoString, after: seq<StreamItem>)
    requires NoErrors(before)
    ensures FirstError(before + [Error(message)] + after) == |before|
  {
    var items := before + [Error(message)] + after;
    if before != [] {
      assert items[1..] == before[1..] + [Error(message)] + after;
      FirstErrorOf(before[1..], message, after);
    }
  }

  /** A stream without errors is processed completely and the call time is recorded. */
  lemma CompleteStream(model: GoString, items: seq<StreamItem>, colorize: GoString -> GoString, elapsed: int)
    requires NoErrors(items)
    ensures Consume(model, items, colorize, elapsed)
         == Outcome(Output(items, colorize), MetadataOf(items).(apiCallTime := elapsed), None)
  {
    assert FirstError(items) == |items|;
    assert items[..|items|] == items;
  }

  /** What is sent for a stream is what is sent for each of its parts, in order. */
  lemma {:induction false} OutputAppend(a: seq<StreamItem>, b: seq<StreamItem>, colorize: GoString -> GoString)
    ensures Output(a + b, colorize) == Output(a, colorize) + Output(b, colorize)
    decreases |b|
  {
    if b == [] {
      assert a + b == a;
    } else {
      assert (a + b)[..|a + b| - 1] == a + b[..|b| - 1];
      OutputAppend(a, b[..|b| - 1], colorize);
    }
  }

  /** Errors and nil results send nothing. */
  lemma {:induction false} SilentItemsSendNothing(items: seq<StreamItem>, colorize: GoString -> GoString)
    requires forall i :: 0 <= i < |items| ==> items[i].Error? || items[i].response.None?
    ensures Output(items, colorize) == []
  {
    if items != [] {
      SilentItemsSendNothing(items[..|items| - 1], colorize);
    }
  }

  /** Every text sent is non-empty when the colour function keeps texts non-empty. */
  lemma {:induction false} SentTextsNonEmpty(items: seq<StreamItem>, colorize: GoString -> GoString)
    requires forall s: GoString :: s != [] ==> colorize(s) != []
    ensures forall t :: t in Output(items, colorize) ==> t != []
  {
    if items != [] {
      SentTextsNonEmpty(items[..|items| - 1], colorize);
      var last := items[|items| - 1];
      if last.Result? && last.response.Some? {
        CandidatesNonEmpty(last.response.value.candidates, colorize);
      }
    }
  }

  lemma {:induction false} CandidatesNonEmpty(candidates: seq<Option<Candidate>>, colorize: GoString -> GoString)
    requires forall s: GoString :: s != [] ==> colorize(s) != []
    ensures forall t :: t in CandidatesOutput(candidates, colorize) ==> t != []
  {
    if candidates != [] {
      CandidatesNonEmpty(candidates[..|candidates| - 1], colorize);
      var last := candidates[|candidates| - 1];
      if last.Some? && last.value.content.Some? {
        PartsNonEmpty(last.value.content.value.parts, colorize);
      }
    }
  }

  lemma {:induction false} PartsNonEmpty(parts: seq<Option<Part>>, colorize: GoString -> GoString)
    requires forall s: GoString :: s != [] ==> colorize(s) != []
    ensures forall t :: t in PartsOutput(parts, colorize) ==> t != []
  {
    if parts != [] {
      PartsNonEmpty(parts[..|parts| - 1], colorize);
    }
  }

  /** Without colouring, a part's text is sent unescaped whether or not it is a thought. */
  lemma PlainPartOutput(part: Part, colorize: GoString -> GoString)
    requires part.text != []
    requires forall s: GoString :: colorize(s) == s
    ensures PartOutput(Some(part), colorize) == [Unescape(part.text)]
  {
  }

  /** A text the service escaped is sent exactly as it was before escaping. */
  lemma EscapedPartSentVerbatim(text: GoString, colorize: GoString -> GoString)
    requires text != []
    ensures PartOutput(Some(Part(Escape(text), false)), colorize) == [text]
  {
    UnescapeEscape(text);
  }

  predicate CarriesUsage(item: StreamItem) {
    item.Result? && item.response.Some? && item.response.value.usageMetadata.Some?
  }

  /**
   * The counters are the last usage snapshot in the stream, not a sum: after a result with usage
   * `u`, results without usage (and nil results) leave them at `u`.
   */
  lemma {:induction false} LastUsageWins(a: seq<StreamItem>, response: GenerateContentResponse, b: seq<StreamItem>)
    requires response.usageMetadata.Some?
    requires forall i :: 0 <= i < |b| ==> !CarriesUsage(b[i])
    ensures Counters(MetadataOf(a + [Result(Some(response))] + b)) == response.usageMetadata.value
    decreases |b|
  {
    var items := a + [Result(Some(response))] + b;
    if b == [] {
      assert items[..|items| - 1] == a;
    } else {
      assert items[..|items| - 1] == a + [Result(Some(response))] + b[..|b| - 1];
      LastUsageWins(a, response, b[..|b| - 1]);
    }
  }

  /** The counters stay zero until some result carries a usage snapshot. */
  lemma {:induction false} NoUsageZeroCounters(items: seq<StreamItem>)
    requires forall i :: 0 <= i < |items| ==> !CarriesUsage(items[i])
    ensures Counters(MetadataOf(items)) == Counters(ZeroMetadata)
  {
    if items != [] {
      NoUsageZeroCounters(items[..|items| - 1]);
    }
  }

  /** The model version is that of the last non-nil result, even when it is empty: later nil results keep it. */
  lemma {:induction false} LastResultSetsModelVersion(a: seq<StreamItem>, response: GenerateContentResponse, b: seq<StreamItem>)
    requires forall i :: 0 <= i < |b| ==> b[i] == Result(None)
    ensures MetadataOf(a + [Result(Some(response))] + b).modelVersion == response.modelVersion
    decreases |b|
  {
    var items := a + [Result(Some(response))] + b;
    if b == [] {
      assert items[..|items| - 1] == a;
    } else {
      assert items[..|items| - 1] == a + [Result(Some(response))] + b[..|b| - 1];
      LastResultSetsModelVersion(a, response, b[..|b| - 1]);
    }
  }
}
