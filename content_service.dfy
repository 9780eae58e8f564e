/**
 * The content service's decisions that do not depend on the network: how a
 * thrown error is classified, what is returned without an API key, which chat
 * model and tools are chosen, and which grounding chunks become sources. The
 * network calls themselves are an outcome passed in.
 */
module ContentService {
  import opened Wrappers
  import opened Text

  /** The message of a thrown error: `error?.message`, absent when there is none. */
  type ErrorMessage = Option<string>

  /** `isQuotaError`: the lowered message (or "" without one) mentions a quota, HTTP 429 or resource exhaustion. */
  predicate IsQuotaError(message: ErrorMessage) {
    var msg := Lower(message.GetOr(""));
    Contains(msg, "quota") || Contains(msg, "429") || Contains(msg, "resource_exhausted")
  }

  /** The classification is case-insensitive: a message and its lowered form are classified alike. */
  lemma QuotaErrorIgnoresCase(s: string)
    ensures IsQuotaError(Some(s)) == IsQuotaError(Some(Lower(s)))
  {
    LowerIdempotent(s);
  }

  /** An error without a message is never a quota error. */
  lemma NoMessageIsGeneral()
    ensures !IsQuotaError(None)
  {
    var e := Lower("");
    assert e == "";
    assert !Contains(e, "quota") && !Contains(e, "429") && !Contains(e, "resource_exhausted");
  }

  /** A quota error is one whose lowered message has one of the three keywords at some offset. */
  lemma QuotaErrorIff(message: ErrorMessage)
    ensures var msg := Lower(message.GetOr(""));
      IsQuotaError(message) <==>
        (exists i :: OccursAt(msg, "quota", i)) ||
        (exists i :: OccursAt(msg, "429", i)) ||
        (exists i :: OccursAt(msg, "resource_exhausted", i))
  {
    var msg := Lower(message.GetOr(""));
    ContainsAt(msg, "quota");
    ContainsAt(msg, "429");
    ContainsAt(msg, "resource_exhausted");
  }

  datatype ErrorKind = QuotaExceeded | GeneralError

  /** An object with `isError: true`; the no-key error of the concept call carries no `type`. */
  datatype ServiceError = ServiceError(kind: Option<ErrorKind>, message: string)

  const QuotaMessage: string :=
    "The Nexus Core is currently at peak capacity (API Quota Exceeded). Please wait a moment before requesting more data."
  const GeneralMessage: string :=
    "An unexpected anomaly occurred in the data stream. Please check your connection."

  /** `handleGeminiError`: a typed error, QUOTA_EXCEEDED exactly for quota errors, with that type's fixed message. */
  function HandleError(message: ErrorMessage): (e: ServiceError)
    ensures e.kind.Some?
    ensures e.kind == Some(QuotaExceeded) <==> IsQuotaError(message)
    ensures e.kind == Some(GeneralError) <==> !IsQuotaError(message)
    ensures e.message == (if IsQuotaError(message) then QuotaMessage else GeneralMessage)
  {
    if IsQuotaError(message) then ServiceError(Some(QuotaExceeded), QuotaMessage)
    else ServiceError(Some(GeneralError), GeneralMessage)
  }

  /** What an awaited network call did: returned a response whose `text` may be empty, or threw. */
  datatype CallOutcome<T> = Returned(text: Option<T>) | Threw(message: ErrorMessage)

  datatype SubTopic = SubTopic(title: string, description: string, imageKeyword: Option<string>)
  datatype IndustryUpdate = IndustryUpdate(headline: string, summary: string, date: string, imageKeyword: string)
  datatype LearningContent = LearningContent(
    title: string, introduction: string, keyPoints: seq<string>, deepDive: string,
    curatedSubTopics: seq<SubTopic>, industryUpdates: seq<IndustryUpdate>, vizPrompt: string)

  /** A fetch either yields the parsed content or an error object. */
  datatype Fetched<T> = Content(value: T) | Failure(error: ServiceError)

  /** The message thrown when a call returns without text. */
  const EmptyResponse: string := "Empty response"

  /** The placeholder module shown when no API key is configured. */
  const MissingKeyContent: LearningContent :=
    LearningContent(
      "API Key Missing",
      "Please configure your API key to generate real-time content.",
      ["Check process.env.API_KEY", "Restart application"],
      "Without an API key, we cannot fetch the latest scholarly articles from the Neural Core.",
      [], [],
      "Explore the simulation freely.")

  /**
   * `fetchLearningContent`: an empty key short-circuits to the placeholder;
   * otherwise an empty response text is thrown as "Empty response", and
   * anything thrown is classified by `HandleError`.
   */
  function FetchLearningContent(apiKey: string, outcome: CallOutcome<LearningContent>): (r: Fetched<LearningContent>)
    ensures apiKey == "" ==> r == Content(MissingKeyContent)
    ensures apiKey != "" && outcome.Threw? ==> r == Failure(HandleError(outcome.message))
  {
    if apiKey == "" then Content(MissingKeyContent)
    else match outcome
      case Returned(Some(c)) => Content(c)
      case Returned(None) => Failure(HandleError(Some(EmptyResponse)))
      case Threw(m) => Failure(HandleError(m))
  }

  /** Without a key the placeholder has no sub-topics and no industry updates, whatever the network would do. */
  lemma MissingKeyHasNoNews(o1: CallOutcome<LearningContent>, o2: CallOutcome<LearningContent>)
    ensures FetchLearningContent("", o1) == FetchLearningContent("", o2)
    ensures var r := FetchLearningContent("", o1);
      r.Content? && r.value.curatedSubTopics == [] && r.value.industryUpdates == [] && |r.value.keyPoints| == 2
  {
  }

  /** With a key, a failed call is always reported as an error, never as content. */
  lemma FetchFailureIsError(apiKey: string, outcome: CallOutcome<LearningContent>)
    requires apiKey != ""
    ensures FetchLearningContent(apiKey, outcome).Failure? <==> (outcome.Threw? || outcome.text.None?)
    ensures FetchLearningContent(apiKey, outcome).Failure? ==> FetchLearningContent(apiKey, outcome).error.kind.Some?
  {
  }

  datatype SuggestedPath = SuggestedPath(nextConcept: string, rationale: string, connectionType: string)
  datatype ConceptDetail = ConceptDetail(
    explanation: string, suggestedPath: SuggestedPath, relatedConcepts: seq<string>,
    practicalApplication: string, historicalContext: string, imageKeyword: string)

  /** `fetchConceptExplanation`: like the learning-content fetch, but with no key it is an untyped error. */
  function FetchConceptExplanation(apiKey: string, outcome: CallOutcome<ConceptDetail>): (r: Fetched<ConceptDetail>)
    ensures apiKey == "" ==> r == Failure(ServiceError(None, "API Key required"))
    ensures apiKey != "" ==> (r.Failure? ==> r.error.kind.Some?)
    ensures apiKey != "" && outcome.Threw? ==> r == Failure(HandleError(outcome.message))
  {
    if apiKey == "" then Failure(ServiceError(None, "API Key required"))
    else match outcome
      case Returned(Some(c)) => Content(c)
      case Returned(None) => Failure(HandleError(Some("No text response")))
      case Threw(m) => Failure(HandleError(m))
  }

  /** The chat session's configuration: model name, whether web search is offered, and the thinking budget. */
  datatype ChatConfig = ChatConfig(model: string, googleSearch: bool, thinkingBudget: Option<int>)

  const ProModel: string := "gemini-3-pro-preview"
  const FlashModel: string := "gemini-3-flash-preview"

  function ChatConfigFor(isThinkingMode: bool): (c: ChatConfig)
    ensures c.model == ProModel <==> isThinkingMode
    ensures c.model == FlashModel <==> !isThinkingMode
    ensures c.googleSearch <==> !isThinkingMode
    ensures c.thinkingBudget.Some? <==> isThinkingMode
    ensures isThinkingMode ==> c.thinkingBudget == Some(32768)
  {
    if isThinkingMode then ChatConfig(ProModel, false, Some(32768)) else ChatConfig(FlashModel, true, None)
  }

  /** `chunk.web`, whose `uri` and `title` may each be missing. */
  datatype Web = Web(uri: Option<string>, title: Option<string>)
  datatype Chunk = Chunk(web: Option<Web>)
  datatype Source = Source(title: string, url: string)

  /** A JavaScript-truthy string: present and not empty. */
  predicate Truthy(s: Option<string>) {
    s.Some? && s.value != ""
  }

  /** A chunk that becomes a source: it has a web part with both a uri and a title. */
  predicate Grounded(c: Chunk) {
    c.web.Some? && Truthy(c.web.value.uri) && Truthy(c.web.value.title)
  }

  function SourceOf(c: Chunk): Source
    requires Grounded(c)
  {
    Source(c.web.value.title.value, c.web.value.uri.value)
  }

  /** The sources the grounding chunks yield, in chunk order. */
  function GroundingSources(chunks: seq<Chunk>): seq<Source>
  {
    if chunks == [] then []
    else (if Grounded(chunks[0]) then [SourceOf(chunks[0])] else []) + GroundingSources(chunks[1..])
  }

  lemma GroundingSourcesAppend(a: seq<Chunk>, b: seq<Chunk>)
    ensures GroundingSources(a + b) == GroundingSources(a) + GroundingSources(b)
  {
    if a == [] {
      assert a + b == b;
    } else {
      assert (a + b)[1..] == a[1..] + b;
    }
  }

  /** The `forEach` over `groundingChunks` that pushes one source per grounded chunk. */
  method CollectSources(chunks: seq<Chunk>) returns (sources: seq<Source>)
    ensures sources == GroundingSources(chunks)
  {
    sources := [];
    var i := 0;
    while i < |chunks|
      invariant 0 <= i <= |chunks|
      invariant sources == GroundingSources(chunks[..i])
    {
      var chunk := chunks[i];
      GroundingSourcesAppend(chunks[..i], [chunk]);
      assert chunks[..i + 1] == chunks[..i] + [chunk];
      if chunk.web.Some? && Truthy(chunk.web.value.uri) && Truthy(chunk.web.value.title) {
        sources := sources + [Source(chunk.web.value.title.value, chunk.web.value.uri.value)];
      }
      i := i + 1;
    }
    assert chunks[..i] == chunks;
  }

  /** Every source comes from a grounded chunk, with that chunk's title and uri. */
  lemma {:induction false} SourcesAreGrounded(chunks: seq<Chunk>)
    ensures forall s :: s in GroundingSources(chunks) <==> exists c :: c in chunks && Grounded(c) && s == SourceOf(c)
  {
    if chunks != [] {
      SourcesAreGrounded(chunks[1..]);
      forall c | c in chunks
        ensures c == chunks[0] || c in chunks[1..]
      {
      }
    }
  }

  /**
   * At most one source per chunk: exactly one each when every chunk is grounded,
   * and none at all when no chunk is.
   */
  lemma {:induction false} SourcesCount(chunks: seq<Chunk>)
    ensures |GroundingSources(chunks)| <= |chunks|
    ensures |GroundingSources(chunks)| == |chunks| <==> forall i :: 0 <= i < |chunks| ==> Grounded(chunks[i])
    ensures GroundingSources(chunks) == [] <==> forall i :: 0 <= i < |chunks| ==> !Grounded(chunks[i])
  {
    if chunks != [] {
      SourcesCount(chunks[1..]);
      assert forall i :: 1 <= i < |chunks| ==> chunks[i] == chunks[1..][i - 1];
      if !Grounded(chunks[0]) {
        assert |GroundingSources(chunks)| < |chunks|;
      }
    }
  }

  /** A grounding reply: its text and, when grounding metadata is present, its chunks. */
  datatype ChatReply = ChatReply(text: Option<string>, groundingChunks: Option<seq<Chunk>>)

  /** What `chat.sendMessage` did: replied, or threw. */
  datatype ChatOutcome = Replied(reply: ChatReply) | ChatThrew(message: ErrorMessage)

  datatype ChatResponse = ChatResponse(text: string, sources: seq<Source>, isError: bool)

  /** `chatWithTutor` after the network call. */
  method ChatWithTutor(apiKey: string, outcome: ChatOutcome) returns (r: ChatResponse)
    ensures apiKey == "" ==> r == ChatResponse("I cannot reply without an API key.", [], true)
    ensures apiKey != "" && outcome.ChatThrew? ==> r == ChatResponse(HandleError(outcome.message).message, [], true)
    ensures apiKey != "" && outcome.Replied? ==>
      !r.isError && r.text == outcome.reply.text.GetOr("") &&
      r.sources == GroundingSources(outcome.reply.groundingChunks.GetOr([]))
  {
    if apiKey == "" {
      return ChatResponse("I cannot reply without an API key.", [], true);
    }
    match outcome
    case ChatThrew(m) =>
      var err := HandleError(m);
      r := ChatResponse(err.message, [], true);
    case Replied(reply) =>
      var sources: seq<Source> := [];
      if reply.groundingChunks.Some? {
        sources := CollectSources(reply.groundingChunks.value);
      }
      r := ChatResponse(reply.text.GetOr(""), sources, false);
  }
}
