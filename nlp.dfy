/**
 * The intent classifier of the voice package: configuration merge and
 * provider dispatch, the chat-completion request it sends, and everything
 * it does to the language model's reply (JSON-span extraction, required
 * field validation, action normalisation), plus free-text reply generation.
 *
 * The HTTP call is the parameter `upstream` and `JSON.parse` is the
 * parameter `parse`; both are abstract.
 */
module Nlp {
  import opened Wrappers
  import opened Text
  import opened Partial

  // =====================================================================
  // Configuration
  // =====================================================================

  const OpenAi := "openai"
  const HuggingFace := "huggingface"

  /** `NLPConfig` after the spread merge; `None` is `undefined`. */
  datatype NlpConfig = NlpConfig(
    provider: Option<string>,
    apiKey: Option<string>,
    model: Option<string>,
    temperature: Option<real>)

  /** The caller's `Partial<NLPConfig>`. */
  datatype NlpOverrides = NlpOverrides(
    provider: Field<string>,
    apiKey: Field<string>,
    model: Field<string>,
    temperature: Field<real>)

  /** The default argument `config = {}`. */
  const NoOverrides := NlpOverrides(Absent, Absent, Absent, Absent)

  /** `defaultConfig`: OpenAI, gpt-4o, temperature 0, no key. */
  const DefaultConfig := NlpConfig(Some(OpenAi), None, Some("gpt-4o"), Some(0.0))

  /** `{ ...defaultConfig, ...config }`: the caller's keys win field by field. */
  function MergeConfig(o: NlpOverrides): (c: NlpConfig)
    ensures o.provider.Given? ==> c.provider == Some(o.provider.value)
    ensures o.apiKey.Given? ==> c.apiKey == Some(o.apiKey.value)
    ensures o.model.Given? ==> c.model == Some(o.model.value)
    ensures o.temperature.Given? ==> c.temperature == Some(o.temperature.value)
    ensures o.provider.Absent? ==> c.provider == Some(OpenAi)
    ensures o.apiKey.Absent? ==> c.apiKey == None
    ensures o.model.Absent? ==> c.model == Some("gpt-4o")
    ensures o.temperature.Absent? ==> c.temperature == Some(0.0)
    ensures o.provider.Undefined? ==> c.provider == None
    ensures o.apiKey.Undefined? ==> c.apiKey == None
    ensures o.model.Undefined? ==> c.model == None
    ensures o.temperature.Undefined? ==> c.temperature == None
  {
    NlpConfig(
      Spread(DefaultConfig.provider, o.provider),
      Spread(DefaultConfig.apiKey, o.apiKey),
      Spread(DefaultConfig.model, o.model),
      Spread(DefaultConfig.temperature, o.temperature))
  }

  lemma {:induction false} MergeNoOverrides()
    ensures MergeConfig(NoOverrides) == DefaultConfig
  {
  }

  // =====================================================================
  // Results, errors, the upstream exchange
  // =====================================================================

  datatype ActionRecommendation = Forward | TakeMessage | BlockCaller | OfferCallback {
    /** The enum's string value. */
    function Value(): string {
      match this
      case Forward => "forward"
      case TakeMessage => "take_message"
      case BlockCaller => "block_caller"
      case OfferCallback => "offer_callback"
    }
  }

  /** A JSON value as `JSON.parse` returns it (numbers as reals, no NaN). */
  datatype Json =
    | JNull
    | JBool(b: bool)
    | JNumber(n: real)
    | JString(s: string)
    | JArray(items: seq<Json>)
    | JObject(fields: map<string, Json>)

  /** `IntentAnalysisResult`. The copied fields keep whatever JSON value the
      model sent: the source casts, it does not convert. */
  datatype IntentAnalysisResult = IntentAnalysisResult(
    intent: Json,
    confidence: real,
    spamLikelihood: real,
    sentiment: Json,
    suggestedResponse: Option<Json>,
    actionRecommendation: ActionRecommendation)

  datatype NlpError =
    | NotImplemented          // 'HuggingFace NLP not implemented yet'
    | UnsupportedProvider(provider: Option<string>)
    | MissingApiKey           // 'OpenAI API key is required'
    | ApiError                // an axios error: network failure or non-2xx
    | InvalidJson             // JSON.parse threw
    | InvalidResponseFormat   // 'Invalid response format from OpenAI'
    | TypeError               // a property read on null, or toLowerCase on a non-string

  datatype ChatMessage = ChatMessage(role: string, content: string)

  /** The body posted to the chat-completions endpoint. */
  datatype ChatRequest = ChatRequest(
    model: string,
    messages: seq<ChatMessage>,
    temperature: real,
    maxTokens: Option<nat>)

  /** What comes back: an axios error, or `choices[0].message.content`. */
  datatype ChatReply = RequestFailed | Completion(content: string)

  // =====================================================================
  // mapActionRecommendation
  // =====================================================================

  function MapActionRecommendation(action: string): ActionRecommendation {
    var a := ToLower(action);
    if a == "forward" then Forward
    else if a == "take_message" then TakeMessage
    else if a == "block_caller" then BlockCaller
    else if a == "offer_callback" then OfferCallback
    else TakeMessage
  }

  lemma {:induction false} ValuesAreLowerCase(a: ActionRecommendation)
    ensures ToLower(a.Value()) == a.Value()
  {
    ToLowerOfNoUpper(a.Value());
  }

  /** A string equal to a canonical value ignoring case maps to that value;
      any other string maps to TakeMessage. */
  lemma {:induction false} MapActionRecommendationSpec(action: string)
    ensures forall a: ActionRecommendation :: ToLower(action) == a.Value() ==> MapActionRecommendation(action) == a
    ensures (forall a: ActionRecommendation :: ToLower(action) != a.Value()) ==> MapActionRecommendation(action) == TakeMessage
  {
    if forall a: ActionRecommendation :: ToLower(action) != a.Value() {
      assert ToLower(action) != Forward.Value() && ToLower(action) != BlockCaller.Value();
      assert ToLower(action) != OfferCallback.Value();
    }
  }

  /** The canonical strings map to themselves; hence mapping is idempotent. */
  lemma {:induction false} MapActionRecommendationCanonical(a: ActionRecommendation)
    ensures MapActionRecommendation(a.Value()) == a
  {
    ValuesAreLowerCase(a);
  }

  lemma {:induction false} MapActionRecommendationIdempotent(action: string)
    ensures var a := MapActionRecommendation(action);
            MapActionRecommendation(a.Value()) == a
  {
    MapActionRecommendationCanonical(MapActionRecommendation(action));
  }

  /** Only the lower-cased string matters. */
  lemma {:induction false} MapActionRecommendationIgnoresCase(action: string)
    ensures MapActionRecommendation(ToLower(action)) == MapActionRecommendation(action)
  {
    ToLowerIdempotent(action);
  }

  // =====================================================================
  // The reply: JSON span, validation, result
  // =====================================================================

  /** `content.substring(content.indexOf('{'), content.lastIndexOf('}') + 1)`. */
  function ExtractJsonSpan(content: string): string {
    JsSubstring(content, IndexOf(content, '{'), LastIndexOf(content, '}') + 1)
  }

  /** The span from the first `{` through the last `}`, when that `{` does not
      come after that `}`; otherwise `substring`'s clamping and swapping. */
  lemma {:induction false} ExtractJsonSpanCases(content: string)
    ensures var i, j, r := IndexOf(content, '{'), LastIndexOf(content, '}'), ExtractJsonSpan(content);
            && (0 <= i <= j ==>
                  && r == content[i..j + 1] && r[0] == '{' && r[|r| - 1] == '}'
                  && '{' !in content[..i] && '}' !in content[j + 1..])
            && (i < 0 && j < 0 ==> r == [])
            && (i >= 0 && j < 0 ==> r == content[..i])
            && (i < 0 && j >= 0 ==> r == content[..j + 1])
            && (0 <= j < i ==> r == content[j + 1..i])
  {
    var i, j := IndexOf(content, '{'), LastIndexOf(content, '}');
    if 0 <= i <= j {
      assert forall k :: 0 <= k < i ==> content[..i][k] == content[k];
      var tail := content[j + 1..];
      assert forall k :: 0 <= k < |tail| ==> tail[k] == content[j + 1 + k];
    }
  }

  /** Prose before and after the embedded object is dropped. */
  lemma {:induction false} ExtractJsonSpanDropsProse(before: string, obj: string, after: string)
    requires '{' !in before && '}' !in after
    requires |obj| >= 1 && obj[0] == '{' && obj[|obj| - 1] == '}'
    ensures ExtractJsonSpan(before + obj + after) == obj
  {
    var s := before + obj + after;
    assert s == before + (obj + after);
    IndexOfAfterPrefix(before, obj + after, '{');
    assert s == (before + obj) + after;
    LastIndexOfBeforeSuffix(before + obj, after, '}');
    assert s[|before|..|before + obj|] == obj;
  }

  /** A property read `result[key]` on a non-null value: `undefined` unless
      the value is an object with that key. */
  function Get(v: Json, key: string): Option<Json> {
    if v.JObject? && key in v.fields then Some(v.fields[key]) else None
  }

  /** JavaScript truthiness of a property read. */
  predicate Truthy(x: Option<Json>) {
    match x
    case None => false
    case Some(JNull) => false
    case Some(JBool(b)) => b
    case Some(JNumber(n)) => n != 0.0
    case Some(JString(s)) => s != ""
    case Some(_) => true
  }

  /** `typeof x === 'number'`. */
  predicate IsNumber(x: Option<Json>) {
    x.Some? && x.value.JNumber?
  }

  /** The negation of the rejection test on lines 131-133. */
  predicate HasRequiredFields(v: Json) {
    && Truthy(Get(v, "intent"))
    && IsNumber(Get(v, "confidence"))
    && IsNumber(Get(v, "spamLikelihood"))
    && Truthy(Get(v, "sentiment"))
    && Truthy(Get(v, "actionRecommendation"))
  }

  /** Validation of the parsed reply and construction of the result. */
  function ValidateAnalysis(v: Json): (r: Result<IntentAnalysisResult, NlpError>)
    // reading a property of null throws before the test is made
    ensures v.JNull? ==> r == Failure(TypeError)
    // rejected exactly when a required field is missing or falsy
    ensures !v.JNull? && !HasRequiredFields(v) ==> r == Failure(InvalidResponseFormat)
    // a truthy action that is not a string has no toLowerCase
    ensures (!v.JNull? && HasRequiredFields(v) && !Get(v, "actionRecommendation").value.JString?)
              ==> r == Failure(TypeError)
    // accepted: fields copied unchanged, no range clamping, action normalised
    ensures r.Success? ==>
              && !v.JNull? && HasRequiredFields(v)
              && r.value.intent == Get(v, "intent").value
              && r.value.confidence == Get(v, "confidence").value.n
              && r.value.spamLikelihood == Get(v, "spamLikelihood").value.n
              && r.value.sentiment == Get(v, "sentiment").value
              && r.value.suggestedResponse == Get(v, "suggestedResponse")
              && r.value.actionRecommendation
                   == MapActionRecommendation(Get(v, "actionRecommendation").value.s)
  {
    if v.JNull? then Failure(TypeError)
    else if !HasRequiredFields(v) then Failure(InvalidResponseFormat)
    else
      match Get(v, "actionRecommendation").value
      case JString(action) =>
        Success(IntentAnalysisResult(
          Get(v, "intent").value,
          Get(v, "confidence").value.n,
          Get(v, "spamLikelihood").value.n,
          Get(v, "sentiment").value,
          Get(v, "suggestedResponse"),
          MapActionRecommendation(action)))
      case _ => Failure(TypeError)
  }

  /** A reply is accepted exactly when it has the required fields and a string action. */
  lemma {:induction false} ValidateAnalysisAccepts(v: Json)
    ensures ValidateAnalysis(v).Success?
        <==> !v.JNull? && HasRequiredFields(v) && Get(v, "actionRecommendation").value.JString?
  {
  }

  /** The reply text is cut to its JSON span, parsed, then validated. */
  function InterpretReply(content: string, parse: string -> Option<Json>): Result<IntentAnalysisResult, NlpError> {
    match parse(ExtractJsonSpan(content))
    case None => Failure(InvalidJson)
    case Some(v) => ValidateAnalysis(v)
  }

  // =====================================================================
  // analyzeIntent
  // =====================================================================

  const AnalysisSystemPrompt :=
    "You are an AI assistant that analyzes call transcripts to detect intent, spam likelihood, and recommend actions."

  /** The user prompt: a fixed template with the transcript quoted in it. */
  function AnalysisPrompt(transcript: string): string {
    AnalysisPromptHead + transcript + AnalysisPromptTail
  }

  const AnalysisPromptHead :=
    "\n    Analyze the following call transcript to detect intent, spam likelihood, and recommend actions."
    + "\n    Format your response as a JSON object with the following fields:"
    + "\n    - intent: A short description of the caller's intent"
    + "\n    - confidence: A number between 0 and 1 indicating confidence in the intent detection"
    + "\n    - spamLikelihood: A number between 0 and 1 indicating how likely this is a spam call"
    + "\n    - sentiment: One of \"positive\", \"neutral\", or \"negative\""
    + "\n    - suggestedResponse: A brief response suggestion for the recipient"
    + "\n    - actionRecommendation: One of \"forward\", \"take_message\", \"block_caller\", or \"offer_callback\""
    + "\n\n    Transcript: \""

  const AnalysisPromptTail := "\"\n  "

  /** The request built for classification: `model || 'gpt-4o'` (an empty
      model falls back), `temperature ?? 0` (an explicit 0 is kept). */
  function AnalysisRequest(transcript: string, config: NlpConfig): (req: ChatRequest)
    ensures req.model == if TruthyString(config.model) then config.model.value else "gpt-4o"
    ensures req.temperature == if config.temperature.Some? then config.temperature.value else 0.0
    ensures req.maxTokens == None
    ensures req.messages == [ChatMessage("system", AnalysisSystemPrompt),
                             ChatMessage("user", AnalysisPrompt(transcript))]
  {
    ChatRequest(
      OrString(config.model, DefaultConfig.model.value),
      [ChatMessage("system", AnalysisSystemPrompt), ChatMessage("user", AnalysisPrompt(transcript))],
      config.temperature.GetOr(DefaultConfig.temperature.value),
      None)
  }

  function AnalyzeIntentWithOpenAi(transcript: string, config: NlpConfig,
                                   upstream: ChatRequest -> ChatReply,
                                   parse: string -> Option<Json>): Result<IntentAnalysisResult, NlpError>
  {
    if !TruthyString(config.apiKey) then Failure(MissingApiKey)
    else
      match upstream(AnalysisRequest(transcript, config))
      case RequestFailed => Failure(ApiError)
      case Completion(content) => InterpretReply(content, parse)
  }

  function AnalyzeIntent(transcript: string, overrides: NlpOverrides,
                         upstream: ChatRequest -> ChatReply,
                         parse: string -> Option<Json>): (r: Result<IntentAnalysisResult, NlpError>)
    ensures var c := MergeConfig(overrides);
            && (c.provider == Some(HuggingFace) ==> r == Failure(NotImplemented))
            && ((c.provider != Some(OpenAi) && c.provider != Some(HuggingFace))
                  ==> r == Failure(UnsupportedProvider(c.provider)))
            // no request is made without a key: the result does not depend on upstream
            && (c.provider == Some(OpenAi) && !TruthyString(c.apiKey) ==> r == Failure(MissingApiKey))
            && (c.provider == Some(OpenAi) && TruthyString(c.apiKey) ==>
                  match upstream(AnalysisRequest(transcript, c))
                  case RequestFailed => r == Failure(ApiError)
                  case Completion(content) => r == InterpretReply(content, parse))
  {
    var config := MergeConfig(overrides);
    if config.provider == Some(OpenAi) then AnalyzeIntentWithOpenAi(transcript, config, upstream, parse)
    else if config.provider == Some(HuggingFace) then Failure(NotImplemented)
    else Failure(UnsupportedProvider(config.provider))
  }

  /** Interpreting a reply only looks at the object inside it. */
  lemma {:induction false} InterpretReplyDropsProse(before: string, obj: string, after: string,
                                                    parse: string -> Option<Json>)
    requires '{' !in before && '}' !in after
    requires |obj| >= 1 && obj[0] == '{' && obj[|obj| - 1] == '}'
    ensures InterpretReply(before + obj + after, parse) == InterpretReply(obj, parse)
  {
    ExtractJsonSpanDropsProse(before, obj, after);
    ExtractJsonSpanOfObject(obj);
  }

  /** A reply that is just the object is kept whole. */
  lemma {:induction false} ExtractJsonSpanOfObject(obj: string)
    requires |obj| >= 1 && obj[0] == '{' && obj[|obj| - 1] == '}'
    ensures ExtractJsonSpan(obj) == obj
  {
    assert IndexOf(obj, '{') == 0;
    assert LastIndexOf(obj, '}') == |obj| - 1;
    assert obj[0..|obj|] == obj;
  }

  /** Whatever the model wraps around a well-formed object, the verdict is the
      one parsed from the object alone; the action is always canonical. */
  lemma {:induction false} AnalyzeIntentEmbeddedObject(
    transcript: string, overrides: NlpOverrides, upstream: ChatRequest -> ChatReply,
    parse: string -> Option<Json>, before: string, obj: string, after: string)
    requires var c := MergeConfig(overrides);
             c.provider == Some(OpenAi) && TruthyString(c.apiKey)
             && upstream(AnalysisRequest(transcript, c)) == Completion(before + obj + after)
    requires '{' !in before && '}' !in after
    requires |obj| >= 1 && obj[0] == '{' && obj[|obj| - 1] == '}'
    ensures var r := AnalyzeIntent(transcript, overrides, upstream, parse);
            && r == InterpretReply(obj, parse)
            && (r.Success? ==> MapActionRecommendation(r.value.actionRecommendation.Value())
                                 == r.value.actionRecommendation)
  {
    InterpretReplyDropsProse(before, obj, after, parse);
    var r := AnalyzeIntent(transcript, overrides, upstream, parse);
    if r.Success? {
      MapActionRecommendationCanonical(r.value.actionRecommendation);
    }
  }

  /** A business inquiry recommending a callback, as the model might send
      it wrapped in prose. */
  const BusinessInquiryPayload := JObject(map[
    "intent" := JString("Business inquiry"),
    "confidence" := JNumber(0.82),
    "spamLikelihood" := JNumber(0.05),
    "sentiment" := JString("neutral"),
    "actionRecommendation" := JString("offer_callback")])

  lemma {:induction false} BusinessInquiryExample(parse: string -> Option<Json>, obj: string)
    requires |obj| >= 1 && obj[0] == '{' && obj[|obj| - 1] == '}'
    requires parse(obj) == Some(BusinessInquiryPayload)
    ensures InterpretReply("Sure! " + obj + " Hope that helps.", parse)
         == Success(IntentAnalysisResult(
              JString("Business inquiry"), 0.82, 0.05, JString("neutral"), None, OfferCallback))
  {
    ExtractJsonSpanDropsProse("Sure! ", obj, " Hope that helps.");
    BusinessInquiryAccepted();
  }

  lemma {:induction false} BusinessInquiryAccepted()
    ensures ValidateAnalysis(BusinessInquiryPayload)
         == Success(IntentAnalysisResult(
              JString("Business inquiry"), 0.82, 0.05, JString("neutral"), None, OfferCallback))
  {
    MapActionRecommendationCanonical(OfferCallback);
  }

  /** Scores outside [0, 1] are passed through: nothing bounds them. */
  lemma {:induction false} ScoresNotClamped(confidence: real, spamLikelihood: real)
    ensures var v := JObject(map[
              "intent" := JString("x"), "confidence" := JNumber(confidence),
              "spamLikelihood" := JNumber(spamLikelihood), "sentiment" := JString("neutral"),
              "actionRecommendation" := JString("FORWARD")]);
            ValidateAnalysis(v) == Success(IntentAnalysisResult(
              JString("x"), confidence, spamLikelihood, JString("neutral"), None, Forward))
  {
    assert ToLower("FORWARD") == "forward";
  }

  // =====================================================================
  // generateResponse
  // =====================================================================

  const ResponseSystemPrompt :=
    "You are a helpful, friendly voice assistant for call screening. "
    + "Keep responses brief (1-2 sentences), clear, and professional."

  /** `{ ...defaultConfig, ...config, temperature: config.temperature ?? 0.7,
      model: config.model ?? 'gpt-4o' }`. */
  function ResponseConfig(o: NlpOverrides): (c: NlpConfig)
    ensures c.temperature == Some(if o.temperature.Given? then o.temperature.value else 0.7)
    ensures c.model == Some(if o.model.Given? then o.model.value else "gpt-4o")
    ensures c.apiKey == MergeConfig(o).apiKey && c.provider == MergeConfig(o).provider
  {
    MergeConfig(o).(temperature := Some(Nullish(o.temperature, 0.7)),
                    model := Some(Nullish(o.model, "gpt-4o")))
  }

  function ResponseRequest(prompt: string, config: NlpConfig): ChatRequest
    requires config.model.Some? && config.temperature.Some?
  {
    ChatRequest(
      config.model.value,
      [ChatMessage("system", ResponseSystemPrompt), ChatMessage("user", prompt)],
      config.temperature.value,
      Some(100))
  }

  /** The provider is never consulted; only the key is checked. */
  function GenerateResponse(prompt: string, overrides: NlpOverrides,
                            upstream: ChatRequest -> ChatReply): (r: Result<string, NlpError>)
    ensures !TruthyString(MergeConfig(overrides).apiKey) ==> r == Failure(MissingApiKey)
    ensures r.Success? ==> IsTrimmed(r.value)
  {
    var config := ResponseConfig(overrides);
    if !TruthyString(config.apiKey) then Failure(MissingApiKey)
    else
      match upstream(ResponseRequest(prompt, config))
      case RequestFailed => Failure(ApiError)
      case Completion(content) => Success(Trim(content))
  }

  /** The request sent for a reply: the caller's temperature unless absent or
      undefined (an explicit 0 is kept), else 0.7; the caller's model unless
      absent or undefined (an empty model is kept), else gpt-4o; at most 100
      tokens; the prompt verbatim. The reply is trimmed text. */
  lemma {:induction false} GenerateResponseRequest(prompt: string, overrides: NlpOverrides,
                                                   upstream: ChatRequest -> ChatReply)
    requires TruthyString(MergeConfig(overrides).apiKey)
    ensures var req := ResponseRequest(prompt, ResponseConfig(overrides));
            && req.temperature == (if overrides.temperature.Given? then overrides.temperature.value else 0.7)
            && req.model == (if overrides.model.Given? then overrides.model.value else "gpt-4o")
            && req.maxTokens == Some(100)
            && req.messages[1] == ChatMessage("user", prompt)
            && GenerateResponse(prompt, overrides, upstream)
               == match upstream(req)
                  case RequestFailed => Failure(ApiError)
                  case Completion(content) => Success(Trim(content))
  {
  }

  lemma {:induction false} GenerateResponseIgnoresProvider(prompt: string, overrides: NlpOverrides,
                                                           provider: Field<string>,
                                                           upstream: ChatRequest -> ChatReply)
    ensures GenerateResponse(prompt, overrides.(provider := provider), upstream)
         == GenerateResponse(prompt, overrides, upstream)
  {
    assert ResponseConfig(overrides.(provider := provider)).(provider := None)
        == ResponseConfig(overrides).(provider := None);
  }

  /** `||` against `??`: an empty model is replaced for classification but
      sent as it is for reply generation; an explicit temperature of 0 is kept
      by both. */
  lemma {:induction false} EmptyModelAndZeroTemperature(transcript: string, prompt: string, key: string)
    requires key != ""
    ensures var o := NlpOverrides(Absent, Given(key), Given(""), Given(0.0));
            && AnalysisRequest(transcript, MergeConfig(o)).model == "gpt-4o"
            && ResponseRequest(prompt, ResponseConfig(o)).model == ""
            && AnalysisRequest(transcript, MergeConfig(o)).temperature == 0.0
            && ResponseRequest(prompt, ResponseConfig(o)).temperature == 0.0
  {
  }
}
