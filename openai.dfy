/**
 * The backend's OpenAI service: the two chat-completion requests, the
 * cleaning of the classifier's reply (whitespace and Markdown fence
 * stripping), the clamp of the spam likelihood, and the defaulting of a
 * missing message content.
 *
 * The completion call is the parameter `upstream`; serde's decoding of the
 * struct is the parameter `decode`, except for the enum field, whose exact
 * variant-name matching is modelled.
 */
module OpenAiService {
  import opened Wrappers
  import opened Text

  // =====================================================================
  // str::trim_start_matches / str::trim_end_matches
  // =====================================================================

  /** Strips every leading copy of a non-empty pattern. */
  function TrimStartMatches(s: string, pat: string): (r: string)
    requires |pat| > 0
    ensures |r| <= |s|
    ensures !StartsWith(r, pat)
    decreases |s|
  {
    if StartsWith(s, pat) then TrimStartMatches(s[|pat|..], pat) else s
  }

  /** Strips every trailing copy of a non-empty pattern. */
  function TrimEndMatches(s: string, pat: string): (r: string)
    requires |pat| > 0
    ensures |r| <= |s|
    ensures !EndsWith(r, pat)
    decreases |s|
  {
    if EndsWith(s, pat) then TrimEndMatches(s[..|s| - |pat|], pat) else s
  }

  /** What is left is a suffix of the input. */
  lemma {:induction false} TrimStartMatchesIsSuffix(s: string, pat: string)
    requires |pat| > 0
    ensures var r := TrimStartMatches(s, pat); r == s[|s| - |r|..]
    decreases |s|
  {
    if StartsWith(s, pat) {
      var t := s[|pat|..];
      TrimStartMatchesIsSuffix(t, pat);
      var r := TrimStartMatches(t, pat);
      assert t[|t| - |r|..] == s[|s| - |r|..];
    }
  }

  /** What is left is a prefix of the input. */
  lemma {:induction false} TrimEndMatchesIsPrefix(s: string, pat: string)
    requires |pat| > 0
    ensures var r := TrimEndMatches(s, pat); r == s[..|r|]
    decreases |s|
  {
    if EndsWith(s, pat) {
      var t := s[..|s| - |pat|];
      TrimEndMatchesIsPrefix(t, pat);
      var r := TrimEndMatches(t, pat);
      assert t[..|r|] == s[..|r|];
    }
  }

  /** `pat` written `n` times. */
  function Repeat(pat: string, n: nat): string {
    if n == 0 then [] else pat + Repeat(pat, n - 1)
  }

  lemma {:induction false} RepeatSnoc(pat: string, n: nat)
    requires n > 0
    ensures Repeat(pat, n) == Repeat(pat, n - 1) + pat
  {
    if n > 1 {
      RepeatSnoc(pat, n - 1);
      assert Repeat(pat, n) == pat + (Repeat(pat, n - 2) + pat);
    }
  }

  lemma {:induction false} RepeatCons(pat: string, n: nat, s: string)
    requires n > 0
    ensures Repeat(pat, n) + s == pat + (Repeat(pat, n - 1) + s)
  {
    assert Repeat(pat, n) == pat + Repeat(pat, n - 1);
  }

  /** One leading copy is stripped and the stripping goes on. */
  lemma {:induction false} TrimStartMatchesStep(pat: string, u: string)
    requires |pat| > 0
    ensures TrimStartMatches(pat + u, pat) == TrimStartMatches(u, pat)
  {
    var t := pat + u;
    assert t[..|pat|] == pat;
    assert t[|pat|..] == u;
  }

  /** One trailing copy is stripped and the stripping goes on. */
  lemma {:induction false} TrimEndMatchesStep(u: string, pat: string)
    requires |pat| > 0
    ensures TrimEndMatches(u + pat, pat) == TrimEndMatches(u, pat)
  {
    var t := u + pat;
    assert t[|t| - |pat|..] == pat;
    assert t[..|t| - |pat|] == u;
  }

  /** Any number of leading copies are removed, not just one. */
  lemma {:induction false} TrimStartMatchesRepeat(pat: string, n: nat, s: string)
    requires |pat| > 0
    ensures TrimStartMatches(Repeat(pat, n) + s, pat) == TrimStartMatches(s, pat)
  {
    if n > 0 {
      var rest := Repeat(pat, n - 1) + s;
      calc {
        TrimStartMatches(Repeat(pat, n) + s, pat);
        == { RepeatCons(pat, n, s); }
        TrimStartMatches(pat + rest, pat);
        == { TrimStartMatchesStep(pat, rest); }
        TrimStartMatches(rest, pat);
        == { TrimStartMatchesRepeat(pat, n - 1, s); }
        TrimStartMatches(s, pat);
      }
    } else {
      assert Repeat(pat, n) + s == s;
    }
  }

  /** Any number of trailing copies are removed, not just one. */
  lemma {:induction false} TrimEndMatchesRepeat(s: string, pat: string, n: nat)
    requires |pat| > 0
    ensures TrimEndMatches(s + Repeat(pat, n), pat) == TrimEndMatches(s, pat)
  {
    if n > 0 {
      var rest := s + Repeat(pat, n - 1);
      calc {
        TrimEndMatches(s + Repeat(pat, n), pat);
        == { RepeatSnocAfter(s, pat, n); }
        TrimEndMatches(rest + pat, pat);
        == { TrimEndMatchesStep(rest, pat); }
        TrimEndMatches(rest, pat);
        == { TrimEndMatchesRepeat(s, pat, n - 1); }
        TrimEndMatches(s, pat);
      }
    } else {
      assert s + Repeat(pat, n) == s;
    }
  }

  lemma {:induction false} RepeatSnocAfter(s: string, pat: string, n: nat)
    requires n > 0
    ensures s + Repeat(pat, n) == (s + Repeat(pat, n - 1)) + pat
  {
    RepeatSnoc(pat, n);
  }

  // =====================================================================
  // The fence strip of analyze_intent
  // =====================================================================

  const JsonFence := "```json"
  const Fence := "```"

  /** `content.trim().trim_start_matches("```json").trim_end_matches("```").trim()`. */
  function StripFences(content: string): (r: string)
    ensures IsTrimmed(r)
  {
    Trim(TrimEndMatches(TrimStartMatches(Trim(content), JsonFence), Fence))
  }

  /** A reply with no fence and no surrounding whitespace is kept as it is. */
  lemma {:induction false} StripFencesUnfenced(content: string)
    requires IsTrimmed(content) && !StartsWith(content, JsonFence) && !EndsWith(content, Fence)
    ensures StripFences(content) == content
  {
    TrimOfTrimmed(content);
  }

  predicate IsSpaceOrTick(c: char) {
    IsSpace(c) || c == '`'
  }

  predicate AllSpaceOrTick(s: string) {
    forall i :: 0 <= i < |s| ==> IsSpaceOrTick(s[i])
  }

  /** After a fence is stripped, what follows does not start with another one:
      whitespace, then a body that does not, then whitespace and backticks. */
  lemma {:induction false} NoJsonFencePrefix(ws: string, body: string, tail: string)
    requires AllSpace(ws) && !StartsWith(body, JsonFence) && AllSpaceOrTick(tail)
    ensures !StartsWith(ws + body + tail, JsonFence)
  {
    var x := ws + body + tail;
    if |x| >= 7 {
      if ws != [] {
        assert x[0] == ws[0];
        assert x[..7][0] != JsonFence[0];
      } else if |body| >= 7 {
        assert x[..7] == body[..7];
      } else {
        var p := if |body| < 3 then 3 else |body|;
        assert x == body + tail;
        assert x[p] == tail[p - |body|];
        assert x[..7][p] != JsonFence[p];
      }
    }
  }

  /** After the closing fence is stripped, what remains does not end with another. */
  lemma {:induction false} NoFenceSuffix(ws1: string, body: string, ws2: string)
    requires AllSpace(ws1) && AllSpace(ws2) && !EndsWith(body, Fence)
    ensures !EndsWith(ws1 + body + ws2, Fence)
  {
    var x := ws1 + body + ws2;
    if |x| >= 3 {
      var n := |x|;
      if ws2 != [] {
        assert x[n - 1] == ws2[|ws2| - 1];
        assert x[n - 3..][2] != Fence[2];
      } else if |body| >= 3 {
        assert x == ws1 + body;
        assert x[n - 3..] == body[|body| - 3..];
      } else {
        assert x == ws1 + body;
        assert x[n - 3] == ws1[n - 3];
        assert x[n - 3..][0] != Fence[0];
      }
    }
  }

  /** A fenced reply, with any whitespace outside and inside the fences,
      yields exactly its body. */
  lemma {:induction false} StripFencesRecoversBody(ws0: string, ws1: string, body: string, ws2: string, ws3: string)
    requires AllSpace(ws0) && AllSpace(ws1) && AllSpace(ws2) && AllSpace(ws3)
    requires IsTrimmed(body) && !StartsWith(body, JsonFence) && !EndsWith(body, Fence)
    ensures StripFences(ws0 + JsonFence + (ws1 + body + ws2) + Fence + ws3) == body
  {
    var mid := ws1 + body + ws2;
    OuterTrim(ws0, mid, ws3);
    OpeningFenceGoes(ws1, body, ws2);
    ClosingFenceGoes(ws1, body, ws2);
    TrimSurrounded(ws1, body, ws2);
  }

  lemma {:induction false} OuterTrim(ws0: string, mid: string, ws3: string)
    requires AllSpace(ws0) && AllSpace(ws3)
    ensures Trim(ws0 + JsonFence + mid + Fence + ws3) == JsonFence + (mid + Fence)
  {
    var core := JsonFence + (mid + Fence);
    assert ws0 + JsonFence + mid + Fence + ws3 == ws0 + core + ws3;
    assert core[0] == '`' && core[|core| - 1] == '`';
    TrimSurrounded(ws0, core, ws3);
  }

  lemma {:induction false} OpeningFenceGoes(ws1: string, body: string, ws2: string)
    requires AllSpace(ws1) && AllSpace(ws2) && !StartsWith(body, JsonFence)
    ensures TrimStartMatches(JsonFence + (ws1 + body + ws2 + Fence), JsonFence) == ws1 + body + ws2 + Fence
  {
    TrimStartMatchesStep(JsonFence, ws1 + body + ws2 + Fence);
    AfterOpeningFence(ws1, body, ws2);
  }

  lemma {:induction false} ClosingFenceGoes(ws1: string, body: string, ws2: string)
    requires AllSpace(ws1) && AllSpace(ws2) && !EndsWith(body, Fence)
    ensures TrimEndMatches(ws1 + body + ws2 + Fence, Fence) == ws1 + body + ws2
  {
    TrimEndMatchesStep(ws1 + body + ws2, Fence);
    NoFenceSuffix(ws1, body, ws2);
  }

  lemma {:induction false} AfterOpeningFence(ws1: string, body: string, ws2: string)
    requires AllSpace(ws1) && AllSpace(ws2) && !StartsWith(body, JsonFence)
    ensures !StartsWith(ws1 + body + ws2 + Fence, JsonFence)
  {
    var tail := ws2 + Fence;
    assert forall i :: 0 <= i < |tail| ==> tail[i] == if i < |ws2| then ws2[i] else Fence[i - |ws2|];
    assert ws1 + body + ws2 + Fence == ws1 + body + tail;
    NoJsonFencePrefix(ws1, body, tail);
  }

  /** Repeated fences on either side are all removed. */
  lemma {:induction false} StripFencesRepeated(n: nat, body: string, m: nat)
    requires n > 0 && m > 0
    requires IsTrimmed(body) && !StartsWith(body, JsonFence) && !EndsWith(body, Fence)
    ensures StripFences(Repeat(JsonFence, n) + (body + Repeat(Fence, m))) == body
  {
    FencedIsTrimmed(n, body, m);
    OpeningFencesGo(n, body, m);
    ClosingFencesGo(body, m);
    TrimOfTrimmed(body);
  }

  lemma {:induction false} FencedIsTrimmed(n: nat, body: string, m: nat)
    requires n > 0 && m > 0
    ensures var s := Repeat(JsonFence, n) + (body + Repeat(Fence, m)); Trim(s) == s
  {
    var s := Repeat(JsonFence, n) + (body + Repeat(Fence, m));
    assert s[0] == '`' by {
      assert s == JsonFence + (Repeat(JsonFence, n - 1) + (body + Repeat(Fence, m)));
    }
    assert s[|s| - 1] == '`' by {
      RepeatSnoc(Fence, m);
      assert s == (Repeat(JsonFence, n) + body + Repeat(Fence, m - 1)) + Fence;
    }
    TrimOfTrimmed(s);
  }

  lemma {:induction false} OpeningFencesGo(n: nat, body: string, m: nat)
    requires !StartsWith(body, JsonFence)
    ensures TrimStartMatches(Repeat(JsonFence, n) + (body + Repeat(Fence, m)), JsonFence) == body + Repeat(Fence, m)
  {
    BodyThenFences(body, m);
    TrimStartMatchesRepeat(JsonFence, n, body + Repeat(Fence, m));
  }

  lemma {:induction false} BodyThenFences(body: string, m: nat)
    requires !StartsWith(body, JsonFence)
    ensures !StartsWith(body + Repeat(Fence, m), JsonFence)
  {
    var tail := Repeat(Fence, m);
    RepeatOfTicks(m);
    NoJsonFencePrefix([], body, tail);
    assert [] + body + tail == body + tail;
  }

  lemma {:induction false} ClosingFencesGo(body: string, m: nat)
    requires !EndsWith(body, Fence)
    ensures TrimEndMatches(body + Repeat(Fence, m), Fence) == body
  {
    TrimEndMatchesRepeat(body, Fence, m);
    NoFenceSuffix([], body, []);
    assert [] + body + [] == body;
  }

  lemma {:induction false} RepeatOfTicks(m: nat)
    ensures AllSpaceOrTick(Repeat(Fence, m))
  {
    if m > 0 {
      RepeatOfTicks(m - 1);
      var r := Repeat(Fence, m);
      assert r == Fence + Repeat(Fence, m - 1);
      assert forall i :: 3 <= i < |r| ==> r[i] == Repeat(Fence, m - 1)[i - 3];
    }
  }

  // =====================================================================
  // The parsed record and the clamp
  // =====================================================================

  datatype ActionRecommendation = Forward | TakeMessage | BlockCaller | OfferCallback {
    /** The variant name serde reads and writes. */
    function Name(): string {
      match this
      case Forward => "Forward"
      case TakeMessage => "TakeMessage"
      case BlockCaller => "BlockCaller"
      case OfferCallback => "OfferCallback"
    }
  }

  /** serde's unit-variant decoding: the exact variant name, nothing else. */
  function DecodeAction(name: string): (r: Option<ActionRecommendation>)
    ensures forall a: ActionRecommendation :: r == Some(a) <==> name == a.Name()
  {
    if name == "Forward" then Some(Forward)
    else if name == "TakeMessage" then Some(TakeMessage)
    else if name == "BlockCaller" then Some(BlockCaller)
    else if name == "OfferCallback" then Some(OfferCallback)
    else None
  }

  lemma {:induction false} DecodeActionRoundTrip(a: ActionRecommendation)
    ensures DecodeAction(a.Name()) == Some(a)
  {
  }

  /** `IntentAnalysisResponse`; the f32 fields are reals here. */
  datatype IntentAnalysisResponse = IntentAnalysisResponse(
    intent: string,
    confidence: real,
    spamLikelihood: real,
    sentiment: string,
    suggestedResponse: Option<string>,
    actionRecommendation: ActionRecommendation)

  /** The struct as serde reads it before the enum field is resolved. */
  datatype RawAnalysis = RawAnalysis(
    intent: string,
    confidence: real,
    spamLikelihood: real,
    sentiment: string,
    suggestedResponse: Option<string>,
    actionRecommendation: string)

  /** `serde_json::from_str`: the abstract decoder followed by the variant match. */
  function Decode(json: string, decode: string -> Option<RawAnalysis>): (r: Option<IntentAnalysisResponse>)
    ensures r.Some? <==> decode(json).Some? && DecodeAction(decode(json).value.actionRecommendation).Some?
  {
    match decode(json)
    case None => None
    case Some(raw) =>
      match DecodeAction(raw.actionRecommendation)
      case None => None
      case Some(action) =>
        Some(IntentAnalysisResponse(raw.intent, raw.confidence, raw.spamLikelihood,
                                    raw.sentiment, raw.suggestedResponse, action))
  }

  /** `f32::clamp(0.0, 1.0)` over the reals. */
  function Clamp01(x: real): (r: real)
    ensures 0.0 <= r <= 1.0
    ensures 0.0 <= x <= 1.0 ==> r == x
    ensures x < 0.0 ==> r == 0.0
    ensures x > 1.0 ==> r == 1.0
  {
    if x < 0.0 then 0.0 else if x > 1.0 then 1.0 else x
  }

  // =====================================================================
  // The requests and the two entry points
  // =====================================================================

  datatype ChatMessage = ChatMessage(role: string, content: string)

  datatype ChatRequest = ChatRequest(
    model: string,
    messages: seq<ChatMessage>,
    temperature: real,
    maxTokens: Option<nat>)

  /** A failed call, or `choices[0].message.content`, which may be missing. */
  datatype ChatReply = RequestFailed | Completion(content: Option<string>)

  datatype ServiceError = ApiError | ParseError

  // The system prompt, in four pieces (a single long literal is costly to verify).
  const AnalysisSystemPrompt := AnalysisRole + AnalysisFormat + AnalysisFields + AnalysisActions
  const AnalysisRole := "You are an AI assistant that analyzes call transcripts to detect intent, "
  const AnalysisFormat := "spam likelihood, and recommend actions. Format your response as JSON with the "
  const AnalysisFields := "following fields: intent, confidence, spam_likelihood, sentiment, suggested_response, "
  const AnalysisActions := "and action_recommendation (one of: Forward, TakeMessage, BlockCaller, OfferCallback)."

  const AnalysisPromptHead := "Analyze the following call transcript and provide the analysis in JSON format: \""

  function AnalysisRequest(transcript: string): ChatRequest {
    ChatRequest(
      "gpt-4o",
      [ChatMessage("system", AnalysisSystemPrompt),
       ChatMessage("user", AnalysisPromptHead + transcript + "\"")],
      0.0,
      None)
  }

  const ResponseSystemPrompt :=
    "You are an AI voice assistant for call screening. Respond in a natural, "
    + "conversational way. Keep responses brief (1-2 sentences), clear, and professional."

  function ResponseRequest(prompt: string): ChatRequest {
    ChatRequest(
      "gpt-4o",
      [ChatMessage("system", ResponseSystemPrompt), ChatMessage("user", prompt)],
      0.7,
      Some(100))
  }

  /** `unwrap_or_default`: missing content is the empty string. */
  function ContentOrDefault(content: Option<string>): (r: string)
    ensures content.None? ==> r == []
    ensures content.Some? ==> r == content.value
  {
    content.GetOr([])
  }

  /** The text handed to serde: the content, or empty, cleaned of fences. */
  function ReplyJson(content: Option<string>): (r: string)
    ensures IsTrimmed(r)
  {
    StripFences(ContentOrDefault(content))
  }

  /** `r` is `a` with its spam likelihood clamped: the nearer bound of [0, 1]
      when out of range, unchanged when already in range, and every other
      field as decoded. */
  predicate ClampedFrom(r: IntentAnalysisResponse, a: IntentAnalysisResponse) {
    && r.spamLikelihood == Clamp01(a.spamLikelihood)
    && 0.0 <= r.spamLikelihood <= 1.0
    && (0.0 <= a.spamLikelihood <= 1.0 ==> r.spamLikelihood == a.spamLikelihood)
    && r == a.(spamLikelihood := r.spamLikelihood)
  }

  /** Clamping the one field gives a record related to the decoded one by
      `ClampedFrom`. */
  lemma {:induction false} ClampInPlace(a: IntentAnalysisResponse)
    ensures ClampedFrom(a.(spamLikelihood := Clamp01(a.spamLikelihood)), a)
  {
  }

  /** The second half of analyze_intent: the reply is cleaned, decoded, and
      its spam likelihood clamped in place. */
  method ParseAnalysisReply(reply: ChatReply, decode: string -> Option<RawAnalysis>)
    returns (r: Result<IntentAnalysisResponse, ServiceError>)
    ensures match reply
            case RequestFailed => r == Failure(ApiError)
            case Completion(content) =>
              var decoded := Decode(ReplyJson(content), decode);
              && (decoded.None? ==> r == Failure(ParseError))
              && (decoded.Some? ==> r.Success? && ClampedFrom(r.value, decoded.value))
  {
    if reply.RequestFailed? {
      return Failure(ApiError);
    }
    var jsonStr := ReplyJson(reply.content);
    var decoded := Decode(jsonStr, decode);
    if decoded.None? {
      return Failure(ParseError);
    }
    var analysis := decoded.value;
    analysis := analysis.(spamLikelihood := Clamp01(analysis.spamLikelihood));
    ClampInPlace(decoded.value);
    return Success(analysis);
  }

  /** analyze_intent: the classification request is sent and its reply
      parsed as above. */
  method AnalyzeIntent(transcript: string, upstream: ChatRequest -> ChatReply,
                       decode: string -> Option<RawAnalysis>)
    returns (r: Result<IntentAnalysisResponse, ServiceError>)
    ensures match upstream(AnalysisRequest(transcript))
            case RequestFailed => r == Failure(ApiError)
            case Completion(content) =>
              var decoded := Decode(ReplyJson(content), decode);
              && (decoded.None? ==> r == Failure(ParseError))
              && (decoded.Some? ==> r.Success? && ClampedFrom(r.value, decoded.value))
  {
    var reply := upstream(AnalysisRequest(transcript));
    r := ParseAnalysisReply(reply, decode);
  }

  /** generate_response: the content as sent, or empty when missing; unlike
      the TypeScript client, it is not trimmed. */
  function GenerateResponse(prompt: string, upstream: ChatRequest -> ChatReply): (r: Result<string, ServiceError>)
    ensures upstream(ResponseRequest(prompt)).RequestFailed? <==> r == Failure(ApiError)
    ensures upstream(ResponseRequest(prompt)) == Completion(None) ==> r == Success([])
    ensures forall c :: upstream(ResponseRequest(prompt)) == Completion(Some(c)) ==> r == Success(c)
  {
    match upstream(ResponseRequest(prompt))
    case RequestFailed => Failure(ApiError)
    case Completion(content) => Success(ContentOrDefault(content))
  }

  /** Both requests go to gpt-4o; classification at temperature 0 with no
      token cap, reply generation at 0.7 with at most 100 tokens. */
  lemma {:induction false} RequestParameters(transcript: string, prompt: string)
    ensures var a, g := AnalysisRequest(transcript), ResponseRequest(prompt);
            && a.model == "gpt-4o" && a.temperature == 0.0 && a.maxTokens == None
            && g.model == "gpt-4o" && g.temperature == 0.7 && g.maxTokens == Some(100)
            && g.messages[1] == ChatMessage("user", prompt)
            && a.messages == [ChatMessage("system", AnalysisSystemPrompt),
                              ChatMessage("user", AnalysisPromptHead + transcript + "\"")]
            && g.messages[0] == ChatMessage("system", ResponseSystemPrompt)
  {
  }
}
