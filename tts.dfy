/**
 * The text-to-speech client of the voice package: configuration merge,
 * provider dispatch, and the ElevenLabs request with its `||` fallbacks.
 * The POST is the parameter `upstream`.
 */
module Tts {
  import opened Wrappers
  import opened Partial

  type byte = bv8

  const ElevenLabs := "elevenlabs"
  const AwsPolly := "aws_polly"

  /** The default voice ("Rachel"). */
  const RachelVoiceId := "EXAVITQu4vr4xnSDxMaL"

  const SpeechEndpoint := "https://api.elevenlabs.io/v1/text-to-speech/"

  const SpeechModel := "eleven_monolingual_v1"

  /** `VoiceConfig` after the spread merge; `None` is `undefined`. */
  datatype VoiceConfig = VoiceConfig(
    provider: Option<string>,
    voiceId: Option<string>,
    apiKey: Option<string>,
    stability: Option<real>,
    similarityBoost: Option<real>)

  /** The caller's `Partial<VoiceConfig>`. */
  datatype VoiceOverrides = VoiceOverrides(
    provider: Field<string>,
    voiceId: Field<string>,
    apiKey: Field<string>,
    stability: Field<real>,
    similarityBoost: Field<real>)

  /** `defaultConfig`: ElevenLabs, Rachel, both settings 0.5, no key. */
  const DefaultConfig := VoiceConfig(Some(ElevenLabs), Some(RachelVoiceId), None, Some(0.5), Some(0.5))

  /** `{ ...defaultConfig, ...config }`. */
  function MergeConfig(o: VoiceOverrides): (c: VoiceConfig)
    ensures o.provider.Given? ==> c.provider == Some(o.provider.value)
    ensures o.voiceId.Given? ==> c.voiceId == Some(o.voiceId.value)
    ensures o.apiKey.Given? ==> c.apiKey == Some(o.apiKey.value)
    ensures o.stability.Given? ==> c.stability == Some(o.stability.value)
    ensures o.similarityBoost.Given? ==> c.similarityBoost == Some(o.similarityBoost.value)
    ensures o.provider.Absent? ==> c.provider == Some(ElevenLabs)
    ensures o.voiceId.Absent? ==> c.voiceId == Some(RachelVoiceId)
    ensures o.apiKey.Absent? ==> c.apiKey == None
    ensures o.stability.Absent? ==> c.stability == Some(0.5)
    ensures o.similarityBoost.Absent? ==> c.similarityBoost == Some(0.5)
    ensures o.provider.Undefined? ==> c.provider == None
    ensures o.voiceId.Undefined? ==> c.voiceId == None
    ensures o.apiKey.Undefined? ==> c.apiKey == None
    ensures o.stability.Undefined? ==> c.stability == None
    ensures o.similarityBoost.Undefined? ==> c.similarityBoost == None
  {
    VoiceConfig(
      Spread(DefaultConfig.provider, o.provider),
      Spread(DefaultConfig.voiceId, o.voiceId),
      Spread(DefaultConfig.apiKey, o.apiKey),
      Spread(DefaultConfig.stability, o.stability),
      Spread(DefaultConfig.similarityBoost, o.similarityBoost))
  }

  datatype VoiceSettings = VoiceSettings(stability: real, similarityBoost: real)

  /** The POST: its URL and its JSON body. */
  datatype SpeechRequest = SpeechRequest(url: string, text: string, modelId: string, voiceSettings: VoiceSettings)

  /** An axios error, or the response bytes. */
  datatype SpeechReply = RequestFailed | Audio(data: seq<byte>)

  datatype TtsError =
    | NotImplemented          // 'AWS Polly not implemented yet'
    | UnsupportedProvider(provider: Option<string>)
    | MissingApiKey           // 'ElevenLabs API key is required'
    | ApiError

  /** The request of `generateElevenLabsSpeech`. Every fallback is `||`: an
      empty voice id, and a stability or similarity boost of 0, count as
      missing. */
  function SpeechRequestFor(text: string, config: VoiceConfig): (req: SpeechRequest)
    ensures var voiceId := if TruthyString(config.voiceId) then config.voiceId.value else RachelVoiceId;
            req.url == SpeechEndpoint + voiceId
    ensures req.text == text && req.modelId == SpeechModel
    ensures req.voiceSettings.stability
              == if TruthyNumber(config.stability) then config.stability.value else 0.5
    ensures req.voiceSettings.similarityBoost
              == if TruthyNumber(config.similarityBoost) then config.similarityBoost.value else 0.5
  {
    var voiceId := OrString(config.voiceId, DefaultConfig.voiceId.value);
    SpeechRequest(
      SpeechEndpoint + voiceId,
      text,
      SpeechModel,
      VoiceSettings(
        OrNumber(config.stability, DefaultConfig.stability.value),
        OrNumber(config.similarityBoost, DefaultConfig.similarityBoost.value)))
  }

  function GenerateElevenLabsSpeech(text: string, config: VoiceConfig, upstream: SpeechRequest -> SpeechReply)
    : (r: Result<seq<byte>, TtsError>)
    ensures !TruthyString(config.apiKey) ==> r == Failure(MissingApiKey)
    ensures TruthyString(config.apiKey) ==>
              match upstream(SpeechRequestFor(text, config))
              case RequestFailed => r == Failure(ApiError)
              case Audio(data) => r == Success(data)
  {
    if !TruthyString(config.apiKey) then Failure(MissingApiKey)
    else
      match upstream(SpeechRequestFor(text, config))
      case RequestFailed => Failure(ApiError)
      case Audio(data) => Success(data)
  }

  /** `generateSpeech`: merge, then dispatch on the provider. */
  function GenerateSpeech(text: string, overrides: VoiceOverrides, upstream: SpeechRequest -> SpeechReply)
    : (r: Result<seq<byte>, TtsError>)
    ensures var c := MergeConfig(overrides);
            && (c.provider == Some(AwsPolly) ==> r == Failure(NotImplemented))
            && ((c.provider != Some(ElevenLabs) && c.provider != Some(AwsPolly))
                  ==> r == Failure(UnsupportedProvider(c.provider)))
            && (c.provider == Some(ElevenLabs) ==> r == GenerateElevenLabsSpeech(text, c, upstream))
  {
    var config := MergeConfig(overrides);
    if config.provider == Some(ElevenLabs) then GenerateElevenLabsSpeech(text, config, upstream)
    else if config.provider == Some(AwsPolly) then Failure(NotImplemented)
    else Failure(UnsupportedProvider(config.provider))
  }

  /** Without a key no request is made: the result is the same whatever
      the upstream would answer. */
  lemma {:induction false} NoKeyNoRequest(text: string, overrides: VoiceOverrides,
                                          up1: SpeechRequest -> SpeechReply, up2: SpeechRequest -> SpeechReply)
    requires !TruthyString(MergeConfig(overrides).apiKey)
    ensures GenerateSpeech(text, overrides, up1) == GenerateSpeech(text, overrides, up2)
  {
  }

  /** An explicit 0 for either setting, and an empty voice id, are replaced
      by the defaults; the caller's non-zero settings and voice are sent. */
  lemma {:induction false} FalsyOverridesFallBack(text: string, key: string, voiceId: string,
                                                  stability: real, boost: real)
    ensures var c := MergeConfig(VoiceOverrides(Absent, Given(""), Given(key), Given(0.0), Given(0.0)));
            SpeechRequestFor(text, c)
              == SpeechRequest(SpeechEndpoint + RachelVoiceId, text, SpeechModel, VoiceSettings(0.5, 0.5))
    ensures var c := MergeConfig(VoiceOverrides(Absent, Given(voiceId), Given(key), Given(stability), Given(boost)));
            voiceId != "" && stability != 0.0 && boost != 0.0 ==>
            SpeechRequestFor(text, c)
              == SpeechRequest(SpeechEndpoint + voiceId, text, SpeechModel, VoiceSettings(stability, boost))
  {
  }

  /** Different voices go to different URLs. */
  lemma {:induction false} UrlDeterminesVoice(text: string, c1: VoiceConfig, c2: VoiceConfig)
    requires TruthyString(c1.voiceId) && TruthyString(c2.voiceId)
    requires SpeechRequestFor(text, c1).url == SpeechRequestFor(text, c2).url
    ensures c1.voiceId == c2.voiceId
  {
    var u1, u2 := SpeechRequestFor(text, c1).url, SpeechRequestFor(text, c2).url;
    assert c1.voiceId.value == u1[|SpeechEndpoint|..];
    assert c2.voiceId.value == u2[|SpeechEndpoint|..];
  }
}
