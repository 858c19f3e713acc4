/**
 * The speech-to-text client of the voice package: configuration merge,
 * provider dispatch, and the Whisper request, whose multipart form is built
 * field by field. The upload is the parameter `upstream`.
 */
module Stt {
  import opened Wrappers
  import opened Partial

  type byte = bv8

  const Whisper := "whisper"
  const Google := "google"

  /** `STTConfig` after the spread merge; `None` is `undefined`. */
  datatype SttConfig = SttConfig(
    provider: Option<string>,
    apiKey: Option<string>,
    language: Option<string>,
    model: Option<string>)

  /** The caller's `Partial<STTConfig>`. */
  datatype SttOverrides = SttOverrides(
    provider: Field<string>,
    apiKey: Field<string>,
    language: Field<string>,
    model: Field<string>)

  /** `defaultConfig`: Whisper, English, whisper-1, no key. */
  const DefaultConfig := SttConfig(Some(Whisper), None, Some("en"), Some("whisper-1"))

  /** `{ ...defaultConfig, ...config }`. */
  function MergeConfig(o: SttOverrides): (c: SttConfig)
    ensures o.provider.Given? ==> c.provider == Some(o.provider.value)
    ensures o.apiKey.Given? ==> c.apiKey == Some(o.apiKey.value)
    ensures o.language.Given? ==> c.language == Some(o.language.value)
    ensures o.model.Given? ==> c.model == Some(o.model.value)
    ensures o.provider.Absent? ==> c.provider == Some(Whisper)
    ensures o.apiKey.Absent? ==> c.apiKey == None
    ensures o.language.Absent? ==> c.language == Some("en")
    ensures o.model.Absent? ==> c.model == Some("whisper-1")
    ensures o.provider.Undefined? ==> c.provider == None
    ensures o.apiKey.Undefined? ==> c.apiKey == None
    ensures o.language.Undefined? ==> c.language == None
    ensures o.model.Undefined? ==> c.model == None
  {
    SttConfig(
      Spread(DefaultConfig.provider, o.provider),
      Spread(DefaultConfig.apiKey, o.apiKey),
      Spread(DefaultConfig.language, o.language),
      Spread(DefaultConfig.model, o.model))
  }

  /** A `Blob`: its bytes and its MIME type. */
  datatype Blob = Blob(bytes: seq<byte>, mimeType: string)

  /** `ArrayBuffer | Blob`. */
  datatype Audio = BlobAudio(blob: Blob) | BufferAudio(buffer: seq<byte>)

  /** The blob uploaded: a Blob as given, an ArrayBuffer wrapped as audio/wav. */
  function AsBlob(audio: Audio): (b: Blob)
    ensures audio.BlobAudio? ==> b == audio.blob
    ensures audio.BufferAudio? ==> b.bytes == audio.buffer && b.mimeType == "audio/wav"
  {
    match audio
    case BlobAudio(blob) => blob
    case BufferAudio(buffer) => Blob(buffer, "audio/wav")
  }

  /** One `formData.append` entry. */
  datatype FormField = TextField(name: string, value: string) | FileField(name: string, file: Blob, filename: string)

  /** The Whisper form, field by field and in order: the model (the caller's
      if non-empty, else whisper-1), the audio file named audio.wav, and the
      language only when it is non-empty. */
  predicate IsWhisperForm(form: seq<FormField>, audio: Audio, config: SttConfig) {
    && |form| == (if TruthyString(config.language) then 3 else 2)
    && form[0] == TextField("model", if TruthyString(config.model) then config.model.value else "whisper-1")
    && form[1] == FileField("file", AsBlob(audio), "audio.wav")
    && (TruthyString(config.language) ==> form[2] == TextField("language", config.language.value))
  }

  /** The body of `transcribeWithWhisper` from `new FormData()` to the last append. */
  method BuildWhisperForm(audio: Audio, config: SttConfig) returns (form: seq<FormField>)
    ensures IsWhisperForm(form, audio, config)
  {
    form := [];
    form := form + [TextField("model", OrString(config.model, DefaultConfig.model.value))];
    match audio {
      case BlobAudio(blob) =>
        form := form + [FileField("file", blob, "audio.wav")];
      case BufferAudio(buffer) =>
        var blob := Blob(buffer, "audio/wav");
        form := form + [FileField("file", blob, "audio.wav")];
    }
    if TruthyString(config.language) {
      form := form + [TextField("language", config.language.value)];
    }
  }

  /** The POST to the transcription endpoint, as far as it is modelled. */
  datatype WhisperRequest = WhisperRequest(form: seq<FormField>)

  /** An axios error, or `response.data.text`. */
  datatype WhisperReply = RequestFailed | Transcribed(text: string)

  datatype TranscriptionResult = TranscriptionResult(
    text: string,
    confidence: Option<real>,
    language: Option<string>)

  datatype SttError =
    | NotImplemented          // 'Google STT not implemented yet'
    | UnsupportedProvider(provider: Option<string>)
    | MissingApiKey           // 'OpenAI API key is required for Whisper'
    | ApiError

  /** What the request's reply turns into: the text, a fixed confidence of 0.9,
      and the configured language (nothing detected is reported). */
  function TranscriptionOf(reply: WhisperReply, config: SttConfig): (r: Result<TranscriptionResult, SttError>)
    ensures reply.RequestFailed? <==> r == Failure(ApiError)
    ensures r.Success? ==> r.value.confidence == Some(0.9) && r.value.language == config.language
    ensures reply.Transcribed? ==> r.Success? && r.value.text == reply.text
  {
    match reply
    case RequestFailed => Failure(ApiError)
    case Transcribed(text) => Success(TranscriptionResult(text, Some(0.9), config.language))
  }

  /** `transcribeWithWhisper`; `sent` is what was posted, if anything. */
  method TranscribeWithWhisper(audio: Audio, config: SttConfig, upstream: WhisperRequest -> WhisperReply)
    returns (sent: Option<WhisperRequest>, r: Result<TranscriptionResult, SttError>)
    ensures !TruthyString(config.apiKey) ==> sent == None && r == Failure(MissingApiKey)
    ensures TruthyString(config.apiKey) ==>
              && sent.Some? && IsWhisperForm(sent.value.form, audio, config)
              && r == TranscriptionOf(upstream(sent.value), config)
  {
    if !TruthyString(config.apiKey) {
      return None, Failure(MissingApiKey);
    }
    var form := BuildWhisperForm(audio, config);
    var request := WhisperRequest(form);
    var reply := upstream(request);
    sent := Some(request);
    r := TranscriptionOf(reply, config);
  }

  /** `transcribe`: merge, then dispatch on the provider. */
  method Transcribe(audio: Audio, overrides: SttOverrides, upstream: WhisperRequest -> WhisperReply)
    returns (sent: Option<WhisperRequest>, r: Result<TranscriptionResult, SttError>)
    ensures var c := MergeConfig(overrides);
            && (c.provider == Some(Google) ==> sent == None && r == Failure(NotImplemented))
            && ((c.provider != Some(Whisper) && c.provider != Some(Google))
                  ==> sent == None && r == Failure(UnsupportedProvider(c.provider)))
            && ((c.provider == Some(Whisper) && !TruthyString(c.apiKey))
                  ==> sent == None && r == Failure(MissingApiKey))
            && ((c.provider == Some(Whisper) && TruthyString(c.apiKey)) ==>
                  && sent.Some? && IsWhisperForm(sent.value.form, audio, c)
                  && r == TranscriptionOf(upstream(sent.value), c))
  {
    var config := MergeConfig(overrides);
    if config.provider == Some(Whisper) {
      sent, r := TranscribeWithWhisper(audio, config, upstream);
    } else if config.provider == Some(Google) {
      sent, r := None, Failure(NotImplemented);
    } else {
      sent, r := None, Failure(UnsupportedProvider(config.provider));
    }
  }

  /** With only a key given, the form carries whisper-1, the file, and "en". */
  lemma {:induction false} DefaultWhisperForm(form: seq<FormField>, audio: Audio, key: string)
    requires IsWhisperForm(form, audio, MergeConfig(SttOverrides(Absent, Given(key), Absent, Absent)))
    ensures form == [TextField("model", "whisper-1"), FileField("file", AsBlob(audio), "audio.wav"),
                     TextField("language", "en")]
  {
  }

  /** An empty model falls back to whisper-1; an empty or undefined language
      is left out of the form. */
  lemma {:induction false} EmptyFieldsFallBack(form: seq<FormField>, audio: Audio, key: string, language: Field<string>)
    requires language == Given("") || language == Undefined
    requires IsWhisperForm(form, audio, MergeConfig(SttOverrides(Absent, Given(key), language, Given(""))))
    ensures form == [TextField("model", "whisper-1"), FileField("file", AsBlob(audio), "audio.wav")]
  {
  }
}
