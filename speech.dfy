/**
 * `generateMotivationalSpeech` end to end. The provider's `generateContent`
 * call is a parameter: a function from the call it is given to how it ends
 * (an answer whose audio path may be missing, or a thrown value).
 */
module Speech {
  import opened Wrappers
  import opened Voices
  import opened Prompt
  import opened Errors

  /** The provider model the request names. */
  const TtsModel: string := "gemini-2.5-flash-preview-tts"

  /** What `generateContent` is given: model, prompt text and prebuilt voice. */
  datatype ProviderCall = ProviderCall(model: string, prompt: string, voiceName: string)

  /** A thrown value: an `Error` with its message, or anything else. */
  datatype Thrown = ErrorThrown(message: string) | OtherThrown

  /**
   * How the provider call ends: an answer, carrying the base64 audio found
   * at `candidates[0].content.parts[0].inlineData.data` if that path exists,
   * or a thrown value.
   */
  datatype ProviderOutcome = Answered(audio: Option<string>) | Threw(thrown: Thrown)

  /**
   * The provider call made for inputs that pass the empty-text guard: the
   * text-to-speech model, the built prompt and the resolved prebuilt voice.
   */
  function CallFor(text: string, voiceName: string, voiceStyle: string, accent: string, speed: real): (c: ProviderCall)
    requires text != ""
    ensures c.model == TtsModel
    ensures c.voiceName == ResolveVoice(voiceName).apiVoice && c.voiceName in ApiVoices
    ensures c.prompt == BuildPrompt(text, voiceName, voiceStyle, accent, speed).value.prompt
  {
    var request := BuildPrompt(text, voiceName, voiceStyle, accent, speed).value;
    ProviderCall(TtsModel, request.prompt, request.apiVoice)
  }

  /** True when the answer holds audio the service accepts (present and not empty). */
  predicate HasAudio(outcome: ProviderOutcome)
    ensures HasAudio(outcome) <==> exists audio :: audio != "" && outcome == Answered(Some(audio))
  {
    outcome.Answered? && outcome.audio.Some? && outcome.audio.value != ""
  }

  /**
   * The service call: the base64 audio on success, otherwise the message of
   * the error the caller sees.
   */
  function GenerateSpeech(text: string, voiceName: string, voiceStyle: string, accent: string, speed: real,
                          provider: ProviderCall -> ProviderOutcome): (r: Result<string, string>)
    ensures text == "" ==> r == Failure(EmptyTextMessage)
    ensures text != "" ==> (r.Success? <==> HasAudio(provider(CallFor(text, voiceName, voiceStyle, accent, speed))))
    ensures r.Success? ==> provider(CallFor(text, voiceName, voiceStyle, accent, speed)) == Answered(Some(r.value))
    ensures text != "" && r.Failure? ==> r.error in UserMessages
  {
    match BuildPrompt(text, voiceName, voiceStyle, accent, speed)
    case Failure(e) => Failure(e)
    case Success(request) =>
      match provider(ProviderCall(TtsModel, request.prompt, request.apiVoice))
      case Answered(Some(audio)) =>
        if audio != "" then Success(audio) else Failure(ClassifyError(Some(NoAudioMessage)))
      case Answered(None) => Failure(ClassifyError(Some(NoAudioMessage)))
      case Threw(ErrorThrown(message)) => Failure(ClassifyError(Some(message)))
      case Threw(OtherThrown) => Failure(ClassifyError(None))
  }

  /** An empty text is rejected before the provider is consulted: its answer does not matter. */
  lemma EmptyTextSkipsProvider(voiceName: string, voiceStyle: string, accent: string, speed: real,
                               p1: ProviderCall -> ProviderOutcome, p2: ProviderCall -> ProviderOutcome)
    ensures GenerateSpeech("", voiceName, voiceStyle, accent, speed, p1)
         == GenerateSpeech("", voiceName, voiceStyle, accent, speed, p2)
         == Failure(EmptyTextMessage)
  {
  }

  /** Only the empty string is rejected here: any other text, blank or not, reaches the provider. */
  lemma OnlyEmptyTextRejected(text: string, voiceName: string, voiceStyle: string, accent: string, speed: real,
                              provider: ProviderCall -> ProviderOutcome)
    requires text != ""
    ensures GenerateSpeech(text, voiceName, voiceStyle, accent, speed, provider) != Failure(EmptyTextMessage)
  {
  }

  /** An answer without audio surfaces as the generic failure, not as the no-audio message. */
  lemma MissingAudioIsGeneric(text: string, voiceName: string, voiceStyle: string, accent: string, speed: real,
                              provider: ProviderCall -> ProviderOutcome)
    requires text != ""
    requires provider(CallFor(text, voiceName, voiceStyle, accent, speed)) in {Answered(None), Answered(Some(""))}
    ensures GenerateSpeech(text, voiceName, voiceStyle, accent, speed, provider) == Failure(GenericMessage)
  {
    NoAudioIsGeneric();
  }

  /** A thrown `Error` surfaces as its classified message, any other thrown value as the generic one. */
  lemma ThrownIsClassified(text: string, voiceName: string, voiceStyle: string, accent: string, speed: real,
                           provider: ProviderCall -> ProviderOutcome)
    requires text != ""
    requires provider(CallFor(text, voiceName, voiceStyle, accent, speed)).Threw?
    ensures var thrown := provider(CallFor(text, voiceName, voiceStyle, accent, speed)).thrown;
      GenerateSpeech(text, voiceName, voiceStyle, accent, speed, provider)
      == Failure(if thrown.ErrorThrown? then ClassifyError(Some(thrown.message)) else GenericMessage)
  {
  }
}
