/**
 * The static table from a voice persona id to the prebuilt provider voice
 * and the tone sentence added to the prompt, and the lookup that falls
 * back to the motivational male persona.
 */
module Voices {

  /** One entry of the persona table. */
  datatype VoiceConfig = VoiceConfig(apiVoice: string, toneInstruction: string)

  /** The id whose entry is used when a requested id is unknown. */
  const FallbackId: string := "motivational_male"

  /** The prebuilt provider voices the table refers to. */
  const ApiVoices: set<string> := {"Charon", "Kore", "Fenrir", "Puck"}

  const VoiceMap: map<string, VoiceConfig> := map[
    "real_man_voice" := VoiceConfig("Charon", "Adopt a deep, warm, and confident tone with slight breathiness and natural pacing."),
    "motivational_male" := VoiceConfig("Charon", "The tone should be deep and confident."),
    "motivational_female" := VoiceConfig("Kore", "The tone should be energetic and uplifting."),
    "calm_female" := VoiceConfig("Kore", "The tone should be soft and peaceful."),
    "narrator_male" := VoiceConfig("Charon", "The tone should be clear and balanced."),
    "cinematic_male" := VoiceConfig("Charon", "The tone should be dramatic and intense."),
    "cinematic_female" := VoiceConfig("Kore", "The tone should be epic and emotional."),
    "storyteller_male" := VoiceConfig("Fenrir", "The tone should be warm and expressive."),
    "storyteller_female" := VoiceConfig("Kore", "The tone should be comforting and vivid."),
    "corporate_male" := VoiceConfig("Charon", "The tone should be neutral and confident."),
    "corporate_female" := VoiceConfig("Kore", "The tone should be professional and calm."),
    "robotic_male" := VoiceConfig("Puck", "Adopt a slightly synthetic, robotic male voice."),
    "robotic_female" := VoiceConfig("Kore", "Adopt a digital, sleek, robotic female voice."),
    "standard_male" := VoiceConfig("Charon", "Adopt a standard, neutral male voice."),
    "standard_female" := VoiceConfig("Kore", "Adopt a standard, neutral female voice."),
    "baby_boy" := VoiceConfig("Kore", "Adopt a high-pitched, playful, and innocent young boy's voice, simulating a baby or toddler's tone."),
    "baby_girl" := VoiceConfig("Kore", "Adopt a high-pitched, playful, and innocent young girl's voice, simulating a baby or toddler's tone."),
    "spooky_ethereal" := VoiceConfig("Kore", "Adopt a soft, ethereal, and slightly echoing cinematic female voice. The tone should be spooky and suitable for horror or mystery, with a haunting quality."),
    "glitched_ghost" := VoiceConfig("Puck", "Adopt a digitally distorted, eerie whispering voice, like a glitched robotic ghost. The tone should be unsettling and synthetic."),
    "spirit_narrator" := VoiceConfig("Kore", "Adopt a calm, distant, and floating narrative voice, like a spirit telling a story. The tone should be serene yet otherworldly.")
  ]

  /** The persona ids the voice selector offers, in display order. */
  const UiVoiceIds: seq<string> := [
    "real_man_voice", "motivational_male", "motivational_female", "calm_female",
    "narrator_male", "cinematic_male", "cinematic_female", "storyteller_male",
    "storyteller_female", "corporate_male", "corporate_female", "robotic_male",
    "robotic_female", "standard_male", "standard_female", "baby_boy", "baby_girl",
    "spooky_ethereal", "glitched_ghost", "spirit_narrator"
  ]

  /** Every entry of the table names one of the four prebuilt voices and a tone sentence. */
  lemma TableWellFormed()
    ensures FallbackId in VoiceMap
    ensures forall id :: id in VoiceMap ==> VoiceMap[id].apiVoice in ApiVoices && VoiceMap[id].toneInstruction != ""
  {
  }

  /** The entry for `id`, or the motivational male entry when `id` is not in the table. */
  function ResolveVoice(id: string): (c: VoiceConfig)
    ensures id in VoiceMap ==> c == VoiceMap[id]
    ensures id !in VoiceMap ==> c == VoiceConfig("Charon", "The tone should be deep and confident.")
    ensures c.apiVoice in ApiVoices
    ensures c in VoiceMap.Values
  {
    TableWellFormed();
    if id in VoiceMap then VoiceMap[id] else VoiceMap[FallbackId]
  }

  /** Every id offered by the selector is in the table, so the fallback never fires for it. */
  lemma UiVoicesKnown()
    ensures forall i :: 0 <= i < |UiVoiceIds| ==> UiVoiceIds[i] in VoiceMap
    ensures forall i :: 0 <= i < |UiVoiceIds| ==> ResolveVoice(UiVoiceIds[i]) == VoiceMap[UiVoiceIds[i]]
  {
  }

  /** The selector offers exactly the ids of the table. */
  lemma UiVoicesCoverTable()
    ensures forall id :: id in VoiceMap <==> id in UiVoiceIds
  {
  }
}
