/** The records the core exchanges (types.ts), as value types.
    `ZenUpdate` is `Partial<ZenResponse>`: every field may be absent. */
module ZenTypes {

  import opened Wrappers

  datatype Emotion =
    Anxious | Sad | Joyful | Calm | Neutral | Stressed | Confused | Lonely | Seeking

  datatype Breathing = FourSevenEight | BoxBreathing | CoherentBreathing | NoBreathing

  datatype AwarenessStage = Reflexive | Aware | Mindful | Contemplative

  datatype AmbientSound = Rain | Bowl | Bell | Silence | Mekong | Monsoon

  datatype VoiceTone = CalmWarm | GroundingFirm | UpliftingBright | GentleSoft

  datatype QuantumMetrics = QuantumMetrics(coherence: real, entanglement: real, presence: real)

  datatype Dimensions = Dimensions(
    contextual: real, emotional: real, cultural: real,
    wisdom: real, uncertainty: real, relational: real)

  /** A structured update from the remote service, or a whole response once
      every field is present. */
  datatype ZenUpdate = ZenUpdate(
    emotion: Option<Emotion>,
    wisdomText: Option<string>,
    wisdomEnglish: Option<string>,
    userTranscript: Option<string>,
    breathing: Option<Breathing>,
    confidence: Option<real>,
    reasoningSteps: Option<seq<string>>,
    quantumMetrics: Option<QuantumMetrics>,
    awarenessStage: Option<AwarenessStage>,
    dimensions: Option<Dimensions>,
    ambientSound: Option<AmbientSound>,
    voiceTone: Option<VoiceTone>)

  /** The update with no field present (`{}`). */
  const EmptyUpdate := ZenUpdate(None, None, None, None, None, None, None, None, None, None, None, None)

  datatype AppState = Idle | Listening | Processing | Speaking

  datatype ConsciousnessArchetype = Observer | Healer | Warrior | Void | Seeker

  /** One saved turn of the conversation; `metrics` is optional because stored
      entries may lack it. */
  datatype ConversationEntry = ConversationEntry(
    id: string, timestamp: int, emotion: string,
    metrics: Option<QuantumMetrics>,
    stage: Option<AwarenessStage>,
    dimensions: Option<Dimensions>)
}
