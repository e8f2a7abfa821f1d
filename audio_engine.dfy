/** components/AudioEngine.tsx: the sound layer. Once the user has enabled
    audio, it keeps an ambient source chosen from the response's sound or
    emotion, a pair of binaural oscillators chosen from the emotion, and a
    breathing-guide tone looping at the exercise's period, and it ducks the
    master volume while the voice speaks. The Tone.js node graph is reduced
    to descriptions of the nodes that run. */
module AudioEngine {

  import opened Wrappers
  import opened ZenTypes
  import BreathingCircle

  // ---------------------------------------------------------------------
  // Ambient sound

  /** The sound to play: an explicit `ambientSound` wins; otherwise the
      emotion picks one, and without either there is silence. */
  function SoundType(emotion: Option<Emotion>, ambientSound: Option<AmbientSound>): (r: AmbientSound)
    ensures ambientSound.Some? ==> r == ambientSound.value
  {
    if ambientSound.Some? then ambientSound.value
    else match emotion
      case None => Silence
      case Some(e) =>
        if e == Anxious then Rain
        else if e == Sad then Bowl
        else if e == Joyful then Bell
        else if e == Calm then Mekong
        else Silence
  }

  /** Without an explicit sound, only the four mapped emotions make one, and
      each its own. */
  lemma EmotionSounds(emotion: Option<Emotion>)
    ensures SoundType(emotion, None) == Rain <==> emotion == Some(Anxious)
    ensures SoundType(emotion, None) == Bowl <==> emotion == Some(Sad)
    ensures SoundType(emotion, None) == Bell <==> emotion == Some(Joyful)
    ensures SoundType(emotion, None) == Mekong <==> emotion == Some(Calm)
    ensures SoundType(emotion, None) != Monsoon
  {
  }

  datatype Generator = PinkNoise | BrownNoise | Sine(hz: int) | Triangle(hz: int, lfoLow: int, lfoHigh: int)

  /** A running ambient source: its generator, level (dB), fade-in (s) and
      the low-pass cutoff (Hz) it ramps the master filter to. */
  datatype AmbientVoice = AmbientVoice(generator: Generator, volumeDb: int, fadeIn: nat, cutoffHz: nat)

  /** The source each sound creates; silence creates none. */
  function VoiceFor(sound: AmbientSound): (r: Option<AmbientVoice>)
    ensures r.None? <==> sound == Silence
    ensures r.Some? ==> r.value.volumeDb < 0 && 300 <= r.value.cutoffHz <= 2000
  {
    match sound
    case Rain => Some(AmbientVoice(PinkNoise, -12, 2, 400))
    case Monsoon => Some(AmbientVoice(PinkNoise, -10, 2, 800))
    case Mekong => Some(AmbientVoice(BrownNoise, -15, 3, 300))
    case Bowl => Some(AmbientVoice(Sine(150), -8, 2, 800))
    case Bell => Some(AmbientVoice(Triangle(440, 435, 445), -12, 2, 2000))
    case Silence => None
  }

  /** The ambient source that should be running. */
  function AmbientFor(ready: bool, muted: bool, emotion: Option<Emotion>,
                      ambientSound: Option<AmbientSound>): (r: Option<AmbientVoice>)
    ensures !ready || muted ==> r.None?
    ensures ready && !muted && ambientSound.Some? ==> r == VoiceFor(ambientSound.value)
  {
    if !ready || muted then None else VoiceFor(SoundType(emotion, ambientSound))
  }

  /** No ambient source runs exactly when audio is not enabled, is muted, or
      the chosen sound is silence. */
  lemma NoAmbientIff(ready: bool, muted: bool, emotion: Option<Emotion>, ambientSound: Option<AmbientSound>)
    ensures AmbientFor(ready, muted, emotion, ambientSound).None?
            <==> !ready || muted || SoundType(emotion, ambientSound) == Silence
  {
  }

  // ---------------------------------------------------------------------
  // Binaural beats

  /** Base frequency and beat (Hz) for an emotion: delta for sad/stressed,
      theta for calm/seeking, alpha for anxious/confused. */
  datatype Binaural = Binaural(baseHz: nat, beatHz: nat)

  function BinauralTable(emotion: Option<Emotion>): (r: Option<Binaural>)
    ensures r.Some? <==> emotion.Some? && emotion.value in {Sad, Stressed, Calm, Seeking, Anxious, Confused}
  {
    match emotion
    case None => None
    case Some(e) =>
      if e == Sad || e == Stressed then Some(Binaural(100, 2))
      else if e == Calm || e == Seeking then Some(Binaural(150, 6))
      else if e == Anxious || e == Confused then Some(Binaural(200, 10))
      else None
  }

  /** The two oscillators: left at the base, right at base + beat. */
  datatype Oscillators = Oscillators(leftHz: nat, rightHz: nat)

  function BinauralFor(ready: bool, muted: bool, emotion: Option<Emotion>): (r: Option<Oscillators>)
    ensures r.Some? ==> r.value.leftHz < r.value.rightHz
    ensures r.Some? <==> ready && !muted && BinauralTable(emotion).Some?
  {
    if !ready || muted then None
    else match BinauralTable(emotion)
      case None => None
      case Some(b) => Some(Oscillators(b.baseHz, b.baseHz + b.beatHz))
  }

  /** The ear-to-ear difference is the table's beat, and it lies in the band
      the table names: delta (below 4 Hz), theta (4-8 Hz) or alpha (8-13 Hz). */
  lemma BeatInBand(ready: bool, muted: bool, emotion: Option<Emotion>)
    requires BinauralFor(ready, muted, emotion).Some?
    ensures var o := BinauralFor(ready, muted, emotion).value;
            var beat := o.rightHz - o.leftHz;
            beat == BinauralTable(emotion).value.beatHz
            && (emotion.value in {Sad, Stressed} ==> 0 < beat < 4)
            && (emotion.value in {Calm, Seeking} ==> 4 <= beat <= 8)
            && (emotion.value in {Anxious, Confused} ==> 8 <= beat <= 13)
  {
  }

  // ---------------------------------------------------------------------
  // Breathing guide

  /** The guide tone's schedule (s): ramp up over `inhale`, hold, ramp down
      over `exhale`, then `hold2`. */
  datatype Guide = Guide(inhale: nat, hold: nat, exhale: nat, hold2: nat)

  function GuideFor(breathing: Breathing): (r: Guide)
    ensures r.inhale == 4
    ensures r.hold2 > 0 <==> breathing == BoxBreathing
    ensures r.exhale == 8 <==> breathing == FourSevenEight
  {
    var is478 := breathing == FourSevenEight;
    var isBox := breathing == BoxBreathing;
    Guide(4, if is478 then 7 else 4, if is478 then 8 else 4, if isBox then 4 else 0)
  }

  /** The loop period `totalT`. */
  function Period(g: Guide): nat {
    g.inhale + g.hold + g.exhale + g.hold2
  }

  /** The guide that should be looping: none without a breathing type, for
      'none', or when audio is off. */
  function BreathingFor(ready: bool, muted: bool, breathing: Option<Breathing>): (r: Option<Guide>)
    ensures r.Some? <==> ready && !muted && breathing.Some? && breathing.value != NoBreathing
  {
    if !ready || breathing.None? || breathing.value == NoBreathing || muted then None
    else Some(GuideFor(breathing.value))
  }

  /** The loop periods: 19 s for 4-7-8, 16 s for box, 12 s for coherent. */
  lemma GuidePeriods()
    ensures Period(GuideFor(FourSevenEight)) == 19
    ensures Period(GuideFor(BoxBreathing)) == 16
    ensures Period(GuideFor(CoherentBreathing)) == 12
  {
  }

  /** One frequency instruction of a loop iteration, with times in seconds
      from the iteration's start: set the pitch at `at`, or ramp linearly to
      `hz` over `dur` seconds beginning at `at`. */
  datatype Ramp = SetAt(at: nat, hz: nat) | RampTo(at: nat, dur: nat, hz: nat)

  /** The instant an instruction is complete. */
  function EndOf(r: Ramp): nat {
    match r
    case SetAt(at, _) => at
    case RampTo(at, dur, _) => at + dur
  }

  /** The instructions one iteration schedules: 200 Hz at the start, a rise
      to 400 Hz over the inhale, 400 Hz held from the end of the inhale, and
      a fall back to 200 Hz over the exhale after the hold. */
  function Schedule(g: Guide): seq<Ramp> {
    [SetAt(0, 200), RampTo(0, g.inhale, 400), SetAt(g.inhale, 400),
     RampTo(g.inhale + g.hold, g.exhale, 200)]
  }

  /** Within an iteration every instruction begins once the one before it is
      complete, the last one ends by the time the next iteration starts, and
      the pitch is back at the 200 Hz the next iteration sets, so iterations
      never overlap and the tone has no jump at the loop boundary. */
  lemma RampsFitPeriod(b: Breathing)
    ensures var g := GuideFor(b); var s := Schedule(g);
            (forall i :: 0 < i < |s| ==> EndOf(s[i - 1]) <= s[i].at)
            && (forall i :: 0 <= i < |s| ==> EndOf(s[i]) <= Period(g))
            && s[|s| - 1].hz == s[0].hz == 200
  {
  }

  /** For coherent breathing the tone loops every 12 s with a 4 s hold, while
      the visual breathing circle runs 10 s cycles with no hold. */
  lemma CoherentGuideDiffersFromCircle()
    ensures Period(GuideFor(CoherentBreathing))
            == BreathingCircle.CycleDuration(BreathingCircle.TimingsFor(Some(CoherentBreathing))) + 2
    ensures GuideFor(CoherentBreathing).hold == 4
    ensures BreathingCircle.TimingsFor(Some(CoherentBreathing)).hold == 0
  {
  }

  /** For 4-7-8 and box breathing, tone and circle agree on the cycle length. */
  lemma GuideMatchesCircle(b: Breathing)
    requires b == FourSevenEight || b == BoxBreathing
    ensures Period(GuideFor(b)) == BreathingCircle.CycleDuration(BreathingCircle.TimingsFor(Some(b)))
  {
  }

  // ---------------------------------------------------------------------
  // Ducking

  /** The master volume target (dB): lower while the voice speaks. */
  function DuckingTarget(isSpeaking: bool): (r: int)
    ensures r < 0
    ensures isSpeaking ==> r == DuckingTarget(false) - 10
  {
    if isSpeaking then -25 else -15
  }

  // ---------------------------------------------------------------------
  // The component

  /** The props the effects depend on. */
  datatype Props = Props(emotion: Option<Emotion>, breathing: Option<Breathing>,
                         ambientSound: Option<AmbientSound>, isSpeaking: bool)

  /** `muted`, `isReady`, the props last rendered, and what `nodes.current`
      holds: the ambient source, the binaural pair, the breathing loop, the
      filter cutoff and the master volume (the last two exist once audio is
      enabled). */
  class AudioEngineView {
    var props: Props
    var muted: bool
    var ready: bool
    var ambient: Option<AmbientVoice>
    var binaural: Option<Oscillators>
    var breathingLoop: Option<Guide>
    var filterHz: Option<nat>
    var volumeDb: Option<int>

    /** The effects have caught up: the running nodes are the ones the tables
        choose for the current props, the filter follows the ambient source,
        and the master chain exists exactly once audio is enabled. */
    ghost predicate Valid()
      reads this
    {
      ambient == AmbientFor(ready, muted, props.emotion, props.ambientSound)
      && binaural == BinauralFor(ready, muted, props.emotion)
      && breathingLoop == BreathingFor(ready, muted, props.breathing)
      && (ready <==> filterHz.Some?) && (ready <==> volumeDb.Some?)
      && (ambient.Some? ==> filterHz == Some(ambient.value.cutoffHz))
    }

    constructor(p: Props)
      ensures Valid() && props == p && !muted && !ready
      ensures ambient.None? && binaural.None? && breathingLoop.None?
    {
      props := p;
      muted := false;
      ready := false;
      ambient := None;
      binaural := None;
      breathingLoop := None;
      filterHz := None;
      volumeDb := None;
    }

    /** Effect 1: stop the old ambient source and start the chosen one. */
    method AmbientEffect()
      requires ready ==> filterHz.Some?
      modifies this
      ensures ambient == AmbientFor(ready, muted, props.emotion, props.ambientSound)
      ensures ambient.Some? ==> filterHz == Some(ambient.value.cutoffHz)
      ensures ambient.None? ==> filterHz == old(filterHz)
      ensures props == old(props) && muted == old(muted) && ready == old(ready)
      ensures binaural == old(binaural) && breathingLoop == old(breathingLoop) && volumeDb == old(volumeDb)
    {
      ambient := None;
      if !ready || muted {
        return;
      }
      var sound := SoundType(props.emotion, props.ambientSound);
      if sound == Silence {
        return;
      }
      var voice := VoiceFor(sound).value;
      filterHz := Some(voice.cutoffHz);
      ambient := Some(voice);
    }

    /** Effect 2: the binaural pair. */
    method BinauralEffect()
      modifies this
      ensures binaural == BinauralFor(ready, muted, props.emotion)
      ensures props == old(props) && muted == old(muted) && ready == old(ready)
      ensures ambient == old(ambient) && breathingLoop == old(breathingLoop)
      ensures filterHz == old(filterHz) && volumeDb == old(volumeDb)
    {
      binaural := None;
      if !ready || muted {
        return;
      }
      match BinauralTable(props.emotion) {
        case None =>
        case Some(b) =>
          binaural := Some(Oscillators(b.baseHz, b.baseHz + b.beatHz));
      }
    }

    /** Effect 3: the breathing-guide loop. */
    method BreathingEffect()
      modifies this
      ensures breathingLoop == BreathingFor(ready, muted, props.breathing)
      ensures props == old(props) && muted == old(muted) && ready == old(ready)
      ensures ambient == old(ambient) && binaural == old(binaural)
      ensures filterHz == old(filterHz) && volumeDb == old(volumeDb)
    {
      breathingLoop := None;
      if !ready || props.breathing.None? || props.breathing.value == NoBreathing || muted {
        return;
      }
      breathingLoop := Some(GuideFor(props.breathing.value));
    }

    /** A re-render with new props: each effect whose dependencies changed
        runs again, and ducking follows a change of `isSpeaking`. */
    method Render(p: Props)
      requires Valid()
      modifies this
      ensures Valid() && props == p && muted == old(muted) && ready == old(ready)
      ensures ready && p.isSpeaking != old(props.isSpeaking) ==> volumeDb == Some(DuckingTarget(p.isSpeaking))
      ensures !(ready && p.isSpeaking != old(props.isSpeaking)) ==> volumeDb == old(volumeDb)
    {
      var before := props;
      props := p;
      if p.emotion != before.emotion || p.ambientSound != before.ambientSound {
        AmbientEffect();
      }
      if p.emotion != before.emotion {
        BinauralEffect();
      }
      if p.breathing != before.breathing {
        BreathingEffect();
      }
      DuckingEffect(before.isSpeaking);
    }

    /** Effect 4: on a change of `isSpeaking`, ramp the master volume, if
        there is one, to the ducking target. */
    method DuckingEffect(wasSpeaking: bool)
      requires ready <==> volumeDb.Some?
      modifies this
      ensures ready && props.isSpeaking != wasSpeaking ==> volumeDb == Some(DuckingTarget(props.isSpeaking))
      ensures !(ready && props.isSpeaking != wasSpeaking) ==> volumeDb == old(volumeDb)
      ensures props == old(props) && muted == old(muted) && ready == old(ready)
      ensures ambient == old(ambient) && binaural == old(binaural)
      ensures breathingLoop == old(breathingLoop) && filterHz == old(filterHz)
    {
      if props.isSpeaking != wasSpeaking && volumeDb.Some? {
        volumeDb := Some(DuckingTarget(props.isSpeaking));
      }
    }

    /** The mute button: enables audio on first use (master volume -15 dB,
        low-pass at 1000 Hz), flips `muted`, and the three sound effects run
        again. */
    method ToggleMute()
      requires Valid()
      modifies this
      ensures Valid() && ready && muted == !old(muted) && props == old(props)
      ensures !old(ready) ==> volumeDb == Some(-15)
      ensures old(ready) ==> volumeDb == old(volumeDb)
    {
      if !ready {
        volumeDb := Some(-15);
        filterHz := Some(1000);
        ready := true;
      }
      muted := !muted;
      AmbientEffect();
      BinauralEffect();
      BreathingEffect();
    }
  }
}
