/** hooks/useZenSession.ts: the React hook that owns the app's voice state.
    It merges the live session's partial updates into a snapshot, fires the
    emergency path on a flagged wisdom text, maps disconnect reasons to UI
    states, and drives the connect toggle and the text query.

    The live session itself is represented by a flag: `disconnect()` on it
    calls back into `handleDisconnect` with no reason (see
    services/geminiService.ts:546), which is how the model tears it down. */
module UseZenSession {

  import opened Wrappers
  import opened ZenTypes
  import Text
  import EmergencyKeywords
  import GeminiService
  import AudioEngine

  /** The kinds `onError` distinguishes. */
  datatype Severity = Error | Warn | Info

  /** One call of the `onError` callback. */
  datatype Notice = Notice(message: string, severity: Severity)

  const ReconnectingText: string := "Đang kết nối lại..."
  const AutoDisconnectText: string := "Đã ngắt kết nối (Tự động)"
  const ConnectFailedText: string := "Lỗi kết nối"
  const TextQueryFailedText: string := "Không thể xử lý yêu cầu"

  /** `liveSessionRef.current` and `analyserRef.current`, as presence flags. */
  datatype Refs = Refs(liveSession: bool, analyser: bool)

  /** The callbacks the hook has fired so far: `onError` notices, calls of
      `onEmergencyDetected`, and calls of the live session's `disconnect()`. */
  datatype Effects = Effects(notices: seq<Notice>, emergencies: nat, teardowns: nat)

  datatype HookState = HookState(
    appState: AppState, zenData: Option<ZenUpdate>, refs: Refs, effects: Effects)

  const InitialHook := HookState(Idle, None, Refs(false, false), Effects([], 0, 0))

  /** An analyser only exists beside a live session, and an idle hook holds
      neither. */
  predicate HookInvariant(h: HookState) {
    (h.refs.analyser ==> h.refs.liveSession)
    && (h.appState == Idle ==> !h.refs.liveSession && !h.refs.analyser)
  }

  // ---------------------------------------------------------------------
  // handleDisconnect

  /** The message shown for a disconnect reason. */
  function FriendlyReason(reason: string): (r: string)
    ensures reason == GeminiService.IdleReason ==> r == AutoDisconnectText
    ensures reason != GeminiService.IdleReason ==> r == reason
  {
    if reason == GeminiService.IdleReason then AutoDisconnectText else reason
  }

  /** `handleDisconnect(reason)`. */
  function Disconnected(h: HookState, reason: Option<string>): (r: HookState)
    ensures r.zenData == h.zenData
    ensures r.effects.emergencies == h.effects.emergencies && r.effects.teardowns == h.effects.teardowns
    ensures reason == Some(GeminiService.ReconnectingReason) ==>
              r.appState == Processing && r.refs == h.refs
              && r.effects.notices == h.effects.notices + [Notice(ReconnectingText, Warn)]
    ensures reason != Some(GeminiService.ReconnectingReason) ==>
              r.appState == Idle && r.refs == Refs(false, false)
              && r.effects.notices == h.effects.notices
                   + (if reason.Some? && reason.value != [] then [Notice(FriendlyReason(reason.value), Info)] else [])
    ensures HookInvariant(h) ==> HookInvariant(r)
  {
    if reason == Some(GeminiService.ReconnectingReason) then
      h.(appState := Processing,
         effects := h.effects.(notices := h.effects.notices + [Notice(ReconnectingText, Warn)]))
    else
      var notices := if reason.Some? && reason.value != [] then h.effects.notices + [Notice(FriendlyReason(reason.value), Info)]
                     else h.effects.notices;
      h.(appState := Idle, refs := Refs(false, false), effects := h.effects.(notices := notices))
  }

  /** `liveSessionRef.current.disconnect()`: the session closes and calls
      `handleDisconnect` with no reason. */
  function TornDown(h: HookState): (r: HookState)
    ensures r.appState == Idle && r.refs == Refs(false, false) && r.zenData == h.zenData
    ensures r.effects == h.effects.(teardowns := h.effects.teardowns + 1)
  {
    Disconnected(h.(effects := h.effects.(teardowns := h.effects.teardowns + 1)), None)
  }

  /** Only a "Reconnecting..." notice leaves the session in place, and it
      reports `processing` rather than `idle`. */
  lemma DisconnectKeepsSessionOnlyWhenReconnecting(h: HookState, reason: Option<string>)
    ensures Disconnected(h, reason).refs.liveSession
            <==> h.refs.liveSession && reason == Some(GeminiService.ReconnectingReason)
    ensures Disconnected(h, reason).appState == Idle <==> reason != Some(GeminiService.ReconnectingReason)
  {
  }

  /** The auto-disconnect after inactivity shows the friendly Vietnamese text,
      and a silent teardown shows nothing. */
  lemma IdleTimeoutNotice(h: HookState)
    ensures Disconnected(h, Some(GeminiService.IdleReason)).effects.notices
            == h.effects.notices + [Notice(AutoDisconnectText, Info)]
    ensures Disconnected(h, None).effects.notices == h.effects.notices
    ensures Disconnected(h, Some([])).effects.notices == h.effects.notices
  {
  }

  /** After a final disconnect a second one changes nothing but the UI state
      it already has. */
  lemma SilentDisconnectIdempotent(h: HookState)
    ensures Disconnected(Disconnected(h, None), None) == Disconnected(h, None)
  {
  }

  // ---------------------------------------------------------------------
  // The shallow merge `prev ? { ...prev, ...data } : data`

  /** One field of the spread: the update's value when present, else the old. */
  function Pick<T>(prior: Option<T>, update: Option<T>): Option<T> {
    if update.Some? then update else prior
  }

  /** `{ ...p, ...data }`. */
  function Spread(p: ZenUpdate, data: ZenUpdate): ZenUpdate {
    ZenUpdate(
      Pick(p.emotion, data.emotion), Pick(p.wisdomText, data.wisdomText),
      Pick(p.wisdomEnglish, data.wisdomEnglish), Pick(p.userTranscript, data.userTranscript),
      Pick(p.breathing, data.breathing), Pick(p.confidence, data.confidence),
      Pick(p.reasoningSteps, data.reasoningSteps), Pick(p.quantumMetrics, data.quantumMetrics),
      Pick(p.awarenessStage, data.awarenessStage), Pick(p.dimensions, data.dimensions),
      Pick(p.ambientSound, data.ambientSound), Pick(p.voiceTone, data.voiceTone))
  }

  /** The merged snapshot: the first update becomes the snapshot; later ones
      overwrite the fields they carry and keep the rest. */
  function Merge(prev: Option<ZenUpdate>, data: ZenUpdate): (r: ZenUpdate)
    ensures prev.None? ==> r == data
    ensures prev.Some? ==>
              (data.emotion.Some? ==> r.emotion == data.emotion)
              && (data.emotion.None? ==> r.emotion == prev.value.emotion)
              && (data.wisdomText.Some? ==> r.wisdomText == data.wisdomText)
              && (data.wisdomText.None? ==> r.wisdomText == prev.value.wisdomText)
              && (data.userTranscript.Some? ==> r.userTranscript == data.userTranscript)
              && (data.userTranscript.None? ==> r.userTranscript == prev.value.userTranscript)
              && (data.quantumMetrics.Some? ==> r.quantumMetrics == data.quantumMetrics)
              && (data.quantumMetrics.None? ==> r.quantumMetrics == prev.value.quantumMetrics)
              && (data.breathing.Some? ==> r.breathing == data.breathing)
              && (data.breathing.None? ==> r.breathing == prev.value.breathing)
              && (data.ambientSound.Some? ==> r.ambientSound == data.ambientSound)
              && (data.ambientSound.None? ==> r.ambientSound == prev.value.ambientSound)
    ensures prev.Some? ==>
              (data.wisdomEnglish.Some? ==> r.wisdomEnglish == data.wisdomEnglish)
              && (data.wisdomEnglish.None? ==> r.wisdomEnglish == prev.value.wisdomEnglish)
              && (data.confidence.Some? ==> r.confidence == data.confidence)
              && (data.confidence.None? ==> r.confidence == prev.value.confidence)
              && (data.reasoningSteps.Some? ==> r.reasoningSteps == data.reasoningSteps)
              && (data.reasoningSteps.None? ==> r.reasoningSteps == prev.value.reasoningSteps)
              && (data.awarenessStage.Some? ==> r.awarenessStage == data.awarenessStage)
              && (data.awarenessStage.None? ==> r.awarenessStage == prev.value.awarenessStage)
              && (data.dimensions.Some? ==> r.dimensions == data.dimensions)
              && (data.dimensions.None? ==> r.dimensions == prev.value.dimensions)
              && (data.voiceTone.Some? ==> r.voiceTone == data.voiceTone)
              && (data.voiceTone.None? ==> r.voiceTone == prev.value.voiceTone)
  {
    match prev
    case None => data
    case Some(p) => Spread(p, data)
  }

  /** An empty update keeps the snapshot. */
  lemma MergeEmptyKeeps(p: ZenUpdate)
    ensures Merge(Some(p), EmptyUpdate) == p
  {
  }

  /** Applying the same update twice is applying it once. */
  lemma MergeIdempotent(prev: Option<ZenUpdate>, data: ZenUpdate)
    ensures Merge(Some(Merge(prev, data)), data) == Merge(prev, data)
  {
  }

  /** Two updates in a row act as their own merge applied at once. */
  lemma MergeComposes(prev: Option<ZenUpdate>, a: ZenUpdate, b: ZenUpdate)
    ensures Merge(Some(Merge(prev, a)), b) == Merge(prev, Merge(Some(a), b))
  {
  }

  /** An update carrying every field replaces the snapshot whole. */
  lemma CompleteUpdateReplaces(prev: Option<ZenUpdate>, data: ZenUpdate)
    requires data.emotion.Some? && data.wisdomText.Some? && data.wisdomEnglish.Some?
    requires data.userTranscript.Some? && data.breathing.Some? && data.confidence.Some?
    requires data.reasoningSteps.Some? && data.quantumMetrics.Some? && data.awarenessStage.Some?
    requires data.dimensions.Some? && data.ambientSound.Some? && data.voiceTone.Some?
    ensures Merge(prev, data) == data
  {
  }

  /** After a text reply that did not parse, a voice update carrying only an
      emotion leaves the ambient sound absent, so the sound engine picks it
      from the emotion: an anxious update plays rain. */
  lemma ParseFailureLeavesSoundToEmotion(text: string, e: Emotion)
    ensures var z := Merge(Some(GeminiService.Fallback(text)), EmptyUpdate.(emotion := Some(e)));
            z.ambientSound.None? && AudioEngine.SoundType(z.emotion, z.ambientSound) == AudioEngine.SoundType(Some(e), None)
    ensures var z := Merge(Some(GeminiService.Fallback(text)), EmptyUpdate.(emotion := Some(Anxious)));
            AudioEngine.SoundType(z.emotion, z.ambientSound) == Rain
  {
  }

  // ---------------------------------------------------------------------
  // handleStateChange

  /** `newData.wisdom_text && detectEmergency(newData.wisdom_text)`. */
  predicate Flagged(z: ZenUpdate) {
    z.wisdomText.Some? && EmergencyKeywords.DetectEmergency(z.wisdomText.value)
  }

  /** `handleStateChange(data)`: merge, then on a flagged wisdom text call
      `onEmergencyDetected` and disconnect the live session. */
  function StateChanged(h: HookState, data: ZenUpdate): (r: HookState)
    ensures r.zenData == Some(Merge(h.zenData, data))
    ensures r.effects.notices == h.effects.notices
    ensures r.effects.emergencies == h.effects.emergencies + (if Flagged(Merge(h.zenData, data)) then 1 else 0)
    ensures Flagged(Merge(h.zenData, data)) && h.refs.liveSession ==>
              r.appState == Idle && r.refs == Refs(false, false)
              && r.effects.teardowns == h.effects.teardowns + 1
    ensures !(Flagged(Merge(h.zenData, data)) && h.refs.liveSession) ==>
              r.appState == h.appState && r.refs == h.refs && r.effects.teardowns == h.effects.teardowns
    ensures HookInvariant(h) ==> HookInvariant(r)
  {
    var merged := Merge(h.zenData, data);
    if Flagged(merged) then
      var h1 := h.(effects := h.effects.(emergencies := h.effects.emergencies + 1));
      var h2 := if h.refs.liveSession then TornDown(h1) else h1;
      h2.(zenData := Some(merged))
    else
      h.(zenData := Some(merged))
  }

  /** A wisdom text containing "muốn chết" stops a live session. */
  lemma CrisisTextStopsSession(h: HookState, data: ZenUpdate, t: string)
    requires h.refs.liveSession
    requires data.wisdomText == Some(t) && Text.Includes(t, EmergencyKeywords.Vietnamese[0])
    ensures StateChanged(h, data).appState == Idle
    ensures !StateChanged(h, data).refs.liveSession
    ensures StateChanged(h, data).effects.emergencies == h.effects.emergencies + 1
  {
    EmergencyKeywords.WantToDieFlagged();
    EmergencyKeywords.FlaggedInsideIsFlagged(EmergencyKeywords.Vietnamese[0], t);
    assert Merge(h.zenData, data).wisdomText == Some(t);
  }

  /** Once the snapshot holds a flagged wisdom text, every later update that
      does not replace it fires the emergency callback again. */
  lemma FlaggedSnapshotRefires(h: HookState, data: ZenUpdate)
    requires h.zenData.Some? && Flagged(h.zenData.value)
    requires data.wisdomText.None?
    ensures StateChanged(h, data).effects.emergencies == h.effects.emergencies + 1
  {
    assert Merge(h.zenData, data).wisdomText == h.zenData.value.wisdomText;
  }

  // ---------------------------------------------------------------------
  // The activity callback, connect, disconnect

  /** The activity callback handed to the session. */
  function ActivityChanged(h: HookState, active: bool): (r: HookState)
    ensures r.appState == (if active then Speaking else Listening)
    ensures r.zenData == h.zenData && r.refs == h.refs && r.effects == h.effects
    ensures HookInvariant(h) ==> HookInvariant(r)
  {
    h.(appState := if active then Speaking else Listening)
  }

  /** How the asynchronous part of `connect` ends: the API key stays
      unconfirmed, something throws (warm-up, key dialog or session connect),
      or the session connects and yields an analyser. */
  datatype ConnectOutcome = KeyRefused | Threw | Opened

  /** `connect()`: from a non-idle state it only disconnects; from idle it
      creates a session and follows `outcome`. */
  function ConnectPressed(h: HookState, outcome: ConnectOutcome): (r: HookState)
    ensures r.zenData == h.zenData && r.effects.emergencies == h.effects.emergencies
    ensures h.appState != Idle ==>
              r.appState == (if h.refs.liveSession then Idle else h.appState)
              && !r.refs.liveSession
              && r.effects.notices == h.effects.notices
    ensures h.appState == Idle && outcome == Opened ==>
              r.appState == Listening && r.refs == Refs(true, true) && r.effects == h.effects
    ensures h.appState == Idle && outcome == KeyRefused ==>
              r.appState == Idle && !r.refs.liveSession && r.effects == h.effects
    ensures h.appState == Idle && outcome == Threw ==>
              r.appState == Idle && r.refs == Refs(false, false)
              && r.effects.notices == h.effects.notices + [Notice(ConnectFailedText, Error)]
              && r.effects.teardowns == h.effects.teardowns + 1
    ensures HookInvariant(h) ==> HookInvariant(r)
  {
    if h.appState != Idle then
      if h.refs.liveSession then TornDown(h) else h
    else
      match outcome
      case KeyRefused => h.(refs := h.refs.(liveSession := false))
      case Threw =>
        TornDown(h.(appState := Idle, refs := h.refs.(liveSession := true),
                    effects := h.effects.(notices := h.effects.notices + [Notice(ConnectFailedText, Error)])))
      case Opened => h.(appState := Listening, refs := Refs(true, true))
  }

  /** The voice button toggles: a second press after a successful connect
      returns to idle with the session torn down. */
  lemma ConnectToggles(h: HookState)
    requires HookInvariant(h) && h.appState == Idle
    ensures var h1 := ConnectPressed(h, Opened);
            var h2 := ConnectPressed(h1, Opened);
            h2.appState == Idle && h2.refs == Refs(false, false)
            && h2.effects.teardowns == h.effects.teardowns + 1
  {
  }

  /** The manual `disconnect()`. */
  function DisconnectPressed(h: HookState): (r: HookState)
    ensures h.refs.liveSession ==> r.appState == Idle && r.effects.teardowns == h.effects.teardowns + 1
    ensures !h.refs.liveSession ==> r == h
    ensures HookInvariant(h) ==> HookInvariant(r)
  {
    if h.refs.liveSession then TornDown(h) else h
  }

  /** Pressing disconnect twice is pressing it once. */
  lemma DisconnectIdempotent(h: HookState)
    ensures DisconnectPressed(DisconnectPressed(h)) == DisconnectPressed(h)
  {
  }

  // ---------------------------------------------------------------------
  // sendText

  /** `sendText(text)`. `keyConfirmed` is the outcome of the key check and
      `response` what `sendZenTextQuery` resolved to, or the error it (or the
      key dialog) threw. The second component is the value returned. */
  function TextSent(h: HookState, text: string, keyConfirmed: bool,
                    response: Result<ZenUpdate, string>): (r: (HookState, Option<ZenUpdate>))
    ensures Text.AllSpace(text) ==> r == (h, None)
    ensures !Text.AllSpace(text) ==> !r.0.refs.liveSession
    ensures r.1.Some? <==> !Text.AllSpace(text) && keyConfirmed && response.Ok?
    ensures r.1.Some? ==> r.1 == Some(response.value) && r.0.zenData == r.1 && r.0.appState == Idle
    ensures !Text.AllSpace(text) && keyConfirmed ==> r.0.appState == Idle
    ensures !Text.AllSpace(text) && keyConfirmed && response.Err? ==>
              r.0.zenData == h.zenData
              && r.0.effects.notices == h.effects.notices + [Notice(TextQueryFailedText, Error)]
    ensures HookInvariant(h) ==> HookInvariant(r.0)
  {
    Text.TrimEmptyIffAllSpace(text);
    if Text.TrimEnd(Text.TrimStart(text)) == [] then (h, None)
    else
      var h1 := if h.refs.liveSession then TornDown(h) else h;
      if !keyConfirmed then (h1, None)
      else
        match response
        case Ok(z) => (h1.(zenData := Some(z), appState := Idle), Some(z))
        case Err(_) =>
          (h1.(appState := Idle,
               effects := h1.effects.(notices := h1.effects.notices + [Notice(TextQueryFailedText, Error)])),
           None)
  }

  /** A text query tears down the live voice session before it starts. */
  lemma TextQueryEndsVoiceSession(h: HookState, text: string, keyConfirmed: bool,
                                  response: Result<ZenUpdate, string>)
    requires h.refs.liveSession && !Text.AllSpace(text)
    ensures TextSent(h, text, keyConfirmed, response).0.effects.teardowns == h.effects.teardowns + 1
    ensures TextSent(h, text, keyConfirmed, response).0.appState == Idle
  {
  }

  // ---------------------------------------------------------------------
  // The hook as an object

  /** The hook's state (`useState`) and refs (`useRef`), with the callbacks it
      has fired recorded in `effects`. */
  class ZenSessionHook {
    var appState: AppState
    var zenData: Option<ZenUpdate>
    var refs: Refs
    var effects: Effects

    function State(): HookState
      reads this
    {
      HookState(appState, zenData, refs, effects)
    }

    ghost predicate Valid()
      reads this
    {
      HookInvariant(State())
    }

    constructor()
      ensures Valid() && State() == InitialHook
    {
      appState := Idle;
      zenData := None;
      refs := Refs(false, false);
      effects := Effects([], 0, 0);
    }

    /** `handleDisconnect`. */
    method HandleDisconnect(reason: Option<string>)
      requires Valid() || reason != Some(GeminiService.ReconnectingReason)
      modifies this
      ensures Valid() && State() == Disconnected(old(State()), reason)
    {
      if reason == Some(GeminiService.ReconnectingReason) {
        effects := effects.(notices := effects.notices + [Notice(ReconnectingText, Warn)]);
        appState := Processing;
        return;
      }
      refs := Refs(false, false);
      appState := Idle;
      if reason.Some? && reason.value != [] {
        effects := effects.(notices := effects.notices + [Notice(FriendlyReason(reason.value), Info)]);
      }
    }

    /** `liveSessionRef.current.disconnect()`, which calls back into
        `handleDisconnect` with no reason. */
    method TearDownLiveSession()
      requires refs.liveSession
      modifies this
      ensures Valid() && State() == TornDown(old(State()))
    {
      effects := effects.(teardowns := effects.teardowns + 1);
      HandleDisconnect(None);
    }

    /** `handleStateChange`. */
    method HandleStateChange(data: ZenUpdate)
      requires Valid()
      modifies this
      ensures Valid() && State() == StateChanged(old(State()), data)
    {
      var newData := Merge(zenData, data);
      if newData.wisdomText.Some? && EmergencyKeywords.DetectEmergency(newData.wisdomText.value) {
        effects := effects.(emergencies := effects.emergencies + 1);
        if refs.liveSession {
          TearDownLiveSession();
        }
      }
      zenData := Some(newData);
    }

    /** The activity callback: the model is speaking or listening. */
    method OnAudioActivity(active: bool)
      requires Valid()
      modifies this
      ensures Valid() && State() == ActivityChanged(old(State()), active)
    {
      appState := if active then Speaking else Listening;
    }

    /** `connect`. */
    method Connect(outcome: ConnectOutcome)
      requires Valid()
      modifies this
      ensures Valid() && State() == ConnectPressed(old(State()), outcome)
    {
      if appState != Idle {
        if refs.liveSession {
          TearDownLiveSession();
        }
        return;
      }
      refs := refs.(liveSession := true);
      if outcome == Threw {
        appState := Idle;
        effects := effects.(notices := effects.notices + [Notice(ConnectFailedText, Error)]);
        TearDownLiveSession();
        return;
      }
      appState := Listening;
      if outcome == KeyRefused {
        refs := refs.(liveSession := false);
        appState := Idle;
        return;
      }
      refs := refs.(analyser := true);
    }

    /** The manual `disconnect`. */
    method Disconnect()
      requires Valid()
      modifies this
      ensures Valid() && State() == DisconnectPressed(old(State()))
    {
      if refs.liveSession {
        TearDownLiveSession();
      }
    }

    /** `sendText`. */
    method SendText(text: string, keyConfirmed: bool, response: Result<ZenUpdate, string>)
      returns (r: Option<ZenUpdate>)
      requires Valid()
      modifies this
      ensures Valid() && (State(), r) == TextSent(old(State()), text, keyConfirmed, response)
    {
      if Text.TrimEnd(Text.TrimStart(text)) == [] {
        return None;
      }
      if refs.liveSession {
        TearDownLiveSession();
      }
      if !keyConfirmed {
        return None;
      }
      appState := Processing;
      match response {
        case Ok(z) =>
          zenData := Some(z);
          appState := Idle;
          return Some(z);
        case Err(_) =>
          effects := effects.(notices := effects.notices + [Notice(TextQueryFailedText, Error)]);
          appState := Idle;
          return None;
      }
    }
  }
}
