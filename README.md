# Zen8 core in Dafny

Zen8 ("Thầy AI") is a voice meditation companion. It captures microphone
audio, gates it with an adaptive voice detector and streams it as 16 kHz PCM
to a live Gemini session. It plays back the spoken replies, turns the
model's structured `update_zen_state` calls into a UI snapshot, and raises a
crisis screen when the reply contains an emergency keyword. Around that core
sit small state machines:

- a guided breathing circle;
- the crisis breathing counter;
- the ambient, binaural and ducking sound tables;
- the "Consciousness DNA" history analysis;
- an offline service worker.

This project models that core and proves what the code promises about it.

| file | module | models |
|---|---|---|
| wrappers.dfy | `Wrappers` | `Option` / `Result` |
| text.dfy | `Text` | JavaScript whitespace, `trim`, `includes`, `indexOf` / `lastIndexOf`, `toLowerCase` on the letters the keyword lists use |
| zen_types.dfy | `ZenTypes` | the records and enumerations of types.ts (`ZenUpdate` is `Partial<ZenResponse>`: every field optional) |
| base64.dfy | `Base64` | `btoa` / `atob`: base64 as in section 4 of RFC 4648, with its round trip |
| audio_manager.dfy | `AudioManager` | the adaptive voice detector, the AudioWorklet resampler and 2048-sample accumulator, and `floatTo16BitPCM` / `base64EncodeAudio` (services/audioManager.ts) |
| gemini_service.dfy | `GeminiService` | `cleanJsonString`, the default filling of `sendZenTextQuery`, and `ZenLiveSession`: reconnection policy, playback scheduler, message handling, capture gating (services/geminiService.ts) |
| use_zen_session.dfy | `UseZenSession` | the `useZenSession` hook: disconnect reasons, snapshot merge, emergency path, connect toggle, text queries |
| emergency_keywords.dfy | `EmergencyKeywords` | `EMERGENCY_KEYWORDS` and `detectEmergency` |
| breathing_circle.dfy | `BreathingCircle` | the breathing overlay's timings, interval and auto-complete |
| emergency_protocol.dfy | `EmergencyProtocol` | the crisis screen: alert, then breathing, then resources, and its 4-4-4 counter |
| audio_engine.dfy | `AudioEngine` | ambient-sound choice, binaural table, breathing-guide loop, ducking |
| history_panel.dfy | `HistoryPanel` | metric averages, archetype choice, newest-first log |
| service_worker.dfy | `ServiceWorker` | precache on install, cache cleanup on activate, cache-first and stale-while-revalidate fetches |

The code falls into two kinds, and the model follows the same split.

**Pure helpers** become functions with lemmas. These are the tables, `cleanJsonString`, the merge and the keyword test.

**Objects and closures that change state** become classes whose fields are that state:

- `AdaptiveVoiceDetector`, the worklet processor and `ZenLiveSession`;
- the hook's `state` / `zenData` / refs;
- the components' `useState` values and interval locals;
- Cache Storage.

Each method is proved to perform a named transition function of the old state: `ensures State() == F(old(State()), …)`. The properties are then proved about those functions. Timers, intervals, SDK callbacks and browser events are methods that the environment calls in any order. The wall clock, `Math.random`, the microphone permission, the API key, the model's reply, `JSON.parse` and the network are parameters.

## Model

| member | source | states |
|---|---|---|
| AudioManager.ClampFloor | services/audioManager.ts:131 | the clamped floor always lies in [0.0005, 0.05] and a floor already inside is unchanged |
| AudioManager.AdaptFloor | services/audioManager.ts:121-128 | the adapted floor lies strictly between the RMS and the old floor when the block is quieter, and between the old floor and the RMS otherwise |
| AudioManager.StepGate | services/audioManager.ts:121-159 | after one block the floor is clamped, the hold stays in [0, 5] and the result equals the new open flag. A closed gate opens iff rms > 5·floor, reloading the hold to 5. An open gate accepts rms > 2·floor and reloads 5; otherwise it spends one hold unit, or closes when the hold is 0 |
| AudioManager.FloorMovesTowardRms | services/audioManager.ts:121-131 | a quieter block lowers the floor, never below the RMS unless clamped at 0.0005; a louder one raises it by at most 0.001·(rms − floor) |
| AudioManager.Run | services/audioManager.ts:112-160 | a run of blocks yields one verdict per block, the first being the accept decision `StepGate` gives the first block |
| AudioManager.OpenGateAcceptsWithinHold | services/audioManager.ts:136-146 | an open gate holding h accepts the next h blocks whatever their level, and stays open |
| AudioManager.QuietBlocksCloseAfterHold | services/audioManager.ts:141-149 | from an open gate holding h, h quiet blocks are accepted and the next is refused, closing the gate |
| AudioManager.OpenedGateHoldsFiveBlocks | services/audioManager.ts:136-159 | after a loud block opens the gate, exactly five quiet blocks pass and the sixth closes it |
| AudioManager.SilenceNeverOpens | services/audioManager.ts:151-159 | a closed gate fed only blocks at or below 5·0.0005 never opens and sends nothing |
| AudioManager.FloorStaysClamped | services/audioManager.ts:131 | the floor stays in [0.0005, 0.05] and the hold in [0, 5] over any sequence of blocks |
| AudioManager.AdaptiveVoiceDetector.constructor | services/audioManager.ts:99-110 | starts closed, floor 0.002, hold 0 |
| AudioManager.AdaptiveVoiceDetector.Process | services/audioManager.ts:112-160 | updates the three fields and returns exactly what `StepGate` gives for the block's RMS |
| AudioManager.StridedSumSqSamplesEvery4th | services/audioManager.ts:114-118 | the energy depends only on samples 0, 4, 8, …: blocks that agree there have equal sums |
| AudioManager.StridedSumSq | services/audioManager.ts:113-118 | the sum of squares of samples 0, 4, 8, … is never negative |
| AudioManager.StridedMeanSquare | services/audioManager.ts:113-119 | the summing loop returns the strided sum divided by length/4, which is non-negative |
| AudioManager.ResampledLengthCoversInput | services/audioManager.ts:30-31 | the output length is the least whole number of 16 kHz samples covering the input: `ceil(n / ratio)` |
| AudioManager.ResampledLength | services/audioManager.ts:30-31 | at 16 kHz the length is unchanged and an empty block stays empty |
| AudioManager.Resample | services/audioManager.ts:25-44 | at 16 kHz the block passes through unchanged; otherwise `ceil(n / ratio)` values of the corrected interpolation are produced (see Findings) |
| AudioManager.InterpolationAtTargetRateIsIdentity | services/audioManager.ts:30-42 | at ratio 1 the interpolation formula reproduces every input sample |
| AudioManager.ReadIndexInBlock | services/audioManager.ts:33-39 | every output sample's read index lies inside the block |
| AudioManager.InterpolateBetween | services/audioManager.ts:39-42 | each interpolated value lies within any bounds that hold the input |
| AudioManager.ResampleStaysInRange | services/audioManager.ts:25-44 | resampling never leaves the input's range, so a block in [-1, 1] stays there |
| AudioManager.InterpolateFollowsRamp | services/audioManager.ts:39-42 | the corrected interpolation reproduces any linear signal c·t + d exactly at the read position |
| AudioManager.AsWrittenBreaksRampAtZero | services/audioManager.ts:40 | as written, `channelData[index + 1] \|\| a` replaces a neighbour equal to 0.0 by `a`: at 44.1 kHz output sample 1 of the ramp -3,-2,-1,0,1 is -1 instead of -0.24375 |
| AudioManager.LerpAt | services/audioManager.ts:36-42 | at a whole-number read position inside the block the sample there is returned |
| AudioManager.Interpolate | services/audioManager.ts:33-42 | at 16 kHz output sample i is input sample i |
| AudioManager.InterpolateAsWritten | services/audioManager.ts:36-42 | the `\|\| a` reading agrees with the corrected interpolation on every block that holds no sample equal to 0.0 |
| AudioManager.InterpolatedSample | services/audioManager.ts:34-42 | the loop body, with the corrected neighbour read of the first Finding, computes linear interpolation at `i * ratio` |
| AudioManager.ResampleAt | services/audioManager.ts:33-43 | sample i of the resampled block is the interpolation at `i * ratio` |
| AudioManager.AudioInputProcessor.constructor | services/audioManager.ts:6-14 | a 4096-slot buffer, empty, nothing posted |
| AudioManager.AudioInputProcessor.Flush | services/audioManager.ts:66-71 | posts exactly the filled part of the buffer as one block and empties it |
| AudioManager.AudioInputProcessor.AppendToBuffer | services/audioManager.ts:50-58 | the value is recorded; below 2048 it only waits, and at 2048 the full buffer is posted; earlier posts are untouched |
| AudioManager.AudioInputProcessor.PushData | services/audioManager.ts:60-64 | every value of the block is appended in order |
| AudioManager.AudioInputProcessor.PushResampled | services/audioManager.ts:29-44 | exactly the resampled block (corrected interpolation) is appended, in order |
| AudioManager.AudioInputProcessor.Process | services/audioManager.ts:16-48 | returns true and appends the first channel, passed through at 16 kHz and otherwise resampled with the corrected interpolation, or nothing when there is no input |
| AudioManager.WorkletLosesNothing | services/audioManager.ts:50-71 | every posted block has 2048 samples, and the posted blocks followed by the pending buffer equal all values appended, in order |
| AudioManager.Clamp | services/audioManager.ts:81 | the clamp lies in [-1, 1] and is the identity inside |
| AudioManager.Quantize | services/audioManager.ts:81-82 | the int16 lies in [-32768, 32767]; ≥1 maps to 32767 and ≤-1 to -32768; the sign is kept |
| AudioManager.Int16LE | services/audioManager.ts:82 | two bytes per sample |
| AudioManager.FromInt16LE | services/geminiService.ts:475 | an `Int16Array` read of two little-endian bytes lies in the int16 range |
| AudioManager.Int16RoundTrip | services/audioManager.ts:82 | reading back the two little-endian bytes gives the int16 written |
| AudioManager.Pcm16 | services/audioManager.ts:77-85 | the PCM buffer has 2·n bytes |
| AudioManager.FloatTo16BitPCM | services/audioManager.ts:77-85 | the loop fills a fresh buffer with each quantised sample little-endian at offset 2·i |
| AudioManager.BinaryString | services/audioManager.ts:89-94 | one character per byte, with the byte's code |
| AudioManager.Btoa | services/audioManager.ts:95 | `btoa` succeeds iff every character is below 256 |
| AudioManager.Base64EncodeAudio | services/audioManager.ts:87-96 | the result is the RFC 4648 encoding of the PCM bytes, and decoding it gives those bytes back |
| Base64.DecodeChar | services/geminiService.ts:470 | a decoded character is a sextet that encodes back to that character |
| Base64.DecodeEncodeChar | services/audioManager.ts:95 | each sextet's character decodes to that sextet |
| Base64.Join | services/geminiService.ts:470 | 2 to 4 sextets give 1 to 3 bytes |
| Base64.Split | services/audioManager.ts:95 | 1 to 3 bytes give n+1 sextets that join back to the bytes |
| Base64.Sextets | services/audioManager.ts:95 | every value is a sextet, one per started group of 6 bits |
| Base64.EncodeChars | services/audioManager.ts:95 | one alphabet character per sextet |
| Base64.Encode | services/audioManager.ts:95 | the encoding's length is a multiple of 4 |
| Base64.EncodedLength | services/audioManager.ts:95 | sextets plus padding always fill whole groups of four |
| Base64.DecodeSextets | services/geminiService.ts:470 | the byte count is 3 per full group plus the partial group's count minus one |
| Base64.RemoveAsciiSpace | services/geminiService.ts:470 | `atob` skips ASCII whitespace and the result is never longer |
| Base64.DecodeChars | services/geminiService.ts:470 | a successful decode yields one sextet per character |
| Base64.SextetCountNotOneMod4 | services/audioManager.ts:95 | an encoding never has a lone trailing sextet |
| Base64.SextetsRoundTrip | services/audioManager.ts:95 | decoding the sextets of any bytes gives the bytes back |
| Base64.DecodeCharsOfEncoded | services/geminiService.ts:470 | the characters of encoded sextets decode to those sextets |
| Base64.NoSpaceUnchanged | services/geminiService.ts:470 | text without whitespace is unchanged by the skip |
| Base64.EncodedHasNoSpace | services/audioManager.ts:95 | an encoding contains no whitespace |
| Base64.StripPaddingOf | services/geminiService.ts:470 | up to two trailing `=` of a whole group are removed, and nothing else is |
| Base64.PaddingStripped | services/geminiService.ts:470 | stripping an encoding's padding leaves its sextet characters |
| Base64.Decode | services/geminiService.ts:470 | a successful `atob` yields at most three bytes per four characters; `RoundTrip` proves it inverts the encoding |
| Base64.RoundTrip | services/audioManager.ts:95 | `atob(btoa(b)) == b` for every byte string |
| Text.TrimStart | hooks/useZenSession.ts:117 | a suffix of the input that starts with a non-space, after only whitespace |
| Text.TrimEnd | hooks/useZenSession.ts:117 | a prefix of the input that ends with a non-space, before only whitespace |
| Text.TrimEmptyIffAllSpace | hooks/useZenSession.ts:117 | `trim()` is empty iff every character is whitespace |
| Text.IncludesIffOccurs | data/emergencyKeywords.ts:19 | `includes` holds iff the keyword occurs at some position |
| Text.Includes | data/emergencyKeywords.ts:19 | text that includes a keyword is at least as long as the keyword |
| Text.IndexOf | services/geminiService.ts:15 | `indexOf` finds the first occurrence, or reports that there is none |
| Text.LastIndexOf | services/geminiService.ts:16 | `lastIndexOf` finds the last occurrence, or reports that there is none |
| Text.LowerCharIdempotent | data/emergencyKeywords.ts:17 | lowercasing a lowercased character changes nothing |
| Text.LowerChar | data/emergencyKeywords.ts:17 | never yields an ASCII capital, and changes an ASCII character iff it is a capital |
| Text.ToLower | data/emergencyKeywords.ts:17 | same length, each character lowercased |
| GeminiService.RemoveJsonFences | services/geminiService.ts:14 | removing the opening fences never lengthens the text |
| GeminiService.StripTrailingFence | services/geminiService.ts:14 | the result is a prefix cut exactly at the leftmost trailing fence, or the whole text when there is none |
| GeminiService.CleanJsonString | services/geminiService.ts:12-22 | empty input gives "{}"; otherwise the brace extraction of the unfenced text |
| GeminiService.ExtractBracesSpan | services/geminiService.ts:15-20 | with a `{` before a later `}` the result starts with `{`, ends with `}` and is the outermost span; otherwise the text is unchanged |
| GeminiService.ExtractBraces | services/geminiService.ts:15-20 | never longer than its input, and any text it cuts out starts with `{` and ends with `}` |
| GeminiService.OutermostSpan | services/geminiService.ts:15-19 | a span from the first `{` to the last `}` contains every brace-delimited substring |
| GeminiService.CleanJsonStringExtractsBraces | services/geminiService.ts:12-22 | a non-empty reply yields the span from its first `{` to its last `}`, or the unfenced text when there is none |
| GeminiService.RemoveJsonFencesKeeps | services/geminiService.ts:14 | text without "```json" is left alone |
| GeminiService.FencedBodyHasNoJsonFence | services/geminiService.ts:14 | a fenced object's body holds no opening fence |
| GeminiService.OpeningFenceRemoved | services/geminiService.ts:14 | the opening fence and the newline after it are removed |
| GeminiService.ClosingFenceRemoved | services/geminiService.ts:14 | the trailing fence is removed |
| GeminiService.BracesOfObjectLine | services/geminiService.ts:15-20 | a braced object followed by a newline yields the object |
| GeminiService.CleanUnwrapsFencedObject | services/geminiService.ts:12-22 | a markdown-fenced JSON object is unwrapped to exactly the object |
| GeminiService.WithDefaults | services/geminiService.ts:170-179 | transcript, breathing, ambient sound, stage and dimensions are always present. Present values are kept and every other field passes through |
| GeminiService.WithDefaultsIdempotent | services/geminiService.ts:170-179 | filling defaults twice is filling them once |
| GeminiService.Fallback | services/geminiService.ts:180-193 | the parse-failure reply is neutral, has confidence 0, 'none' breathing, reflexive stage, half dimensions and the input as transcript, and no ambient sound |
| GeminiService.SendZenTextQuery | services/geminiService.ts:97-194 | fails iff the API key is empty (with API_KEY_MISSING) or `generateContent` throws (with its error). A parsed reply carries the defaulted fields; an unparsable one has confidence 0, the input as transcript and no ambient sound |
| GeminiService.Pow2 | services/geminiService.ts:403 | `2^n` is at least 1, and at least 2 from n = 1 |
| GeminiService.ReconnectDelay | services/geminiService.ts:400-404 | the delay is the cap of 15000 or `1000·2^n + jitter`, whichever is smaller, and at least 2000 ms from attempt 1 |
| GeminiService.DelayCappedFromFourthAttempt | services/geminiService.ts:400-404 | from the fourth attempt the delay is exactly 15000 ms |
| GeminiService.DelayNonDecreasing | services/geminiService.ts:402-404 | later attempts never wait less |
| GeminiService.OnLoss | services/geminiService.ts:390-419 | a loss is ignored iff manually closed; close code 4003/401 disconnects; at 5 attempts it gives up; otherwise the counter is incremented and a retry is scheduled |
| GeminiService.IsAuthFailure | services/geminiService.ts:394 | close codes 4003 and 401 are authentication failures; `OnLoss` turns them into a disconnect without retry |
| GeminiService.LossRun | services/geminiService.ts:390-419 | one action per consecutive loss |
| GeminiService.ClosedIgnoresLosses | services/geminiService.ts:390-419 | once manually closed every loss is ignored |
| GeminiService.ConsecutiveLosses | services/geminiService.ts:400-418 | consecutive losses retry as attempts n+1 … 5, with delays in [2000, 15000]; every later loss gives up |
| GeminiService.ChunkStart | services/geminiService.ts:488 | a chunk starts no earlier than now and no earlier than the cursor |
| GeminiService.Int16Samples | services/geminiService.ts:475-479 | half as many samples as bytes, each in [-1, 1) |
| GeminiService.Pcm16Bytes | services/audioManager.ts:80-83 | bytes 2i and 2i+1 of the PCM buffer are sample i's little-endian int16 |
| GeminiService.Int16SamplesOfPcm16 | services/geminiService.ts:475-479 | decoding a PCM buffer gives the quantised samples scaled by 1/32768 |
| GeminiService.CapturedAudioDecodes | services/geminiService.ts:470-479 | audio encoded by the capture path decodes on the playback path to its quantised samples |
| GeminiService.ToByteArray | services/geminiService.ts:470-473 | the copy loop fills a fresh array with the decoded bytes |
| GeminiService.Int16ToFloat32 | services/geminiService.ts:475-479 | the conversion loop yields the int16 view divided by 32768 |
| GeminiService.DecodeChunk | services/geminiService.ts:470-479 | decoding a chunk gives the samples of its base64 payload, or fails where `atob` throws |
| GeminiService.ChunkSamples | services/geminiService.ts:470-480 | fails when `atob` fails; otherwise one sample per two bytes, each in [-1, 1) |
| GeminiService.ZenStateArgs | services/geminiService.ts:431-447 | no more updates than calls |
| GeminiService.ZenStateIds | services/geminiService.ts:436-444 | one tool response per update handed on |
| GeminiService.ZenStateArgsSelects | services/geminiService.ts:433-435 | an update reaches the state callback iff some call named `update_zen_state` carries it |
| GeminiService.CollectToolCalls | services/geminiService.ts:432-446 | the loop hands on the arguments of exactly the `update_zen_state` calls, in order, and answers their ids only while a session is open |
| GeminiService.Warmed | services/geminiService.ts:248-263 | both contexts exist afterwards, a new one starting at time 0, and the playback invariant is kept |
| GeminiService.Connected | services/geminiService.ts:265-371 | a fresh connect clears the manual flag and the counter, and a reconnect keeps them. It fails iff the microphone is refused or the key is blank, with the matching error. The session opens only on success, and the invariant is kept |
| GeminiService.QueueStopped | services/geminiService.ts:505-511 | no sources and no queue remain, and the cursor is reset to now when a context exists |
| GeminiService.Disconnected | services/geminiService.ts:513-547 | manually closed, no session, listeners and timers gone, queue stopped, not speaking. The reason is reported on every call, and the counter is kept |
| GeminiService.AfterLoss | services/geminiService.ts:390-419 | a manually closed session ignores the loss, and the session invariant is kept |
| GeminiService.RetryScheduled | services/geminiService.ts:400-415 | a scheduled retry keeps the session invariant |
| GeminiService.LossOutcomes | services/geminiService.ts:390-419 | an auth failure, or a loss after five retries have been used (the sixth loss in a row), disconnects with its reason; otherwise the counter increments, "Reconnecting..." is reported, the session is dropped and one retry is pending |
| GeminiService.RetryFired | services/geminiService.ts:409-415 | the retry timer does nothing once manually closed; otherwise it reconnects with `connect(true)`, and a failure counts as another loss |
| GeminiService.WentOffline | services/geminiService.ts:374-380 | going offline stops the queue and reports the loss without closing the session |
| GeminiService.CameOnline | services/geminiService.ts:382-388 | coming online reconnects only when not manually closed and no session exists |
| GeminiService.ChunkScheduled | services/geminiService.ts:463-503 | a chunk starts at max(now, cursor) and the cursor advances by its duration on a fresh source. Chunks never overlap, and an undecodable chunk is refused |
| GeminiService.ChunkKeepsOrder | services/geminiService.ts:488-490 | appending a chunk at or after the cursor keeps the queue free of overlaps |
| GeminiService.EndsByLast | services/geminiService.ts:488-490 | in the queue every chunk ends by the end of the last |
| GeminiService.SourceFinished | services/geminiService.ts:493-501 | the source is removed. When none remain the AI stops speaking, and the cursor is resynced only if now exceeds it by more than 0.5 s |
| GeminiService.Interrupted | services/geminiService.ts:456-460 | an interruption empties the queue, reports inactivity and schedules the 500 ms speaking reset |
| GeminiService.ToolCallsHandled | services/geminiService.ts:431-447 | every `update_zen_state` argument is handed on in order, and answered only while a session exists |
| GeminiService.AudioArrived | services/geminiService.ts:449-454 | the AI is marked speaking, activity is reported, and the chunk is scheduled when it decodes |
| GeminiService.MessageHandled | services/geminiService.ts:428-461 | a message rearms the idle timer, hands on the state updates, reports audio activity, and on interruption stops the queue |
| GeminiService.BlockCaptured | services/geminiService.ts:309-323 | a block is dropped while the AI speaks. Otherwise it is sent, as base64 PCM, exactly when the detector accepts it and a session exists, and an accepted block rearms the idle timer |
| GeminiService.ZenLiveSession.constructor | services/geminiService.ts:229-245 | a new session: nothing open, counter 0, a fresh detector |
| GeminiService.ZenLiveSession.WarmupAudio | services/geminiService.ts:248-263 | performs `Warmed` |
| GeminiService.ZenLiveSession.ResetIdleTimer | services/geminiService.ts:421-426 | only the idle timer is rearmed |
| GeminiService.ZenLiveSession.Connect | services/geminiService.ts:265-371 | performs `Connected` and returns its outcome |
| GeminiService.ZenLiveSession.OnOpen | services/geminiService.ts:357-360 | only the retry counter is reset to 0 |
| GeminiService.ZenLiveSession.StopAudioQueue | services/geminiService.ts:505-511 | performs `QueueStopped` |
| GeminiService.ZenLiveSession.Disconnect | services/geminiService.ts:513-547 | performs `Disconnected` |
| GeminiService.ZenLiveSession.HandleConnectionLoss | services/geminiService.ts:390-419 | performs `AfterLoss` |
| GeminiService.ZenLiveSession.ScheduleRetry | services/geminiService.ts:400-415 | performs `RetryScheduled` |
| GeminiService.ZenLiveSession.RetryTimerFires | services/geminiService.ts:409-415 | performs `RetryFired` |
| GeminiService.ZenLiveSession.NetworkOffline | services/geminiService.ts:374-380 | performs `WentOffline` |
| GeminiService.ZenLiveSession.NetworkRecovery | services/geminiService.ts:382-388 | performs `CameOnline` |
| GeminiService.ZenLiveSession.IdleTimeout | services/geminiService.ts:423-425 | 60 s without activity disconnects with "Timeout due to inactivity" |
| GeminiService.ZenLiveSession.PlayAudioChunk | services/geminiService.ts:463-503 | performs `ChunkScheduled` and reports whether the chunk decoded |
| GeminiService.ZenLiveSession.SourceEnded | services/geminiService.ts:493-501 | performs `SourceFinished` |
| GeminiService.ZenLiveSession.SpeakingResetFires | services/geminiService.ts:458 | the 500 ms timer clears the speaking flag |
| GeminiService.ZenLiveSession.AdvanceClock | services/geminiService.ts:488 | the output clock only moves forward, and nothing else changes |
| GeminiService.ZenLiveSession.HandleToolCalls | services/geminiService.ts:431-447 | performs `ToolCallsHandled` |
| GeminiService.ZenLiveSession.ReceiveAudio | services/geminiService.ts:449-454 | performs `AudioArrived` |
| GeminiService.ZenLiveSession.Interrupt | services/geminiService.ts:456-460 | performs `Interrupted` |
| GeminiService.ZenLiveSession.HandleMessage | services/geminiService.ts:428-461 | performs `MessageHandled` |
| GeminiService.ZenLiveSession.OnWorkletMessage | services/geminiService.ts:309-323 | performs `BlockCaptured` on the session and on its detector |
| UseZenSession.FriendlyReason | hooks/useZenSession.ts:39 | the inactivity reason is shown as "Đã ngắt kết nối (Tự động)", and any other reason unchanged |
| UseZenSession.Disconnected | hooks/useZenSession.ts:29-41 | "Reconnecting..." warns and goes to processing, keeping the refs. Anything else clears both refs and goes idle, with an info notice only when a non-empty reason exists. The snapshot and the ref invariant are kept |
| UseZenSession.TornDown | hooks/useZenSession.ts:35-37 | tearing the live session down leaves the hook idle with no refs |
| UseZenSession.DisconnectKeepsSessionOnlyWhenReconnecting | hooks/useZenSession.ts:30-37 | the session survives a disconnect iff the reason is "Reconnecting..." and a session existed, and the hook goes idle iff the reason is another one |
| UseZenSession.IdleTimeoutNotice | hooks/useZenSession.ts:38-40 | the inactivity reason gives the friendly info notice, and no reason gives none |
| UseZenSession.SilentDisconnectIdempotent | hooks/useZenSession.ts:35-40 | a second reasonless disconnect changes nothing |
| UseZenSession.Merge | hooks/useZenSession.ts:46 | the first update becomes the snapshot; afterwards, for each of the twelve fields, a present field overwrites and an absent one keeps its prior value |
| UseZenSession.MergeEmptyKeeps | hooks/useZenSession.ts:46 | an empty update leaves the snapshot unchanged |
| UseZenSession.MergeIdempotent | hooks/useZenSession.ts:46 | applying the same update twice is applying it once |
| UseZenSession.MergeComposes | hooks/useZenSession.ts:46 | two updates in a row are one update merged from both |
| UseZenSession.CompleteUpdateReplaces | hooks/useZenSession.ts:46 | an update with every field replaces the snapshot |
| UseZenSession.ParseFailureLeavesSoundToEmotion | hooks/useZenSession.ts:46 | after an unparsable text reply, an emotion-only update leaves the ambient sound absent, so the sound follows the emotion (anxious plays rain) |
| UseZenSession.StateChanged | hooks/useZenSession.ts:44-55 | the snapshot becomes the merge. The emergency callback fires exactly when the merged wisdom text is flagged, and then the live session is disconnected |
| UseZenSession.CrisisTextStopsSession | hooks/useZenSession.ts:48-52 | wisdom text containing "muốn chết" fires the emergency and ends the voice session |
| UseZenSession.FlaggedSnapshotRefires | hooks/useZenSession.ts:45-50 | a flagged snapshot fires the emergency again on every update that leaves its wisdom text alone |
| UseZenSession.ActivityChanged | hooks/useZenSession.ts:71 | audio activity true/false shows speaking/listening and changes nothing else |
| UseZenSession.ConnectPressed | hooks/useZenSession.ts:58-105 | from a non-idle state only the live session is disconnected. From idle: an opened session listens with both refs; a refused key goes idle with no session; a throw goes idle with "Lỗi kết nối" and tears down the session |
| UseZenSession.ConnectToggles | hooks/useZenSession.ts:58-62 | pressing connect twice, from idle, opens a session and then closes it |
| UseZenSession.DisconnectPressed | hooks/useZenSession.ts:108-113 | the manual disconnect acts only when a session exists |
| UseZenSession.DisconnectIdempotent | hooks/useZenSession.ts:108-113 | a second manual disconnect changes nothing |
| UseZenSession.TextSent | hooks/useZenSession.ts:116-144 | whitespace-only text returns nothing and changes nothing. Otherwise any live session is torn down; a success replaces the snapshot, returns it and goes idle; a failure goes idle with "Không thể xử lý yêu cầu" and returns nothing |
| UseZenSession.TextQueryEndsVoiceSession | hooks/useZenSession.ts:117-118 | a real text query always ends a running voice session |
| UseZenSession.ZenSessionHook.constructor | hooks/useZenSession.ts:22-26 | idle, no snapshot, no refs |
| UseZenSession.ZenSessionHook.HandleDisconnect | hooks/useZenSession.ts:29-41 | performs `Disconnected` |
| UseZenSession.ZenSessionHook.TearDownLiveSession | hooks/useZenSession.ts:51 | performs `TornDown` |
| UseZenSession.ZenSessionHook.HandleStateChange | hooks/useZenSession.ts:44-55 | performs `StateChanged` |
| UseZenSession.ZenSessionHook.OnAudioActivity | hooks/useZenSession.ts:71 | performs `ActivityChanged` |
| UseZenSession.ZenSessionHook.Connect | hooks/useZenSession.ts:58-105 | performs `ConnectPressed` |
| UseZenSession.ZenSessionHook.Disconnect | hooks/useZenSession.ts:108-113 | performs `DisconnectPressed` |
| UseZenSession.ZenSessionHook.SendText | hooks/useZenSession.ts:116-144 | performs `TextSent` and returns its reply |
| EmergencyKeywords.AnyIncluded | data/emergencyKeywords.ts:18-19 | `some(includes)` holds iff some keyword occurs in the text |
| EmergencyKeywords.DetectEmergency | data/emergencyKeywords.ts:15-20 | empty text is never flagged; text is flagged iff its lowercase form includes a Vietnamese or English keyword |
| EmergencyKeywords.LowerOfLower | data/emergencyKeywords.ts:1-17 | lowercasing text that is already lowercase changes nothing |
| EmergencyKeywords.DetectionIgnoresCase | data/emergencyKeywords.ts:17 | text and its lowercase form are flagged alike |
| EmergencyKeywords.KeywordFlagged | data/emergencyKeywords.ts:1-19 | each lowercase keyword is itself flagged |
| EmergencyKeywords.WantToDieFlagged | data/emergencyKeywords.ts:3 | "muốn chết" is flagged |
| EmergencyKeywords.LowerKeepsOccurrence | data/emergencyKeywords.ts:17 | an occurrence survives lowercasing both texts |
| EmergencyKeywords.FlaggedInsideIsFlagged | data/emergencyKeywords.ts:17-19 | any text containing a flagged text is flagged |
| BreathingCircle.TimingsFor | components/BreathingCircle.tsx:18-22 | 4-7-8 is (4,7,8,0), coherent is (5,0,5,0), anything else is box (4,4,4,4) |
| BreathingCircle.TableTimingsOk | components/BreathingCircle.tsx:18-22 | every entry of the table has inhale and exhale of at least one second |
| BreathingCircle.NextPhase | components/BreathingCircle.tsx:43-56 | the successor is a different phase, and zero-length phases are skipped, so it lasts at least one second |
| BreathingCircle.Tick | components/BreathingCircle.tsx:39-63 | above 1 the countdown drops by one. At ≤1 the next phase starts with its full duration. The cycle count grows exactly when the phase returns to inhale |
| BreathingCircle.TickKeepsRunning | components/BreathingCircle.tsx:40-61 | the countdown stays between 1 and the current phase's duration |
| BreathingCircle.PhaseLastsCountdown | components/BreathingCircle.tsx:40-61 | a phase lasts exactly its countdown, then the next phase starts full |
| BreathingCircle.FullCycle | components/BreathingCircle.tsx:39-63 | one cycle takes inhale+hold+exhale+rest ticks and returns to inhale with one more cycle counted |
| BreathingCircle.Cycles | components/BreathingCircle.tsx:39-63 | k cycles take k·duration ticks from the start |
| BreathingCircle.DisplayedCycle | components/BreathingCircle.tsx:115 | the progress line shows a cycle in 1..3, namely count+1 while below 3 |
| BreathingCircle.CompletesAfterThreeCycles | components/BreathingCircle.tsx:66-71 | the completion timer fires after 3·duration+1 ticks, with three cycles done and "3 / 3" shown |
| BreathingCircle.FourSevenEightDelay | components/BreathingCircle.tsx:66-71 | the 4-7-8 exercise completes after 58.5 s |
| BreathingCircle.BreathingCircleView.constructor | components/BreathingCircle.tsx:25-30 | starts reset: inhale, countdown 4, no cycles |
| BreathingCircle.BreathingCircleView.Configure | components/BreathingCircle.tsx:24-37 | the interval runs iff active with a real exercise, starting at a full inhale; otherwise the view resets to inhale/4/0 |
| BreathingCircle.BreathingCircleView.OnInterval | components/BreathingCircle.tsx:39-63 | performs `Tick` and keeps the countdown within the phase |
| EmergencyProtocol.RunBreathing | components/EmergencyProtocol.tsx:38-57 | above 1 the counter drops and the state stays; at ≤1 the state advances in→hold→out→in with counter 4; the counter stays in [1, 4] |
| EmergencyProtocol.StateSpansFourTicks | components/EmergencyProtocol.tsx:35-57 | each breathing state lasts four ticks |
| EmergencyProtocol.TwelveTickCycle | components/EmergencyProtocol.tsx:35-57 | in-hold-out takes twelve ticks and returns to the start |
| EmergencyProtocol.InstructionRings | components/EmergencyProtocol.tsx:95-98 | each instruction draws its own ring colour, and the initial one draws inhale |
| EmergencyProtocol.HoldRingDrawn | components/EmergencyProtocol.tsx:96-97 | the hold text draws the hold ring |
| EmergencyProtocol.ExhaleLacksInhale | components/EmergencyProtocol.tsx:96 | the exhale text does not contain "HÍT" |
| EmergencyProtocol.ExhaleLacksHold | components/EmergencyProtocol.tsx:97 | the exhale text does not contain "GIỮ" |
| EmergencyProtocol.ActiveSet | components/EmergencyProtocol.tsx:20-30 | deactivating returns to alert; activating keeps the phase and sounds the alert in the alert phase |
| EmergencyProtocol.AlertElapsedAsWritten | components/EmergencyProtocol.tsx:29-37 | as written the breathing screen starts a fresh counter but keeps the shown count and instruction |
| EmergencyProtocol.AlertElapsed | components/EmergencyProtocol.tsx:29-37 | corrected: the breathing screen starts with the display in step with a fresh inhale |
| EmergencyProtocol.Ticked | components/EmergencyProtocol.tsx:38-59 | the shown count follows the counter, and the instruction changes exactly when the state does |
| EmergencyProtocol.ResourcesShown | components/EmergencyProtocol.tsx:62 | the 45 s timer or the button shows the resources |
| EmergencyProtocol.StaleInstructionOnSecondCrisis | components/EmergencyProtocol.tsx:12-37 | as written, a second crisis opens breathing with "THỞ RA / EXHALE" shown while the counter is at inhale |
| EmergencyProtocol.BreathingScreenStartsInSync | components/EmergencyProtocol.tsx:12-37 | with the correction the breathing screen always opens with "HÍT VÀO / INHALE" and count 4 |
| EmergencyProtocol.EmergencyProtocolView.constructor | components/EmergencyProtocol.tsx:11-13 | alert phase, count 4, "HÍT VÀO" |
| EmergencyProtocol.EmergencyProtocolView.SetActive | components/EmergencyProtocol.tsx:20-30 | performs `ActiveSet` |
| EmergencyProtocol.EmergencyProtocolView.OnAlertTimer | components/EmergencyProtocol.tsx:29 | performs the corrected `AlertElapsed` |
| EmergencyProtocol.EmergencyProtocolView.OnBreathingInterval | components/EmergencyProtocol.tsx:38-59 | performs `Ticked` |
| EmergencyProtocol.EmergencyProtocolView.ShowResources | components/EmergencyProtocol.tsx:62 | performs `ResourcesShown` |
| AudioEngine.SoundType | components/AudioEngine.tsx:93-100 | an explicit ambient sound always wins |
| AudioEngine.EmotionSounds | components/AudioEngine.tsx:94-100 | without one: anxious→rain, sad→bowl, joyful→bell, calm→mekong, each iff; monsoon only when explicit |
| AudioEngine.VoiceFor | components/AudioEngine.tsx:114-161 | silence makes no source; every other sound is quieter than 0 dB with a cutoff of 300-2000 Hz |
| AudioEngine.NoAmbientIff | components/AudioEngine.tsx:87-105 | no ambient source iff not ready, muted, or the chosen sound is silence |
| AudioEngine.AmbientFor | components/AudioEngine.tsx:87-114 | nothing runs when not ready or muted; otherwise an explicit ambient sound decides the voice |
| AudioEngine.BinauralTable | components/AudioEngine.tsx:190-203 | oscillators exist iff the emotion is sad, stressed, calm, seeking, anxious or confused |
| AudioEngine.BinauralFor | components/AudioEngine.tsx:185-210 | a pair runs iff ready, unmuted and the emotion is in the table, the right ear always above the left |
| AudioEngine.BeatInBand | components/AudioEngine.tsx:185-209 | the right channel exceeds the left by the table's beat: delta (below 4 Hz) for sad/stressed, theta (4-8 Hz) for calm/seeking, alpha (8-13 Hz) for anxious/confused |
| AudioEngine.BreathingFor | components/AudioEngine.tsx:243-257 | a loop runs iff ready, not muted and breathing is set and not 'none' |
| AudioEngine.GuideFor | components/AudioEngine.tsx:250-257 | the inhale is always 4 s, a second hold exists iff box breathing, an 8 s exhale iff 4-7-8 |
| AudioEngine.GuidePeriods | components/AudioEngine.tsx:250-257 | the loop period is 19 s for 4-7-8, 16 s for box and 12 s otherwise |
| AudioEngine.RampsFitPeriod | components/AudioEngine.tsx:265-272 | each frequency instruction of an iteration starts once the previous one is complete, all end by the loop period, and the pitch ends at the 200 Hz the next iteration starts from |
| AudioEngine.CoherentGuideDiffersFromCircle | components/AudioEngine.tsx:254-257 | the coherent-breathing tone loops every 12 s with a 4 s hold while the circle runs a 10 s cycle with none |
| AudioEngine.GuideMatchesCircle | components/AudioEngine.tsx:250-257 | for 4-7-8 and box the tone's period equals the circle's cycle |
| AudioEngine.DuckingTarget | components/AudioEngine.tsx:290 | the target is negative and 10 dB lower while speaking |
| AudioEngine.AudioEngineView.constructor | components/AudioEngine.tsx:24-37 | not ready, not muted, no nodes |
| AudioEngine.AudioEngineView.AmbientEffect | components/AudioEngine.tsx:76-168 | the ambient node becomes the chosen one and the filter follows it; nothing else changes |
| AudioEngine.AudioEngineView.BinauralEffect | components/AudioEngine.tsx:171-227 | the binaural pair becomes the table's, and nothing else changes |
| AudioEngine.AudioEngineView.BreathingEffect | components/AudioEngine.tsx:231-285 | the breathing loop becomes the chosen one, and nothing else changes |
| AudioEngine.AudioEngineView.Render | components/AudioEngine.tsx:76-293 | after new props every running node matches the tables, and the volume ducks exactly when `isSpeaking` changes |
| AudioEngine.AudioEngineView.DuckingEffect | components/AudioEngine.tsx:288-293 | on a change of speaking the master volume moves to the ducking target when it exists |
| AudioEngine.AudioEngineView.ToggleMute | components/AudioEngine.tsx:56-73 | audio is enabled on first use at -15 dB and mute flips, with the nodes kept in step |
| HistoryPanel.SumBounds | components/HistoryPanel.tsx:27-29 | with metrics in [0, 1] the sum lies in [0, n] |
| HistoryPanel.Average | components/HistoryPanel.tsx:27-29 | 0 for an empty history; otherwise the average times the count is the sum |
| HistoryPanel.AverageInUnitRange | components/HistoryPanel.tsx:27-29 | every average lies in [0, 1] |
| HistoryPanel.MissingMetricsCountZero | components/HistoryPanel.tsx:23-25 | an entry without metrics adds 0 to the sum |
| HistoryPanel.ArchetypeConditions | components/HistoryPanel.tsx:32-44 | Warrior iff presence and coherence > 0.7; else Healer iff entanglement > 0.7; else Observer iff coherence > 0.8; else Seeker; never Void |
| HistoryPanel.ArchetypeOf | components/HistoryPanel.tsx:32-44 | the archetype is never Void |
| HistoryPanel.ObserverHasLowPresence | components/HistoryPanel.tsx:35-43 | an Observer has coherence > 0.8 and presence ≤ 0.7 |
| HistoryPanel.Analyze | components/HistoryPanel.tsx:16-54 | none iff the history is empty; otherwise the three averages, an archetype other than Void and its description |
| HistoryPanel.NoMetricsMakesSeeker | components/HistoryPanel.tsx:23-44 | a history without metrics makes a Seeker |
| HistoryPanel.NoMetricsSumZero | components/HistoryPanel.tsx:23-29 | without metrics every sum is 0 |
| HistoryPanel.Reversed | components/HistoryPanel.tsx:122 | the log has the same entries, last first |
| HistoryPanel.ReversedTwice | components/HistoryPanel.tsx:122 | reversing the copy twice gives the history back |
| HistoryPanel.LogNewestFirst | components/HistoryPanel.tsx:122 | a history in time order is listed newest first |
| HistoryPanel.SumOfReversed | components/HistoryPanel.tsx:27-29 | the reversed log has the same sums |
| ServiceWorker.AnyHostIncluded | service-worker.js:45-51 | the host test holds iff the hostname includes one of the listed hosts |
| ServiceWorker.RouteOf | service-worker.js:37-51 | non-GET requests are not intercepted; a GET goes cache-first iff its hostname includes a CDN host; the rest is app shell |
| ServiceWorker.SubdomainIsCdn | service-worker.js:50 | any host ending in gstatic.com is served cache-first |
| ServiceWorker.Opened | service-worker.js:53 | `caches.open` adds the named cache if missing and changes no other |
| ServiceWorker.Put | service-worker.js:61 | `put` stores the response in that cache only |
| ServiceWorker.Installed | service-worker.js:12-19 | install stores all three assets when each comes back ok, and otherwise nothing (addAll is atomic) |
| ServiceWorker.FirstInstallPrecachesShell | service-worker.js:6-16 | a first install holds exactly '/', '/index.html' and '/manifest.json' |
| ServiceWorker.Activated | service-worker.js:21-35 | a cache survives iff its name is the core or the CDN cache, unchanged |
| ServiceWorker.ActivateIdempotent | service-worker.js:24-31 | activating twice is activating once, and older core versions are gone |
| ServiceWorker.CdnFetched | service-worker.js:52-71 | a hit is served with no fetch. A miss serves the network's response and stores it only on status 200. A failed fetch is answered 408 |
| ServiceWorker.CdnHitIgnoresNetwork | service-worker.js:54-57 | a cached CDN response is served whatever the network would do |
| ServiceWorker.CdnSecondFetchHits | service-worker.js:58-62 | after a 200 fetch the next request is a hit |
| ServiceWorker.ShellFetched | service-worker.js:76-90 | the cached response if present, else the network's; a 200 always refreshes the cache |
| ServiceWorker.ShellServesStaleThenFresh | service-worker.js:78-89 | the old copy is served now and the fresh one next time |
| ServiceWorker.Fetched | service-worker.js:37-92 | non-GET requests are left alone and every GET is answered |
| ServiceWorker.FetchOnlyTouchesItsCache | service-worker.js:52-90 | a fetch deletes no cache and touches none but the core and CDN caches |
| ServiceWorker.Worker.constructor | service-worker.js:2-3 | the worker starts on the given Cache Storage |
| ServiceWorker.Worker.Install | service-worker.js:12-19 | performs `Installed` |
| ServiceWorker.Worker.Activate | service-worker.js:21-35 | deleting cache by cache performs `Activated` |
| ServiceWorker.Worker.Fetch | service-worker.js:37-92 | performs `Fetched` and answers with its outcome |

## Left out

- The Web Audio graph, the AudioWorklet thread, the `@google/genai` SDK, Tone.js and `window.aistudio` are outside the model. Their events (`onopen`, `onclose` with its code, messages, source `onended`, worklet messages) are methods, and their results are parameters.
- `Math.sqrt` is not modelled. The detector takes the block's RMS as a non-negative real, and the strided mean square under the root is computed by `StridedMeanSquare`.
- Floating point: samples, floors, clock times, delays and averages are Dafny reals. IEEE rounding and `Float32Array` storage are not modelled; `setInt16` truncation toward zero is.
- `Math.random` is a jitter parameter in [0, 500). Timers and intervals are events, and no wall clock is modelled beyond a monotone output clock.
- `JSON.parse` is a parameter returning an optional update, so a present JSON `null` (such as `breathing: null`, which `{...prev, ...data}` copies over the old value) cannot be expressed: an update field is either a value or absent. The model's reply text, the microphone permission and the API key are parameters too.
- `atob` is modelled as forgiving-base64: ASCII whitespace is skipped, one or two trailing `=` of a whole group are stripped, leftover bits are dropped, and any other `=` or non-alphabet character fails.
- AudioManager.Resample: runs the corrected interpolation of the first Finding, not `channelData[index + 1] || a` as written; `InterpolateAsWritten` models the written reading and agrees with it on blocks without an exact 0.0 sample.
- AudioManager.InterpolatedSample: computes the corrected interpolation of the first Finding, not the written `|| a` neighbour read.
- AudioManager.AudioInputProcessor.PushResampled: appends the corrected interpolation of the first Finding, not the written `|| a` values.
- AudioManager.AudioInputProcessor.Process: its resampling branch appends the corrected interpolation of the first Finding, not the written `|| a` values.
- EmergencyProtocol.EmergencyProtocolView.OnAlertTimer: runs the corrected `AlertElapsed` of the second Finding, which restarts the shown count and instruction; the component as written keeps them (`AlertElapsedAsWritten`).
- EmergencyKeywords.KeywordFlagged: stated for lowercase keywords only. Lowercasing covers ASCII, Latin-1, the Vietnamese letters and the Latin Extended Additional block, not full Unicode case mapping.
- The promise interleavings of `connect`, `sendText` and the `sessionPromise.then` chains are collapsed into sequential events.
- UseZenSession: the live session is a flag. Exceptions from `aistudio` and from `connect()` are folded into the `ConnectOutcome` and `Result` inputs, and `haptic` feedback is omitted.
- `playEmergencyAlert` (components/AudioEngine.tsx:14-22) only plays a sound.
- HistoryPanel's emotion colour table and date formatting are presentation only.
- ServiceWorker: URL parsing is not modelled; the request carries its hostname. `skipWaiting` / `clients.claim` and the background completion of the shell fetch are outside the model, so a shell fetch's cache update happens within the same event.
- App.tsx and the other UI components, services/db.ts, `analyzeEnvironment` and utils/designSystem.ts are not part of this model.

## Findings

| source | as written | input that shows it | evidently intended | confidence | as-written member | corrected member |
|---|---|---|---|---|---|---|
| services/audioManager.ts:39-42 | `channelData[index + 1] \|\| a` treats a neighbour equal to 0.0 as missing and uses `a` | at 44.1 kHz, block -3,-2,-1,0,1, output sample 1 (read offset 2.75625): as written gives -1, linear interpolation gives -0.24375 | fall back to `a` only past the end of the block | not executed | AudioManager.AsWrittenBreaksRampAtZero | AudioManager.InterpolateFollowsRamp |
| components/EmergencyProtocol.tsx:12-37 | the breathing effect restarts `counter` and `cycleState` but not the shown `breathCount` / `instruction` | activate, wait out the alert, 8 ticks, resources, deactivate, activate again: breathing opens showing "THỞ RA / EXHALE" while the counter is at inhale | each breathing screen starts at "HÍT VÀO / INHALE" with count 4 | not executed | EmergencyProtocol.StaleInstructionOnSecondCrisis | EmergencyProtocol.BreathingScreenStartsInSync |
