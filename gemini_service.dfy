/** services/geminiService.ts: the pure helpers (`cleanJsonString`, the
    default filling of `sendZenTextQuery`, the reconnection delay, the
    playback cursor and the PCM decoding of received audio) and the
    `ZenLiveSession` controller, a class whose SDK, Web Audio, network and
    timer callbacks are methods. */
module GeminiService {

  import opened Wrappers
  import opened ZenTypes
  import Text
  import Base64
  import AudioManager

  type byte = Base64.byte

  // ---------------------------------------------------------------------
  // cleanJsonString
  // ---------------------------------------------------------------------

  const JsonFence: string := "```json"
  const Fence: string := "```"

  /** `replace(/```json\s*\/g, '')`: scanning from the left, every "```json"
      is removed together with the whitespace run that follows it. */
  function RemoveJsonFences(s: string): (r: string)
    ensures |r| <= |s|
    decreases |s|
  {
    if s == [] then []
    else if Text.IsPrefix(JsonFence, s) then RemoveJsonFences(Text.TrimStart(s[|JsonFence|..]))
    else [s[0]] + RemoveJsonFences(s[1..])
  }

  /** Position `p` of `s` starts a match of `/```\s*$/`: three backticks and
      nothing but whitespace up to the end. */
  predicate TrailingFenceAt(s: string, p: int) {
    0 <= p <= |s| && Text.IsPrefix(Fence, s[p..]) && Text.AllSpace(s[p + |Fence|..])
  }

  /** `replace(/```\s*$/g, '')`: the leftmost trailing fence is cut off. */
  function StripTrailingFence(s: string): (r: string)
    ensures |r| <= |s| && r == s[..|r|]
    ensures r == s || TrailingFenceAt(s, |r|)
    ensures forall p :: 0 <= p < |r| ==> !TrailingFenceAt(s, p)
    decreases |s|
  {
    if s == [] then []
    else if TrailingFenceAt(s, 0) then []
    else
      var rest := StripTrailingFence(s[1..]);
      assert forall p :: 1 <= p <= |s| ==> (TrailingFenceAt(s, p) <==> TrailingFenceAt(s[1..], p - 1)) by {
        forall p | 1 <= p <= |s| ensures s[p..] == s[1..][p - 1..] { }
      }
      [s[0]] + rest
  }

  /** The text once both fence patterns are removed. */
  function Unfenced(text: string): string {
    StripTrailingFence(RemoveJsonFences(text))
  }

  /** Some `{` comes before some `}` in `c`. */
  predicate HasBracedSpan(c: string) {
    exists i, j :: 0 <= i < j < |c| && c[i] == '{' && c[j] == '}'
  }

  /** The span from the first `{` to the last `}` when the last `}` comes
      after the first `{`; otherwise the whole text. */
  function ExtractBraces(c: string): (r: string)
    ensures |r| <= |c|
    ensures r != c ==> 2 <= |r| && r[0] == '{' && r[|r| - 1] == '}'
  {
    var firstBrace := Text.IndexOf(c, '{');
    var lastBrace := Text.LastIndexOf(c, '}');
    if firstBrace.Some? && lastBrace.Some? && lastBrace.value > firstBrace.value
    then c[firstBrace.value..lastBrace.value + 1]
    else c
  }

  /** `cleanJsonString`. */
  function CleanJsonString(text: string): (r: string)
    ensures text == [] ==> r == "{}"
    ensures text != [] ==> r == ExtractBraces(Unfenced(text))
  {
    if text == [] then "{}"
    else ExtractBraces(Unfenced(text))
  }

  /** `r` sits at position `i` of `c` with no `{` before it and no `}` after it. */
  ghost predicate OutermostSpanAt(c: string, r: string, i: int) {
    && Text.OccursAt(c, r, i)
    && (forall k :: 0 <= k < i ==> c[k] != '{')
    && (forall k :: i + |r| <= k < |c| ==> c[k] != '}')
  }

  /** With a `{` before a later `}`, the extracted text is braced and is the
      outermost such span of `c`; otherwise `c` is returned unchanged. */
  lemma ExtractBracesSpan(c: string)
    ensures HasBracedSpan(c) ==>
              var r := ExtractBraces(c);
              && 2 <= |r| && r[0] == '{' && r[|r| - 1] == '}'
              && exists i :: OutermostSpanAt(c, r, i)
    ensures !HasBracedSpan(c) ==> ExtractBraces(c) == c
  {
    var f := Text.IndexOf(c, '{');
    var l := Text.LastIndexOf(c, '}');
    if f.Some? && l.Some? && l.value > f.value {
      assert 0 <= f.value < l.value < |c| && c[f.value] == '{' && c[l.value] == '}';
      assert ExtractBraces(c) == c[f.value..l.value + 1];
      OutermostSpan(c, f.value, l.value);
    } else if HasBracedSpan(c) {
      SpanGivesIndices(c);
    }
  }

  /** A `{` before a later `}` makes the first `{` come before the last `}`. */
  lemma SpanGivesIndices(c: string)
    requires HasBracedSpan(c)
    ensures var f := Text.IndexOf(c, '{'); var l := Text.LastIndexOf(c, '}');
            f.Some? && l.Some? && f.value < l.value
  {
    var i, j :| 0 <= i < j < |c| && c[i] == '{' && c[j] == '}';
    var f := Text.IndexOf(c, '{');
    var l := Text.LastIndexOf(c, '}');
    assert f.Some? && f.value <= i;
    assert l.Some? && j <= l.value;
  }

  lemma OutermostSpan(c: string, f: nat, l: nat)
    requires f < l < |c| && c[f] == '{' && c[l] == '}'
    requires forall k :: 0 <= k < f ==> c[k] != '{'
    requires forall k :: l < k < |c| ==> c[k] != '}'
    ensures var r := c[f..l + 1];
            2 <= |r| && r[0] == '{' && r[|r| - 1] == '}' && OutermostSpanAt(c, r, f)
  {
  }

  /** `cleanJsonString` on a non-empty reply extracts the outermost braced
      span of the unfenced text, or keeps that text when there is none. */
  lemma CleanJsonStringExtractsBraces(text: string)
    requires text != []
    ensures var c := Unfenced(text); var r := CleanJsonString(text);
            HasBracedSpan(c) ==>
              && 2 <= |r| && r[0] == '{' && r[|r| - 1] == '}'
              && exists i :: OutermostSpanAt(c, r, i)
    ensures var c := Unfenced(text);
            !HasBracedSpan(c) ==> CleanJsonString(text) == c
  {
    ExtractBracesSpan(Unfenced(text));
  }

  /** No "```json" starts anywhere in `s`. */
  predicate NoJsonFence(s: string) {
    forall p :: 0 <= p <= |s| ==> !Text.IsPrefix(JsonFence, s[p..])
  }

  lemma {:induction false} RemoveJsonFencesKeeps(s: string)
    requires NoJsonFence(s)
    ensures RemoveJsonFences(s) == s
    decreases |s|
  {
    if s != [] {
      assert !Text.IsPrefix(JsonFence, s[0..]);
      assert s[0..] == s;
      forall p | 0 <= p <= |s[1..]| ensures !Text.IsPrefix(JsonFence, s[1..][p..]) {
        assert s[1..][p..] == s[p + 1..];
      }
      RemoveJsonFencesKeeps(s[1..]);
    }
  }

  /** The body of a fenced object with its closing fence. */
  function FencedBody(obj: string): string {
    obj + "\n" + Fence
  }

  /** An object without backticks, as fenced replies carry. */
  predicate BacktickFreeObject(obj: string) {
    && 2 <= |obj| && obj[0] == '{' && obj[|obj| - 1] == '}'
    && forall k :: 0 <= k < |obj| ==> obj[k] != '`'
  }

  lemma TrimStartSkipsNewline(body: string)
    requires body != [] && !Text.IsSpace(body[0])
    ensures Text.TrimStart("\n" + body) == body
  {
    assert ("\n" + body)[1..] == body;
  }

  lemma FencedBodyHasNoJsonFence(obj: string)
    requires BacktickFreeObject(obj)
    ensures NoJsonFence(FencedBody(obj))
  {
    var body := FencedBody(obj);
    forall p | 0 <= p <= |body| ensures !Text.IsPrefix(JsonFence, body[p..]) {
      if p < |obj| {
        assert body[p..][0] == obj[p];
      } else if p == |obj| {
        assert body[p..][0] == '\n';
      }
    }
  }

  lemma OpeningFenceRemoved(obj: string)
    requires BacktickFreeObject(obj)
    ensures RemoveJsonFences(JsonFence + "\n" + FencedBody(obj)) == FencedBody(obj)
  {
    var body := FencedBody(obj);
    var text := JsonFence + "\n" + body;
    assert text[..|JsonFence|] == JsonFence;
    assert text[|JsonFence|..] == "\n" + body;
    assert body[0] == obj[0];
    TrimStartSkipsNewline(body);
    FencedBodyHasNoJsonFence(obj);
    RemoveJsonFencesKeeps(body);
  }

  lemma ClosingFenceRemoved(obj: string)
    requires BacktickFreeObject(obj)
    ensures StripTrailingFence(FencedBody(obj)) == obj + "\n"
  {
    var body := FencedBody(obj);
    var q := |obj| + 1;
    assert body[q..] == Fence;
    assert TrailingFenceAt(body, q);
    forall p | 0 <= p < q ensures !TrailingFenceAt(body, p) {
      if p < |obj| {
        assert body[p..][0] == obj[p];
      } else {
        assert body[p..][0] == '\n';
      }
    }
    assert body[..q] == obj + "\n";
  }

  lemma BracesOfObjectLine(obj: string)
    requires BacktickFreeObject(obj)
    ensures ExtractBraces(obj + "\n") == obj
  {
    var c := obj + "\n";
    assert Text.IndexOf(c, '{') == Some(0);
    assert c[|obj| - 1] == '}';
    var l := Text.LastIndexOf(c, '}');
    assert l.Some? && l.value == |obj| - 1;
    assert c[0..|obj|] == obj;
  }

  /** A reply wrapped in a markdown code fence, "```json\n{...}\n```", is
      reduced to the object itself. */
  lemma CleanUnwrapsFencedObject(obj: string)
    requires 2 <= |obj| && obj[0] == '{' && obj[|obj| - 1] == '}'
    requires forall k :: 0 <= k < |obj| ==> obj[k] != '`'
    ensures CleanJsonString(JsonFence + "\n" + obj + "\n" + Fence) == obj
  {
    assert JsonFence + "\n" + obj + "\n" + Fence == JsonFence + "\n" + FencedBody(obj);
    OpeningFenceRemoved(obj);
    ClosingFenceRemoved(obj);
    BracesOfObjectLine(obj);
  }

  // ---------------------------------------------------------------------
  // sendZenTextQuery: the result built from the reply
  // ---------------------------------------------------------------------

  const ApiKeyMissing: string := "API_KEY_MISSING"
  const ListeningText: string := "Thầy đang lắng nghe..."
  const ParseErrorStep: string := "Error parsing response"
  const HalfMetrics := QuantumMetrics(0.5, 0.5, 0.5)
  const HalfDimensions := Dimensions(0.5, 0.5, 0.5, 0.5, 0.5, 0.5)

  /** The fields `sendZenTextQuery` guarantees in every result. */
  predicate HasDefaultedFields(u: ZenUpdate) {
    && u.userTranscript.Some? && u.breathing.Some? && u.ambientSound.Some?
    && u.awarenessStage.Some? && u.dimensions.Some?
  }

  /** `{...data, user_transcript: data.user_transcript || text, ...}`: an
      absent or empty transcript becomes the user's text, and absent
      breathing, ambient sound, stage and dimensions get their defaults. */
  function WithDefaults(data: ZenUpdate, text: string): (r: ZenUpdate)
    ensures HasDefaultedFields(r)
    ensures r.emotion == data.emotion && r.wisdomText == data.wisdomText
    ensures r.wisdomEnglish == data.wisdomEnglish && r.confidence == data.confidence
    ensures r.reasoningSteps == data.reasoningSteps && r.quantumMetrics == data.quantumMetrics
    ensures r.voiceTone == data.voiceTone
    ensures data.userTranscript.Some? && data.userTranscript.value != [] ==> r.userTranscript == data.userTranscript
    ensures data.breathing.Some? ==> r.breathing == data.breathing
    ensures data.ambientSound.Some? ==> r.ambientSound == data.ambientSound
    ensures data.awarenessStage.Some? ==> r.awarenessStage == data.awarenessStage
    ensures data.dimensions.Some? ==> r.dimensions == data.dimensions
  {
    data.(
      userTranscript := if data.userTranscript.Some? && data.userTranscript.value != [] then data.userTranscript else Some(text),
      breathing := Some(data.breathing.GetOr(NoBreathing)),
      ambientSound := Some(data.ambientSound.GetOr(Silence)),
      awarenessStage := Some(data.awarenessStage.GetOr(Reflexive)),
      dimensions := Some(data.dimensions.GetOr(HalfDimensions)))
  }

  /** Filling the defaults twice changes nothing. */
  lemma WithDefaultsIdempotent(data: ZenUpdate, text: string)
    ensures WithDefaults(WithDefaults(data, text), text) == WithDefaults(data, text)
  {
    var once := WithDefaults(data, text);
    if once.userTranscript.value == [] {
      assert text == [];
    }
  }

  /** The neutral response returned when the reply is not valid JSON. Unlike
      a parsed reply it carries transcript, breathing, stage and dimensions
      but no ambient sound, so a later merge leaves the sound to the emotion. */
  function Fallback(text: string): (r: ZenUpdate)
    ensures r.confidence == Some(0.0) && r.emotion == Some(Neutral)
    ensures r.userTranscript == Some(text) && r.breathing == Some(NoBreathing)
    ensures r.awarenessStage == Some(Reflexive) && r.dimensions == Some(HalfDimensions)
    ensures r.ambientSound.None? && !HasDefaultedFields(r)
  {
    ZenUpdate(
      emotion := Some(Neutral),
      wisdomText := Some(ListeningText),
      wisdomEnglish := None,
      userTranscript := Some(text),
      breathing := Some(NoBreathing),
      confidence := Some(0.0),
      reasoningSteps := Some([ParseErrorStep]),
      quantumMetrics := Some(HalfMetrics),
      awarenessStage := Some(Reflexive),
      dimensions := Some(HalfDimensions),
      ambientSound := None,
      voiceTone := None)
  }

  /** `response.text || "{}"`. */
  function RawText(reply: Option<string>): string {
    if reply.Some? && reply.value != [] then reply.value else "{}"
  }

  /** `sendZenTextQuery` once `generateContent` has settled: `reply` is
      `Ok(response.text)`, or `Err(message)` where the call throws; `parse` is
      `JSON.parse`, `None` where it throws. */
  function SendZenTextQuery(apiKey: string, text: string, reply: Result<Option<string>, string>,
                            parse: string -> Option<ZenUpdate>): (r: Result<ZenUpdate, string>)
    ensures r.Err? <==> apiKey == [] || reply.Err?
    ensures apiKey == [] ==> r == Err(ApiKeyMissing)
    ensures apiKey != [] && reply.Err? ==> r.error == reply.error
    ensures r.Ok? && parse(CleanJsonString(RawText(reply.value))).Some? ==> HasDefaultedFields(r.value)
    ensures r.Ok? && parse(CleanJsonString(RawText(reply.value))).None? ==>
              r.value.confidence == Some(0.0) && r.value.ambientSound.None?
              && r.value.userTranscript == Some(text)
  {
    if apiKey == [] then Err(ApiKeyMissing)
    else
      match reply
      case Err(e) => Err(e)
      case Ok(response) =>
        match parse(CleanJsonString(RawText(response)))
        case Some(data) => Ok(WithDefaults(data, text))
        case None => Ok(Fallback(text))
  }

  // ---------------------------------------------------------------------
  // Reconnection policy
  // ---------------------------------------------------------------------

  const MaxRetries: nat := 5
  const BaseDelayMs: real := 1000.0
  const MaxDelayMs: real := 15000.0
  const AuthFailedReason: string := "Authentication failed"
  const ConnectionLostReason: string := "Connection lost. Please try again."
  const ReconnectingReason: string := "Reconnecting..."

  function Pow2(n: nat): (r: nat)
    ensures r >= 1 && (n >= 1 ==> r >= 2)
  {
    if n == 0 then 1 else 2 * Pow2(n - 1)
  }

  lemma {:induction false} Pow2Monotone(a: nat, b: nat)
    requires a <= b
    ensures Pow2(a) <= Pow2(b)
    decreases b
  {
    if a < b {
      Pow2Monotone(a, b - 1);
    }
  }

  /** `Math.min(MAX_DELAY_MS, BASE_DELAY_MS * 2^attempt + jitter)`. */
  function ReconnectDelay(attempt: nat, jitter: real): (d: real)
    requires 0.0 <= jitter < 500.0
    ensures d <= MaxDelayMs && d <= BaseDelayMs * Pow2(attempt) as real + jitter
    ensures d == MaxDelayMs || d == BaseDelayMs * Pow2(attempt) as real + jitter
    ensures attempt >= 1 ==> d >= 2000.0
  {
    var backoff := BaseDelayMs * Pow2(attempt) as real;
    if MaxDelayMs < backoff + jitter then MaxDelayMs else backoff + jitter
  }

  /** From the fourth attempt on, the cap always applies. */
  lemma DelayCappedFromFourthAttempt(attempt: nat, jitter: real)
    requires 4 <= attempt && 0.0 <= jitter < 500.0
    ensures ReconnectDelay(attempt, jitter) == MaxDelayMs
  {
    Pow2Monotone(4, attempt);
  }

  /** Later attempts never wait less. */
  lemma DelayNonDecreasing(a: nat, b: nat, jitter: real)
    requires a <= b && 0.0 <= jitter < 500.0
    ensures ReconnectDelay(a, jitter) <= ReconnectDelay(b, jitter)
  {
    Pow2Monotone(a, b);
  }

  /** Close codes 4003 and 401 mean the credentials were refused. */
  predicate IsAuthFailure(closeCode: Option<int>) {
    closeCode == Some(4003) || closeCode == Some(401)
  }

  datatype LossAction = Ignored | AuthFailed | Retry(attempt: nat, delay: real) | GaveUp

  /** What `handleConnectionLoss` does, given the manual-close flag, the
      attempts used so far, the close code (`None` for `onerror` and for a
      failed retry) and the jitter. */
  function OnLoss(manuallyClosed: bool, attempts: nat, closeCode: Option<int>, jitter: real): (a: LossAction)
    requires 0.0 <= jitter < 500.0
    ensures a == Ignored <==> manuallyClosed
    ensures a == AuthFailed <==> !manuallyClosed && IsAuthFailure(closeCode)
    ensures a == GaveUp <==> !manuallyClosed && !IsAuthFailure(closeCode) && attempts >= MaxRetries
    ensures a.Retry? ==> attempts < MaxRetries && a.attempt == attempts + 1
                         && 2000.0 <= a.delay <= MaxDelayMs
  {
    if manuallyClosed then Ignored
    else if IsAuthFailure(closeCode) then AuthFailed
    else if attempts < MaxRetries then Retry(attempts + 1, ReconnectDelay(attempts + 1, jitter))
    else GaveUp
  }

  predicate ValidJitters(jitters: seq<real>) {
    forall k :: 0 <= k < |jitters| ==> 0.0 <= jitters[k] < 500.0
  }

  /** The actions for consecutive losses with no successful open between them:
      each retry bumps the counter, giving up (or an auth failure)
      disconnects, which sets the manual-close flag. */
  function LossRun(manuallyClosed: bool, attempts: nat, jitters: seq<real>): (r: seq<LossAction>)
    requires ValidJitters(jitters)
    ensures |r| == |jitters|
    decreases |jitters|
  {
    if jitters == [] then []
    else
      var a := OnLoss(manuallyClosed, attempts, None, jitters[0]);
      [a] + LossRun(manuallyClosed || a == GaveUp, if a.Retry? then a.attempt else attempts, jitters[1..])
  }

  lemma {:induction false} ClosedIgnoresLosses(attempts: nat, jitters: seq<real>)
    requires ValidJitters(jitters)
    ensures forall k :: 0 <= k < |jitters| ==> LossRun(true, attempts, jitters)[k] == Ignored
    decreases |jitters|
  {
    if jitters != [] {
      ClosedIgnoresLosses(attempts, jitters[1..]);
    }
  }

  /** From `attempts` used retries, losses `1 .. 5 - attempts` are retried with
      counters `attempts + 1 .. 5`, the next one gives up, and every later one
      is ignored. */
  lemma {:induction false} ConsecutiveLosses(attempts: nat, jitters: seq<real>)
    requires attempts <= MaxRetries && ValidJitters(jitters)
    ensures forall k :: 0 <= k < |jitters| ==>
              LossRun(false, attempts, jitters)[k] ==
                if attempts + k < MaxRetries then Retry(attempts + k + 1, ReconnectDelay(attempts + k + 1, jitters[k]))
                else if attempts + k == MaxRetries then GaveUp
                else Ignored
    decreases |jitters|
  {
    if jitters != [] {
      var r := LossRun(false, attempts, jitters);
      var rest := jitters[1..];
      if attempts < MaxRetries {
        ConsecutiveLosses(attempts + 1, rest);
        assert r == [Retry(attempts + 1, ReconnectDelay(attempts + 1, jitters[0]))] + LossRun(false, attempts + 1, rest);
      } else {
        ClosedIgnoresLosses(attempts, rest);
        assert r == [GaveUp] + LossRun(true, attempts, rest);
      }
      forall k | 1 <= k < |jitters| ensures rest[k - 1] == jitters[k] { }
    }
  }

  // ---------------------------------------------------------------------
  // Playback
  // ---------------------------------------------------------------------

  const OutputRate: real := 24000.0
  const DriftTolerance: real := 0.5

  /** `Math.max(currentTime, nextStartTime)`: a chunk starts no earlier than
      now and no earlier than the end of the chunk before it. */
  function ChunkStart(now: real, cursor: real): (start: real)
    ensures start >= now && start >= cursor
    ensures start == now || start == cursor
  {
    if now > cursor then now else cursor
  }

  /** A received chunk scheduled on source `source` at `start` for `duration`
      seconds. */
  datatype Chunk = Chunk(source: nat, start: real, duration: real)

  /** Every chunk ends before any later one starts. */
  predicate NonOverlapping(q: seq<Chunk>) {
    && (forall k :: 0 <= k < |q| ==> q[k].duration >= 0.0)
    && (forall i, j :: 0 <= i < j < |q| ==> q[i].start + q[i].duration <= q[j].start)
  }

  /** The samples of an `Int16Array` view over `bytes`, each divided by 32768. */
  function Int16Samples(bytes: seq<byte>): (r: seq<real>)
    requires |bytes| % 2 == 0
    ensures |r| == |bytes| / 2
    ensures forall i :: 0 <= i < |r| ==> -1.0 <= r[i] < 1.0
  {
    seq(|bytes| / 2, i requires 0 <= i < |bytes| / 2 =>
      AudioManager.FromInt16LE(bytes[2 * i], bytes[2 * i + 1]) as real / 32768.0)
  }

  /** The samples `playAudioChunk` plays for base64 `data`: `None` where
      `atob` throws or the byte count is odd (the `Int16Array` view throws). */
  function ChunkSamples(data: string): (r: Option<seq<real>>)
    ensures Base64.Decode(data).None? ==> r.None?
    ensures r.Some? ==> 2 * |r.value| == |Base64.Decode(data).value|
    ensures r.Some? ==> forall k :: 0 <= k < |r.value| ==> -1.0 <= r.value[k] < 1.0
  {
    match Base64.Decode(data)
    case None => None
    case Some(bytes) => if |bytes| % 2 != 0 then None else Some(Int16Samples(bytes))
  }

  /** Each sample quantised to 16 bits and scaled back by 1/32768. */
  function QuantisedLevels(samples: seq<real>): seq<real> {
    seq(|samples|, i requires 0 <= i < |samples| => AudioManager.Quantize(samples[i]) as real / 32768.0)
  }

  lemma Pcm16Bytes(samples: seq<real>, i: nat)
    requires i < |samples|
    ensures AudioManager.Pcm16(samples)[2 * i] == AudioManager.Int16LE(AudioManager.Quantize(samples[i]))[0]
    ensures AudioManager.Pcm16(samples)[2 * i + 1] == AudioManager.Int16LE(AudioManager.Quantize(samples[i]))[1]
  {
    assert (2 * i) / 2 == i && (2 * i) % 2 == 0;
    assert (2 * i + 1) / 2 == i && (2 * i + 1) % 2 == 1;
  }

  lemma Int16SamplesOfPcm16(samples: seq<real>)
    ensures Int16Samples(AudioManager.Pcm16(samples)) == QuantisedLevels(samples)
  {
    var bytes := AudioManager.Pcm16(samples);
    var r := Int16Samples(bytes);
    forall i | 0 <= i < |samples|
      ensures r[i] == QuantisedLevels(samples)[i]
    {
      var v := AudioManager.Quantize(samples[i]);
      Pcm16Bytes(samples, i);
      AudioManager.Int16RoundTrip(v);
    }
  }

  /** Audio encoded by the capture path decodes, on the playback path, to the
      16-bit quantised samples. */
  lemma CapturedAudioDecodes(samples: seq<real>)
    ensures ChunkSamples(Base64.Encode(AudioManager.Pcm16(samples))) == Some(QuantisedLevels(samples))
  {
    Base64.RoundTrip(AudioManager.Pcm16(samples));
    Int16SamplesOfPcm16(samples);
  }

  /** The first loop of `playAudioChunk`: the decoded characters copied into
      a fresh `Uint8Array`. */
  method ToByteArray(binary: seq<byte>) returns (bytes: array<byte>)
    ensures fresh(bytes) && bytes[..] == binary
  {
    bytes := new byte[|binary|];
    for i := 0 to |binary|
      invariant bytes[..i] == binary[..i]
    {
      bytes[i] := binary[i];
    }
  }

  /** The second loop of `playAudioChunk`: each int16 of the byte buffer,
      divided by 32768, written into a fresh `Float32Array`. */
  method Int16ToFloat32(bytes: array<byte>) returns (float32: array<real>)
    requires bytes.Length % 2 == 0
    ensures fresh(float32) && float32[..] == Int16Samples(bytes[..])
  {
    ghost var samples := Int16Samples(bytes[..]);
    var count := bytes.Length / 2;
    float32 := new real[count];
    for i := 0 to count
      invariant float32[..i] == samples[..i]
    {
      assert 2 * i + 1 < bytes.Length;
      float32[i] := AudioManager.FromInt16LE(bytes[2 * i], bytes[2 * i + 1]) as real / 32768.0;
    }
    assert float32[..] == float32[..count];
  }

  /** The decoding part of `playAudioChunk`. */
  method DecodeChunk(data: string) returns (r: Option<seq<real>>)
    ensures r == ChunkSamples(data)
  {
    var binary := Base64.Decode(data);
    if binary.None? {
      return None;
    }
    var bytes := ToByteArray(binary.value);
    if bytes.Length % 2 != 0 {
      return None;
    }
    var float32 := Int16ToFloat32(bytes);
    r := Some(float32[..]);
  }

  // ---------------------------------------------------------------------
  // handleMessage: tool calls
  // ---------------------------------------------------------------------

  const UpdateZenState: string := "update_zen_state"

  datatype ToolCall = ToolCall(id: string, name: string, args: ZenUpdate)

  /** The arguments of the `update_zen_state` calls, in order. */
  function ZenStateArgs(calls: seq<ToolCall>): (r: seq<ZenUpdate>)
    ensures |r| <= |calls|
  {
    if calls == [] then []
    else ZenStateArgs(calls[..|calls| - 1])
         + (if calls[|calls| - 1].name == UpdateZenState then [calls[|calls| - 1].args] else [])
  }

  /** The ids answered with a tool response, in order. */
  function ZenStateIds(calls: seq<ToolCall>): (r: seq<string>)
    ensures |r| == |ZenStateArgs(calls)|
  {
    if calls == [] then []
    else ZenStateIds(calls[..|calls| - 1])
         + (if calls[|calls| - 1].name == UpdateZenState then [calls[|calls| - 1].id] else [])
  }

  /** The `functionCalls` loop of `handleMessage`: the arguments of every
      `update_zen_state` call in order, and the ids answered while a session
      is open. */
  method CollectToolCalls(calls: seq<ToolCall>, sessionOpen: bool) returns (updates: seq<ZenUpdate>, responses: seq<string>)
    ensures updates == ZenStateArgs(calls)
    ensures responses == if sessionOpen then ZenStateIds(calls) else []
  {
    updates, responses := [], [];
    var k := 0;
    while k < |calls|
      invariant 0 <= k <= |calls|
      invariant updates == ZenStateArgs(calls[..k])
      invariant responses == if sessionOpen then ZenStateIds(calls[..k]) else []
    {
      ghost var prefix := calls[..k + 1];
      assert prefix[..|prefix| - 1] == calls[..k] && prefix[|prefix| - 1] == calls[k];
      if calls[k].name == UpdateZenState {
        updates := updates + [calls[k].args];
        if sessionOpen {
          responses := responses + [calls[k].id];
        }
      }
      k := k + 1;
    }
    assert calls[..|calls|] == calls;
  }

  /** `c` is an `update_zen_state` call carrying `u`. */
  predicate CarriesUpdate(c: ToolCall, u: ZenUpdate) {
    c.name == UpdateZenState && c.args == u
  }

  /** Exactly the calls named `update_zen_state` reach the state callback. */
  lemma {:induction false} ZenStateArgsSelects(calls: seq<ToolCall>, u: ZenUpdate)
    ensures u in ZenStateArgs(calls) <==> exists k :: 0 <= k < |calls| && CarriesUpdate(calls[k], u)
    decreases |calls|
  {
    if calls != [] {
      var n := |calls| - 1;
      var init := calls[..n];
      var last := if calls[n].name == UpdateZenState then [calls[n].args] else [];
      assert ZenStateArgs(calls) == ZenStateArgs(init) + last;
      ZenStateArgsSelects(init, u);
      if u in ZenStateArgs(calls) {
        if u in ZenStateArgs(init) {
          var k :| 0 <= k < |init| && CarriesUpdate(init[k], u);
          assert calls[k] == init[k];
        } else {
          assert CarriesUpdate(calls[n], u);
        }
      } else {
        forall k | 0 <= k < |calls| ensures !CarriesUpdate(calls[k], u) {
          if k < n {
            assert calls[k] == init[k];
          }
        }
      }
    }
  }

  // ---------------------------------------------------------------------
  // ZenLiveSession
  // ---------------------------------------------------------------------

  const OfflineReason: string := "Mất kết nối mạng..."
  const RecoveryReason: string := "Đã có mạng trở lại. Đang kết nối..."
  const IdleReason: string := "Timeout due to inactivity"
  const MicFailed: string := "Microphone/Worklet access failed"


  /** What the session has handed to its callbacks and to the server, oldest
      first: `onDisconnectCallback` reasons, `onAudioActivity` flags,
      `onStateChange` arguments, answered tool-call ids, base64 audio sent,
      and the delays of scheduled reconnects. */
  datatype Outputs = Outputs(
    notifications: seq<Option<string>>,
    activity: seq<bool>,
    stateUpdates: seq<ZenUpdate>,
    toolResponses: seq<string>,
    sentAudio: seq<string>,
    retryDelays: seq<real>)

  const NoOutputs := Outputs([], [], [], [], [], [])

  /** The connection-management fields. `sessionOpen` is `sessionPromise !==
      null`, `listening` says the window's online/offline listeners are
      registered, `idleArmed` that an idle timer is pending, `captureWired`
      that the microphone worklet is connected with its `onmessage` set, and
      `pendingRetries` counts reconnect timers not yet fired. */
  datatype Connection = Connection(
    reconnectAttempts: nat,
    isManuallyClosed: bool,
    sessionOpen: bool,
    listening: bool,
    idleArmed: bool,
    captureWired: bool,
    pendingRetries: nat)

  /** The playback fields. `audioReady` says both audio contexts exist and
      `currentTime` is the output context's clock; `sources` numbers the
      playing buffer sources, `queue` holds the chunks scheduled since the
      queue was last stopped, and `pendingSpeakingResets` counts 500 ms
      "stop speaking" timers not yet fired. */
  datatype Playback = Playback(
    audioReady: bool,
    currentTime: real,
    isAiSpeaking: bool,
    nextStartTime: real,
    sources: set<nat>,
    nextSourceId: nat,
    queue: seq<Chunk>,
    pendingSpeakingResets: nat)

  datatype SessionState = SessionState(conn: Connection, play: Playback, out: Outputs)

  const InitialSession := SessionState(
    Connection(0, false, false, false, false, false, 0),
    Playback(false, 0.0, false, 0.0, {}, 0, [], 0),
    NoOutputs)

  function End(c: Chunk): real {
    c.start + c.duration
  }

  predicate DelaysInRange(delays: seq<real>) {
    forall k :: 0 <= k < |delays| ==> 2000.0 <= delays[k] <= MaxDelayMs
  }

  /** Source numbers are fresh and the scheduled chunks never overlap and end
      by the cursor. */
  predicate PlaybackInvariant(p: Playback) {
    && (forall id :: id in p.sources ==> id < p.nextSourceId)
    && NonOverlapping(p.queue)
    && (p.queue != [] ==> End(p.queue[|p.queue| - 1]) <= p.nextStartTime)
  }

  /** What holds between any two events: the retry counter is bounded, every
      reconnect delay lies in [2000, 15000] ms, and playback is well formed. */
  predicate SessionInvariant(s: SessionState) {
    && s.conn.reconnectAttempts <= MaxRetries
    && DelaysInRange(s.out.retryDelays)
    && PlaybackInvariant(s.play)
  }

  /** `warmupAudio`: missing contexts are created, and a new context's clock
      starts at zero. */
  function Warmed(p: Playback): (r: Playback)
    ensures r.audioReady
    ensures r.currentTime == if p.audioReady then p.currentTime else 0.0
    ensures PlaybackInvariant(p) ==> PlaybackInvariant(r)
  {
    if p.audioReady then p else p.(audioReady := true, currentTime := 0.0)
  }

  /** `connect(isReconnect)` up to opening the session. */
  function Connected(s: SessionState, isReconnect: bool, micGranted: bool, apiKey: string)
    : (r: (SessionState, Result<(), string>))
    ensures !isReconnect ==> !r.0.conn.isManuallyClosed && r.0.conn.reconnectAttempts == 0
    ensures isReconnect ==> r.0.conn.isManuallyClosed == s.conn.isManuallyClosed
                            && r.0.conn.reconnectAttempts == s.conn.reconnectAttempts
    ensures r.1.Ok? <==> (s.conn.captureWired || micGranted) && !Text.AllSpace(apiKey)
    ensures r.1.Err? ==> r.1.error == if s.conn.captureWired || micGranted then ApiKeyMissing else MicFailed
    ensures r.0.conn.sessionOpen <==> s.conn.sessionOpen || r.1.Ok?
    ensures r.0.conn.idleArmed && r.0.conn.listening && r.0.play.audioReady
    ensures r.0.play.queue == s.play.queue && r.0.out == s.out
    ensures SessionInvariant(s) ==> SessionInvariant(r.0)
  {
    var c0 := if isReconnect then s.conn else s.conn.(isManuallyClosed := false, reconnectAttempts := 0);
    var c1 := c0.(idleArmed := true, listening := true);
    var p := Warmed(s.play);
    if !c1.captureWired && !micGranted then (SessionState(c1, p, s.out), Err(MicFailed))
    else
      var c2 := c1.(captureWired := true);
      if Text.AllSpace(apiKey) then (SessionState(c2, p, s.out), Err(ApiKeyMissing))
      else (SessionState(c2.(sessionOpen := true), p, s.out), Ok(()))
  }

  /** `stopAudioQueue`. */
  function QueueStopped(p: Playback): (r: Playback)
    ensures r.sources == {} && r.queue == []
    ensures r.nextStartTime == if p.audioReady then p.currentTime else p.nextStartTime
    ensures PlaybackInvariant(r)
  {
    p.(sources := {}, queue := [], nextStartTime := if p.audioReady then p.currentTime else p.nextStartTime)
  }

  /** `disconnect(reason)`: closed for good, timers and listeners dropped,
      playback stopped, and the reason reported (on every call). Scheduled
      reconnect timers stay pending; they find the manual-close flag set. */
  function Disconnected(s: SessionState, reason: Option<string>): (r: SessionState)
    ensures r.conn.isManuallyClosed && !r.conn.sessionOpen && !r.conn.listening && !r.conn.idleArmed
    ensures !r.conn.captureWired && !r.play.isAiSpeaking && !r.play.audioReady && r.play.sources == {}
    ensures r.out == s.out.(notifications := s.out.notifications + [reason])
    ensures r.conn.reconnectAttempts == s.conn.reconnectAttempts
    ensures r.conn.pendingRetries == s.conn.pendingRetries
    ensures SessionInvariant(s) ==> SessionInvariant(r)
  {
    SessionState(
      s.conn.(isManuallyClosed := true, listening := false, idleArmed := false,
              captureWired := false, sessionOpen := false),
      QueueStopped(s.play).(isAiSpeaking := false, audioReady := false),
      s.out.(notifications := s.out.notifications + [reason]))
  }

  /** `handleConnectionLoss`: what happens is decided by `OnLoss`; the
      outcomes are spelt out in `LossOutcomes`. */
  function AfterLoss(s: SessionState, closeCode: Option<int>, jitter: real): (r: SessionState)
    requires 0.0 <= jitter < 500.0
    ensures s.conn.isManuallyClosed ==> r == s
    ensures SessionInvariant(s) ==> SessionInvariant(r)
  {
    match OnLoss(s.conn.isManuallyClosed, s.conn.reconnectAttempts, closeCode, jitter)
    case Ignored => s
    case AuthFailed => Disconnected(s, Some(AuthFailedReason))
    case GaveUp => Disconnected(s, Some(ConnectionLostReason))
    case Retry(n, delay) => RetryScheduled(s, n, delay)
  }

  /** A retry scheduled as attempt `n` after `delay` ms: "Reconnecting..." is
      reported and the session is dropped until the timer fires. */
  function RetryScheduled(s: SessionState, n: nat, delay: real): (r: SessionState)
    requires n <= MaxRetries && 2000.0 <= delay <= MaxDelayMs
    ensures SessionInvariant(s) ==> SessionInvariant(r)
  {
    SessionState(
      s.conn.(reconnectAttempts := n, sessionOpen := false, pendingRetries := s.conn.pendingRetries + 1),
      s.play,
      s.out.(notifications := s.out.notifications + [Some(ReconnectingReason)],
             retryDelays := s.out.retryDelays + [delay]))
  }

  /** The three outcomes of a loss while not manually closed: an auth
      failure disconnects with its reason; below the retry limit the counter
      goes up, a retry is scheduled after the backoff delay and playback is
      untouched; at the limit the session disconnects for good. */
  lemma LossOutcomes(s: SessionState, closeCode: Option<int>, jitter: real)
    requires 0.0 <= jitter < 500.0
    ensures var r := AfterLoss(s, closeCode, jitter);
            !s.conn.isManuallyClosed && IsAuthFailure(closeCode) ==>
              r.conn.isManuallyClosed && !r.conn.sessionOpen
              && r.out.notifications == s.out.notifications + [Some(AuthFailedReason)]
    ensures var r := AfterLoss(s, closeCode, jitter);
            !s.conn.isManuallyClosed && !IsAuthFailure(closeCode) && s.conn.reconnectAttempts < MaxRetries ==>
              && !r.conn.isManuallyClosed && !r.conn.sessionOpen
              && r.conn.reconnectAttempts == s.conn.reconnectAttempts + 1
              && r.conn.pendingRetries == s.conn.pendingRetries + 1
              && r.out.notifications == s.out.notifications + [Some(ReconnectingReason)]
              && r.out.retryDelays == s.out.retryDelays + [ReconnectDelay(s.conn.reconnectAttempts + 1, jitter)]
              && r.play == s.play
    ensures var r := AfterLoss(s, closeCode, jitter);
            !s.conn.isManuallyClosed && !IsAuthFailure(closeCode) && s.conn.reconnectAttempts >= MaxRetries ==>
              r.conn.isManuallyClosed && !r.conn.sessionOpen
              && r.out.notifications == s.out.notifications + [Some(ConnectionLostReason)]
  {
  }

  /** A reconnect timer fires: nothing once manually closed; otherwise
      `connect(true)`, whose failure is handled as another loss. */
  function RetryFired(s: SessionState, micGranted: bool, apiKey: string, jitter: real): (r: SessionState)
    requires s.conn.pendingRetries > 0 && 0.0 <= jitter < 500.0
    ensures s.conn.isManuallyClosed ==> r == s.(conn := s.conn.(pendingRetries := s.conn.pendingRetries - 1))
    ensures !s.conn.isManuallyClosed && (s.conn.captureWired || micGranted) && !Text.AllSpace(apiKey) ==>
              r.conn.sessionOpen && r.conn.reconnectAttempts == s.conn.reconnectAttempts && r.out == s.out
    ensures SessionInvariant(s) ==> SessionInvariant(r)
  {
    var s0 := s.(conn := s.conn.(pendingRetries := s.conn.pendingRetries - 1));
    if s0.conn.isManuallyClosed then s0
    else
      var (c, result) := Connected(s0, true, micGranted, apiKey);
      if result.Ok? then c else AfterLoss(c, None, jitter)
  }

  /** The window's `offline` event. */
  function WentOffline(s: SessionState): (r: SessionState)
    ensures !s.conn.listening ==> r == s
    ensures s.conn.listening ==> r.play.sources == {} && r.play.queue == [] && r.conn == s.conn
                                 && r.out.notifications == s.out.notifications + [Some(OfflineReason)]
    ensures SessionInvariant(s) ==> SessionInvariant(r)
  {
    if !s.conn.listening then s
    else SessionState(s.conn, QueueStopped(s.play),
                      s.out.(notifications := s.out.notifications + [Some(OfflineReason)]))
  }

  /** The window's `online` event: a reconnect only when not manually closed
      and no session exists. */
  function CameOnline(s: SessionState, micGranted: bool, apiKey: string): (r: SessionState)
    ensures !(s.conn.listening && !s.conn.isManuallyClosed && !s.conn.sessionOpen) ==> r == s
    ensures s.conn.listening && !s.conn.isManuallyClosed && !s.conn.sessionOpen ==>
              && r.out.notifications == s.out.notifications + [Some(RecoveryReason)]
              && r.conn.reconnectAttempts == s.conn.reconnectAttempts && !r.conn.isManuallyClosed
              && (r.conn.sessionOpen <==> (s.conn.captureWired || micGranted) && !Text.AllSpace(apiKey))
    ensures SessionInvariant(s) ==> SessionInvariant(r)
  {
    if s.conn.listening && !s.conn.isManuallyClosed && !s.conn.sessionOpen then
      Connected(s.(out := s.out.(notifications := s.out.notifications + [Some(RecoveryReason)])),
                true, micGranted, apiKey).0
    else s
  }

  /** `playAudioChunk`: the chunk is decoded, starts at `max(now,
      nextStartTime)` and moves the cursor by its duration; `None` where
      decoding throws. Without audio contexts nothing happens. */
  function ChunkScheduled(p: Playback, data: string): (r: Option<Playback>)
    ensures !p.audioReady ==> r == Some(p)
    ensures p.audioReady ==> (r.Some? <==> ChunkSamples(data).Some?)
    ensures p.audioReady && r.Some? ==>
              && |r.value.queue| == |p.queue| + 1
              && r.value.queue[..|p.queue|] == p.queue
              && var c := r.value.queue[|p.queue|];
                 && c.start >= p.currentTime && c.start >= p.nextStartTime
                 && c.duration == |ChunkSamples(data).value| as real / OutputRate
                 && r.value.nextStartTime == End(c)
                 && r.value.sources == p.sources + {c.source}
    ensures PlaybackInvariant(p) && p.audioReady && r.Some? ==> r.value.queue[|p.queue|].source !in p.sources
    ensures PlaybackInvariant(p) && r.Some? ==> PlaybackInvariant(r.value)
  {
    if !p.audioReady then Some(p)
    else match ChunkSamples(data)
      case None => None
      case Some(samples) =>
        var duration := |samples| as real / OutputRate;
        var start := ChunkStart(p.currentTime, p.nextStartTime);
        var c := Chunk(p.nextSourceId, start, duration);
        ChunkKeepsOrder(p, c);
        Some(p.(queue := p.queue + [c], sources := p.sources + {p.nextSourceId},
                nextSourceId := p.nextSourceId + 1, nextStartTime := End(c)))
  }

  /** Appending a chunk that starts at or after the cursor keeps the queue
      free of overlaps. */
  lemma ChunkKeepsOrder(p: Playback, c: Chunk)
    requires c.start >= p.nextStartTime && c.duration >= 0.0
    ensures PlaybackInvariant(p) ==> NonOverlapping(p.queue + [c])
  {
    if PlaybackInvariant(p) {
      var q := p.queue + [c];
      forall i, j | 0 <= i < j < |q| ensures End(q[i]) <= q[j].start {
        if j < |p.queue| {
          assert q[i] == p.queue[i] && q[j] == p.queue[j];
        } else {
          EndsByLast(p.queue, i);
        }
      }
    }
  }

  /** In a queue without overlaps every chunk ends by the end of the last. */
  lemma EndsByLast(q: seq<Chunk>, i: nat)
    requires NonOverlapping(q) && i < |q|
    ensures End(q[i]) <= End(q[|q| - 1])
  {
    if i < |q| - 1 {
      assert End(q[i]) <= q[|q| - 1].start;
    }
  }

  /** A source's `onended`: when the last one ends the AI stops speaking, and
      the cursor is pulled back to now only if it lags by over 0.5 s. */
  function SourceFinished(s: SessionState, id: nat): (r: SessionState)
    ensures r.play.sources == s.play.sources - {id} && r.conn == s.conn
    ensures r.play.sources != {} ==> r == s.(play := s.play.(sources := s.play.sources - {id}))
    ensures r.play.sources == {} ==> !r.play.isAiSpeaking && r.out.activity == s.out.activity + [false]
    ensures r.play.nextStartTime != s.play.nextStartTime ==>
              r.play.sources == {} && s.play.audioReady
              && s.play.currentTime > s.play.nextStartTime + DriftTolerance
              && r.play.nextStartTime == s.play.currentTime
    ensures SessionInvariant(s) ==> SessionInvariant(r)
  {
    var p := s.play.(sources := s.play.sources - {id});
    if p.sources != {} then s.(play := p)
    else
      SessionState(
        s.conn,
        p.(isAiSpeaking := false,
           nextStartTime := if p.audioReady && p.currentTime > p.nextStartTime + DriftTolerance
                            then p.currentTime else p.nextStartTime),
        s.out.(activity := s.out.activity + [false]))
  }

  /** An interruption: the queue stops, a 500 ms timer will clear the speaking
      flag, and the activity callback hears `false`. */
  function Interrupted(s: SessionState): (r: SessionState)
    ensures r.play.sources == {} && r.play.queue == []
    ensures r.play.pendingSpeakingResets == s.play.pendingSpeakingResets + 1
    ensures r.out.activity == s.out.activity + [false]
    ensures r.play.isAiSpeaking == s.play.isAiSpeaking && r.conn == s.conn
    ensures SessionInvariant(s) ==> SessionInvariant(r)
  {
    SessionState(
      s.conn,
      QueueStopped(s.play).(pendingSpeakingResets := s.play.pendingSpeakingResets + 1),
      s.out.(activity := s.out.activity + [false]))
  }

  /** The tool calls of a message handed on, and answered when a session
      exists. */
  function ToolCallsHandled(s: SessionState, calls: seq<ToolCall>): (r: SessionState)
    ensures r.out.stateUpdates == s.out.stateUpdates + ZenStateArgs(calls)
    ensures r.out.toolResponses == s.out.toolResponses + (if s.conn.sessionOpen then ZenStateIds(calls) else [])
    ensures r.conn == s.conn && r.play == s.play
    ensures SessionInvariant(s) ==> SessionInvariant(r)
  {
    s.(out := s.out.(stateUpdates := s.out.stateUpdates + ZenStateArgs(calls),
                     toolResponses := s.out.toolResponses + (if s.conn.sessionOpen then ZenStateIds(calls) else [])))
  }

  /** Audio in a message: the AI is speaking, the activity callback hears
      `true`, and the chunk is scheduled; the flag says decoding succeeded. */
  function AudioArrived(s: SessionState, data: string): (r: (SessionState, bool))
    ensures r.0.conn == s.conn && r.0.out == s.out.(activity := s.out.activity + [true])
    ensures r.1 <==> !s.play.audioReady || ChunkSamples(data).Some?
    ensures r.1 ==> r.0.play == ChunkScheduled(s.play.(isAiSpeaking := true), data).value
    ensures !r.1 ==> r.0.play == s.play.(isAiSpeaking := true)
    ensures r.1 ==> r.0.play.isAiSpeaking
    ensures SessionInvariant(s) ==> SessionInvariant(r.0)
  {
    var speaking := s.(play := s.play.(isAiSpeaking := true), out := s.out.(activity := s.out.activity + [true]));
    match ChunkScheduled(speaking.play, data)
    case None => (speaking, false)
    case Some(p) => (speaking.(play := p), true)
  }

  /** `handleMessage`. Where decoding throws, the awaited `playAudioChunk`
      rejects and the interruption flag is not looked at. */
  function MessageHandled(s: SessionState, calls: seq<ToolCall>, audio: Option<string>, interrupted: bool)
    : (r: SessionState)
    ensures r.conn == s.conn.(idleArmed := true)
    ensures r.out.stateUpdates == s.out.stateUpdates + ZenStateArgs(calls)
    ensures r.out.notifications == s.out.notifications && r.out.sentAudio == s.out.sentAudio
    ensures audio.Some? ==> |r.out.activity| > |s.out.activity| && r.out.activity[|s.out.activity|]
    ensures audio.None? && interrupted ==> r.play.sources == {} && r.out.activity == s.out.activity + [false]
    ensures audio.Some? && !interrupted ==> r.play.isAiSpeaking
    ensures SessionInvariant(s) ==> SessionInvariant(r)
  {
    var t := ToolCallsHandled(s.(conn := s.conn.(idleArmed := true)), calls);
    var (a, ok) := if audio.Some? then AudioArrived(t, audio.value) else (t, true);
    if !ok then a
    else if interrupted then Interrupted(a)
    else a
  }

  /** The worklet's `onmessage` for a block whose RMS is `rms`, with the
      detector in state `gate`: dropped while the AI speaks; otherwise the
      detector decides, and an accepted block restarts the idle timer and is
      sent base64-encoded when a session exists. */
  function BlockCaptured(s: SessionState, gate: AudioManager.Gate, block: seq<real>, rms: real)
    : (r: (SessionState, AudioManager.Gate))
    ensures s.play.isAiSpeaking ==> r == (s, gate)
    ensures !s.play.isAiSpeaking ==> r.1 == AudioManager.StepGate(gate, rms).0
    ensures |r.0.out.sentAudio| >= |s.out.sentAudio| && r.0.out.sentAudio[..|s.out.sentAudio|] == s.out.sentAudio
    ensures |r.0.out.sentAudio| == |s.out.sentAudio| + 1 <==>
              !s.play.isAiSpeaking && AudioManager.StepGate(gate, rms).1 && s.conn.sessionOpen
    ensures |r.0.out.sentAudio| == |s.out.sentAudio| + 1 ==>
              r.0.out.sentAudio[|s.out.sentAudio|] == Base64.Encode(AudioManager.Pcm16(block))
    ensures !s.play.isAiSpeaking && AudioManager.StepGate(gate, rms).1 ==> r.0.conn.idleArmed
    ensures r.0.play == s.play
    ensures SessionInvariant(s) ==> SessionInvariant(r.0)
  {
    if s.play.isAiSpeaking then (s, gate)
    else
      var (g, accept) := AudioManager.StepGate(gate, rms);
      if !accept then (s, g)
      else
        var sent := if s.conn.sessionOpen then [Base64.Encode(AudioManager.Pcm16(block))] else [];
        (SessionState(s.conn.(idleArmed := true), s.play, s.out.(sentAudio := s.out.sentAudio + sent)), g)
  }

  /** `ZenLiveSession`: its connection and playback fields change in place as
      SDK, Web Audio, network and timer callbacks arrive; each callback is a
      method, proved to make the transition of the same name above. */
  class ZenLiveSession {
    const vad: AudioManager.AdaptiveVoiceDetector
    var conn: Connection
    var play: Playback
    var out: Outputs

    function State(): SessionState
      reads this
    {
      SessionState(conn, play, out)
    }

    ghost predicate Valid()
      reads this, vad
    {
      vad.Valid() && SessionInvariant(State())
    }

    constructor ()
      ensures Valid() && fresh(vad)
      ensures State() == InitialSession && vad.State() == AudioManager.InitialGate
    {
      vad := new AudioManager.AdaptiveVoiceDetector();
      conn := Connection(0, false, false, false, false, false, 0);
      play := Playback(false, 0.0, false, 0.0, {}, 0, [], 0);
      out := NoOutputs;
    }

    method WarmupAudio()
      requires Valid()
      modifies this
      ensures Valid() && State() == old(State()).(play := Warmed(old(play)))
    {
      if !play.audioReady {
        play := play.(audioReady := true, currentTime := 0.0);
      }
    }

    /** `resetIdleTimer`: the pending idle timer is replaced by a new one. */
    method ResetIdleTimer()
      requires Valid()
      modifies this
      ensures Valid() && State() == old(State()).(conn := old(conn).(idleArmed := true))
    {
      conn := conn.(idleArmed := true);
    }

    method Connect(isReconnect: bool, micGranted: bool, apiKey: string) returns (r: Result<(), string>)
      requires Valid()
      modifies this
      ensures Valid() && (State(), r) == Connected(old(State()), isReconnect, micGranted, apiKey)
    {
      if !isReconnect {
        conn := conn.(isManuallyClosed := false, reconnectAttempts := 0);
      }
      ResetIdleTimer();
      conn := conn.(listening := true);
      WarmupAudio();
      ghost var ready := State();
      assert Connected(old(State()), isReconnect, micGranted, apiKey)
          == Connected(ready, true, micGranted, apiKey);
      if !conn.captureWired {
        if !micGranted {
          assert Connected(ready, true, micGranted, apiKey) == (State(), Err(MicFailed));
          return Err(MicFailed);
        }
        conn := conn.(captureWired := true);
      }
      ghost var wired := State();
      assert wired == SessionState(ready.conn.(captureWired := true), ready.play, ready.out);
      Text.TrimEmptyIffAllSpace(apiKey);
      if Text.TrimEnd(Text.TrimStart(apiKey)) == [] {
        assert Connected(ready, true, micGranted, apiKey) == (wired, Err(ApiKeyMissing));
        return Err(ApiKeyMissing);
      }
      conn := conn.(sessionOpen := true);
      assert Connected(ready, true, micGranted, apiKey) == (State(), Ok(()));
      return Ok(());
    }

    /** The `onopen` callback. */
    method OnOpen()
      requires Valid()
      modifies this
      ensures Valid() && State() == old(State()).(conn := old(conn).(reconnectAttempts := 0))
    {
      conn := conn.(reconnectAttempts := 0);
    }

    method StopAudioQueue()
      requires Valid()
      modifies this
      ensures Valid() && State() == old(State()).(play := QueueStopped(old(play)))
    {
      play := play.(sources := {}, queue := []);
      if play.audioReady {
        play := play.(nextStartTime := play.currentTime);
      }
    }

    method Disconnect(reason: Option<string>)
      requires Valid()
      modifies this
      ensures Valid() && State() == Disconnected(old(State()), reason)
    {
      conn := conn.(isManuallyClosed := true, listening := false, idleArmed := false);
      StopAudioQueue();
      play := play.(isAiSpeaking := false);
      conn := conn.(captureWired := false, sessionOpen := false);
      play := play.(audioReady := false);
      out := out.(notifications := out.notifications + [reason]);
    }

    /** `handleConnectionLoss`, for `onclose` with its close code and for
        `onerror` and a failed retry without one. */
    method HandleConnectionLoss(closeCode: Option<int>, jitter: real)
      requires Valid() && 0.0 <= jitter < 500.0
      modifies this
      ensures Valid() && State() == AfterLoss(old(State()), closeCode, jitter)
    {
      if conn.isManuallyClosed {
        return;
      }
      ghost var s0 := State();
      if IsAuthFailure(closeCode) {
        assert AfterLoss(s0, closeCode, jitter) == Disconnected(s0, Some(AuthFailedReason));
        Disconnect(Some(AuthFailedReason));
        return;
      }
      if conn.reconnectAttempts < MaxRetries {
        var attempt := conn.reconnectAttempts + 1;
        var delay := ReconnectDelay(attempt, jitter);
        assert AfterLoss(s0, closeCode, jitter) == RetryScheduled(s0, attempt, delay);
        ScheduleRetry(attempt, delay);
      } else {
        assert AfterLoss(s0, closeCode, jitter) == Disconnected(s0, Some(ConnectionLostReason));
        Disconnect(Some(ConnectionLostReason));
      }
    }

    /** The retry branch of `handleConnectionLoss`. */
    method ScheduleRetry(attempt: nat, delay: real)
      requires Valid() && attempt <= MaxRetries && 2000.0 <= delay <= MaxDelayMs
      modifies this
      ensures Valid() && State() == RetryScheduled(old(State()), attempt, delay)
    {
      conn := conn.(reconnectAttempts := attempt);
      out := out.(notifications := out.notifications + [Some(ReconnectingReason)]);
      conn := conn.(sessionOpen := false, pendingRetries := conn.pendingRetries + 1);
      out := out.(retryDelays := out.retryDelays + [delay]);
    }

    method RetryTimerFires(micGranted: bool, apiKey: string, jitter: real)
      requires Valid() && conn.pendingRetries > 0 && 0.0 <= jitter < 500.0
      modifies this
      ensures Valid() && State() == RetryFired(old(State()), micGranted, apiKey, jitter)
    {
      conn := conn.(pendingRetries := conn.pendingRetries - 1);
      if conn.isManuallyClosed {
        return;
      }
      var r := Connect(true, micGranted, apiKey);
      if r.Err? {
        HandleConnectionLoss(None, jitter);
      }
    }

    method NetworkOffline()
      requires Valid()
      modifies this
      ensures Valid() && State() == WentOffline(old(State()))
    {
      if !conn.listening {
        return;
      }
      StopAudioQueue();
      out := out.(notifications := out.notifications + [Some(OfflineReason)]);
    }

    method NetworkRecovery(micGranted: bool, apiKey: string)
      requires Valid()
      modifies this
      ensures Valid() && State() == CameOnline(old(State()), micGranted, apiKey)
    {
      if conn.listening && !conn.isManuallyClosed && !conn.sessionOpen {
        out := out.(notifications := out.notifications + [Some(RecoveryReason)]);
        var _ := Connect(true, micGranted, apiKey);
      }
    }

    /** The idle timer fires after 60 s without activity. */
    method IdleTimeout()
      requires Valid() && conn.idleArmed
      modifies this
      ensures Valid() && State() == Disconnected(old(State()), Some(IdleReason))
    {
      Disconnect(Some(IdleReason));
    }

    method PlayAudioChunk(data: string) returns (ok: bool)
      requires Valid()
      modifies this
      ensures Valid()
      ensures ok == ChunkScheduled(old(play), data).Some?
      ensures State() == old(State()).(play := ChunkScheduled(old(play), data).GetOr(old(play)))
    {
      if !play.audioReady {
        return true;
      }
      var samples := DecodeChunk(data);
      if samples.None? {
        return false;
      }
      var duration := |samples.value| as real / OutputRate;
      var start := ChunkStart(play.currentTime, play.nextStartTime);
      var source := Chunk(play.nextSourceId, start, duration);
      play := play.(queue := play.queue + [source], sources := play.sources + {play.nextSourceId},
                    nextSourceId := play.nextSourceId + 1, nextStartTime := End(source));
      assert ChunkScheduled(old(play), data) == Some(play);
      return true;
    }

    method SourceEnded(id: nat)
      requires Valid()
      modifies this
      ensures Valid() && State() == SourceFinished(old(State()), id)
    {
      play := play.(sources := play.sources - {id});
      if play.sources == {} {
        play := play.(isAiSpeaking := false);
        out := out.(activity := out.activity + [false]);
        if play.audioReady && play.currentTime > play.nextStartTime + DriftTolerance {
          play := play.(nextStartTime := play.currentTime);
        }
      }
    }

    /** The 500 ms timer set on an interruption. */
    method SpeakingResetFires()
      requires Valid() && play.pendingSpeakingResets > 0
      modifies this
      ensures Valid()
      ensures State() == old(State()).(play := old(play).(pendingSpeakingResets := old(play.pendingSpeakingResets) - 1,
                                                         isAiSpeaking := false))
    {
      play := play.(pendingSpeakingResets := play.pendingSpeakingResets - 1, isAiSpeaking := false);
    }

    /** The output clock moves forward. */
    method AdvanceClock(t: real)
      requires Valid() && t >= play.currentTime
      modifies this
      ensures Valid() && State() == old(State()).(play := old(play).(currentTime := t))
    {
      play := play.(currentTime := t);
    }

    /** The `functionCalls` loop of `handleMessage`. */
    method HandleToolCalls(calls: seq<ToolCall>)
      requires Valid()
      modifies this
      ensures Valid() && State() == ToolCallsHandled(old(State()), calls)
    {
      var updates, responses := CollectToolCalls(calls, conn.sessionOpen);
      out := out.(stateUpdates := out.stateUpdates + updates, toolResponses := out.toolResponses + responses);
    }

    method ReceiveAudio(data: string) returns (ok: bool)
      requires Valid()
      modifies this
      ensures Valid() && (State(), ok) == AudioArrived(old(State()), data)
    {
      play := play.(isAiSpeaking := true);
      out := out.(activity := out.activity + [true]);
      ok := PlayAudioChunk(data);
    }

    /** The interruption branch of `handleMessage`. */
    method Interrupt()
      requires Valid()
      modifies this
      ensures Valid() && State() == Interrupted(old(State()))
    {
      StopAudioQueue();
      play := play.(pendingSpeakingResets := play.pendingSpeakingResets + 1);
      out := out.(activity := out.activity + [false]);
    }

    method HandleMessage(calls: seq<ToolCall>, audio: Option<string>, interrupted: bool)
      requires Valid()
      modifies this
      ensures Valid() && State() == MessageHandled(old(State()), calls, audio, interrupted)
    {
      ResetIdleTimer();
      HandleToolCalls(calls);
      if audio.Some? {
        var ok := ReceiveAudio(audio.value);
        if !ok {
          return;
        }
      }
      if interrupted {
        Interrupt();
      }
    }

    /** The worklet's `onmessage`, delivered while capture is wired, for a
        block whose RMS is `rms`. */
    method OnWorkletMessage(block: seq<real>, rms: real)
      requires Valid() && conn.captureWired
      modifies this, vad
      ensures Valid()
      ensures (State(), vad.State()) == BlockCaptured(old(State()), old(vad.State()), block, rms)
    {
      if play.isAiSpeaking {
        return;
      }
      ghost var s0 := State();
      var accept := vad.Process(rms);
      if accept {
        ResetIdleTimer();
        var encoded := AudioManager.Base64EncodeAudio(block);
        if conn.sessionOpen {
          out := out.(sentAudio := out.sentAudio + [encoded]);
        }
        assert State() == BlockCaptured(s0, old(vad.State()), block, rms).0;
      }
    }
  }
}
