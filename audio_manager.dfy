/** The capture path of services/audioManager.ts: the adaptive voice-activity
    detector, the AudioWorklet processor that resamples microphone audio to
    16 kHz and posts it in 2048-sample blocks, and the 16-bit PCM and base64
    packing of a block. Samples, RMS and the noise floor are `real`s. */
module AudioManager {

  import opened Wrappers
  import Base64

  type byte = Base64.byte

  // ---------------------------------------------------------------------
  // Adaptive voice-activity detector
  // ---------------------------------------------------------------------

  const InitialFloor: real := 0.002
  const MinFloor: real := 0.0005
  const MaxFloor: real := 0.05
  const UpperRatio: real := 5.0
  const LowerRatio: real := 2.0
  const HoldFrames: int := 5
  /** Only every 4th sample enters the energy sum. */
  const Step4: nat := 4

  /** The detector's whole state: noise floor, gate open flag, hold counter. */
  datatype Gate = Gate(floor: real, active: bool, hold: int)

  const InitialGate := Gate(InitialFloor, false, 0)

  predicate GateInvariant(g: Gate) {
    MinFloor <= g.floor <= MaxFloor && 0 <= g.hold <= HoldFrames
  }

  /** Asymmetric smoothing: down quickly (weight 0.05), up slowly (0.001). */
  function AdaptFloor(floor: real, rms: real): (r: real)
    ensures rms < floor ==> rms < r < floor
    ensures floor <= rms ==> floor <= r <= rms
  {
    if rms < floor then floor * 0.95 + rms * 0.05
    else floor * 0.999 + rms * 0.001
  }

  /** `Math.max(0.0005, Math.min(x, 0.05))`. */
  function ClampFloor(x: real): (r: real)
    ensures MinFloor <= r <= MaxFloor
    ensures MinFloor <= x <= MaxFloor ==> r == x
  {
    var m := if x < MaxFloor then x else MaxFloor;
    if MinFloor > m then MinFloor else m
  }

  /** One call of `process` on a block whose RMS is `rms`: the new state and
      whether the block is transmitted. The thresholds use the floor as
      already updated by this block. */
  function StepGate(g: Gate, rms: real): (r: (Gate, bool))
    ensures MinFloor <= r.0.floor <= MaxFloor
    ensures 0 <= g.hold <= HoldFrames ==> 0 <= r.0.hold <= HoldFrames
    ensures r.1 == r.0.active
    ensures !g.active ==> (r.1 <==> rms > UpperRatio * r.0.floor)
    ensures !g.active && r.1 ==> r.0.hold == HoldFrames
    ensures g.active && rms > LowerRatio * r.0.floor ==> r.1 && r.0.hold == HoldFrames
    ensures g.active && rms <= LowerRatio * r.0.floor ==>
              (r.1 <==> g.hold > 0) && (r.1 ==> r.0.hold == g.hold - 1)
  {
    var f := ClampFloor(AdaptFloor(g.floor, rms));
    if g.active then
      if rms > f * LowerRatio then (Gate(f, true, HoldFrames), true)
      else if g.hold > 0 then (Gate(f, true, g.hold - 1), true)
      else (Gate(f, false, g.hold), false)
    else if rms > f * UpperRatio then (Gate(f, true, HoldFrames), true)
    else (Gate(f, false, g.hold), false)
  }

  /** The floor moves toward the block's RMS: never past it, quickly when the
      block is quieter and by at most a thousandth of the gap when louder. */
  lemma FloorMovesTowardRms(g: Gate, rms: real)
    requires GateInvariant(g) && rms >= 0.0
    ensures var f := StepGate(g, rms).0.floor;
            (rms < g.floor ==> (rms <= f || f == MinFloor) && f <= g.floor)
            && (rms >= g.floor ==> g.floor <= f && f - g.floor <= 0.001 * (rms - g.floor))
  {
  }

  /** Feeding a sequence of blocks (given by their RMS values) in order:
      the final state and the accept decision of every block. */
  function Run(g: Gate, rmss: seq<real>): (r: (Gate, seq<bool>))
    ensures |r.1| == |rmss|
    ensures rmss != [] ==> r.1[0] == StepGate(g, rmss[0]).1
    decreases |rmss|
  {
    if rmss == [] then (g, [])
    else
      var (g', a) := StepGate(g, rmss[0]);
      var (g'', acc) := Run(g', rmss[1..]);
      (g'', [a] + acc)
  }

  /** Every block of the run is at or below the lower threshold of the floor
      it meets. */
  predicate QuietRun(g: Gate, rmss: seq<real>)
    decreases |rmss|
  {
    rmss == [] ||
    (var g' := StepGate(g, rmss[0]).0;
     rmss[0] <= LowerRatio * g'.floor && QuietRun(g', rmss[1..]))
  }

  /** An open gate holding `h` accepts the next `h` blocks whatever they are:
      no block is dropped within the hold time after the gate was open. */
  lemma {:induction false} OpenGateAcceptsWithinHold(g: Gate, rmss: seq<real>)
    requires g.active && 0 <= |rmss| <= g.hold <= HoldFrames
    ensures forall i :: 0 <= i < |rmss| ==> Run(g, rmss).1[i]
    ensures Run(g, rmss).0.active
    decreases |rmss|
  {
    if rmss != [] {
      var g' := StepGate(g, rmss[0]).0;
      OpenGateAcceptsWithinHold(g', rmss[1..]);
    }
  }

  /** From an open gate holding `h`, `h` quiet blocks are still sent and the
      next quiet block is dropped and closes the gate. */
  lemma {:induction false} QuietBlocksCloseAfterHold(g: Gate, rmss: seq<real>)
    requires g.active && g.hold >= 0 && |rmss| == g.hold + 1 && QuietRun(g, rmss)
    ensures Run(g, rmss).1 == seq(g.hold, _ => true) + [false]
    ensures !Run(g, rmss).0.active
    decreases |rmss|
  {
    var g' := StepGate(g, rmss[0]).0;
    if g.hold > 0 {
      QuietBlocksCloseAfterHold(g', rmss[1..]);
      assert seq(g.hold, _ => true) == [true] + seq(g'.hold, _ => true);
    }
  }

  /** Once open (by a loud block), exactly five quiet blocks pass and the
      sixth closes the gate. */
  lemma OpenedGateHoldsFiveBlocks(g: Gate, loud: real, quiet: seq<real>)
    requires !g.active && loud > UpperRatio * StepGate(g, loud).0.floor
    requires |quiet| == 6 && QuietRun(StepGate(g, loud).0, quiet)
    ensures Run(g, [loud] + quiet).1 == [true, true, true, true, true, true, false]
    ensures !Run(g, [loud] + quiet).0.active
  {
    var g' := StepGate(g, loud).0;
    QuietBlocksCloseAfterHold(g', quiet);
    assert ([loud] + quiet)[1..] == quiet;
  }

  /** A closed gate never opens on blocks whose RMS is at most five times the
      smallest floor: a flat near-silent input transmits nothing. */
  lemma {:induction false} SilenceNeverOpens(g: Gate, rmss: seq<real>)
    requires !g.active
    requires forall i :: 0 <= i < |rmss| ==> rmss[i] <= UpperRatio * MinFloor
    ensures forall i :: 0 <= i < |rmss| ==> !Run(g, rmss).1[i]
    ensures !Run(g, rmss).0.active
    decreases |rmss|
  {
    if rmss != [] {
      SilenceNeverOpens(StepGate(g, rmss[0]).0, rmss[1..]);
    }
  }

  /** The floor stays within its clamp for any sequence of RMS values. */
  lemma {:induction false} FloorStaysClamped(g: Gate, rmss: seq<real>)
    requires GateInvariant(g)
    ensures GateInvariant(Run(g, rmss).0)
    decreases |rmss|
  {
    if rmss != [] {
      FloorStaysClamped(StepGate(g, rmss[0]).0, rmss[1..]);
    }
  }

  /** `AdaptiveVoiceDetector`: the state of `StepGate` held in three fields. */
  class AdaptiveVoiceDetector {
    var noiseFloor: real
    var isActive: bool
    var currentHold: int

    function State(): Gate
      reads this
    {
      Gate(noiseFloor, isActive, currentHold)
    }

    ghost predicate Valid()
      reads this
    {
      GateInvariant(State())
    }

    constructor ()
      ensures Valid() && State() == InitialGate
    {
      noiseFloor := InitialFloor;
      isActive := false;
      currentHold := 0;
    }

    /** `process` for a block whose RMS (the square root of
        `StridedMeanSquare`) is `rms`. */
    method Process(rms: real) returns (accept: bool)
      requires Valid()
      modifies this
      ensures Valid()
      ensures (State(), accept) == StepGate(old(State()), rms)
    {
      if rms < noiseFloor {
        noiseFloor := noiseFloor * 0.95 + rms * 0.05;
      } else {
        noiseFloor := noiseFloor * 0.999 + rms * 0.001;
      }
      var capped := if noiseFloor < MaxFloor then noiseFloor else MaxFloor;
      noiseFloor := if MinFloor > capped then MinFloor else capped;

      var upperThreshold := noiseFloor * UpperRatio;
      var lowerThreshold := noiseFloor * LowerRatio;

      if isActive {
        if rms > lowerThreshold {
          currentHold := HoldFrames;
          return true;
        } else {
          if currentHold > 0 {
            currentHold := currentHold - 1;
            return true;
          } else {
            isActive := false;
            return false;
          }
        }
      } else {
        if rms > upperThreshold {
          isActive := true;
          currentHold := HoldFrames;
          return true;
        }
        return false;
      }
    }
  }

  /** Sum of squares of the samples at indices 0, 4, 8, ... */
  function StridedSumSq(s: seq<real>): (r: real)
    ensures r >= 0.0
    decreases |s|
  {
    if s == [] then 0.0
    else s[0] * s[0] + StridedSumSq(s[if |s| < Step4 then |s| else Step4..])
  }

  /** The mean square `process` takes the root of: the strided sum divided by
      `length / 4` (a real quotient, as in JavaScript). */
  function MeanSquare(s: seq<real>): (r: real)
    requires |s| > 0
    ensures r >= 0.0
  {
    StridedSumSq(s) / (|s| as real / Step4 as real)
  }

  /** Only the sampled positions matter: blocks that agree at every index
      divisible by 4 have the same energy. */
  lemma {:induction false} StridedSumSqSamplesEvery4th(s: seq<real>, t: seq<real>)
    requires |s| == |t|
    requires forall i :: 0 <= i < |s| && i % 4 == 0 ==> s[i] == t[i]
    ensures StridedSumSq(s) == StridedSumSq(t)
    decreases |s|
  {
    if s != [] {
      var k := if |s| < Step4 then |s| else Step4;
      forall i | 0 <= i < |s| - k && i % 4 == 0 ensures s[k..][i] == t[k..][i] {
        assert (i + k) % 4 == 0;
      }
      StridedSumSqSamplesEvery4th(s[k..], t[k..]);
    }
  }

  /** The samples of `block` from index `i` on (none once `i` is past the end). */
  function From(block: seq<real>, i: nat): seq<real> {
    block[if i < |block| then i else |block|..]
  }

  /** One step of the strided sum: sample `i` squared, then on from `i + 4`. */
  lemma StridedSumSqStep(block: seq<real>, i: nat)
    requires i < |block|
    ensures StridedSumSq(From(block, i)) == block[i] * block[i] + StridedSumSq(From(block, i + Step4))
  {
    assert From(block, i)[if |block| - i < Step4 then |block| - i else Step4..] == From(block, i + Step4);
  }

  /** The summing loop of `process`. */
  method StridedMeanSquare(block: seq<real>) returns (ms: real)
    requires |block| > 0
    ensures ms == MeanSquare(block)
    ensures ms >= 0.0
  {
    var sum := 0.0;
    var i := 0;
    assert From(block, 0) == block;
    while i < |block|
      invariant i % 4 == 0
      invariant sum + StridedSumSq(From(block, i)) == StridedSumSq(block)
      decreases |block| - i
    {
      StridedSumSqStep(block, i);
      sum := sum + block[i] * block[i];
      i := i + Step4;
    }
    assert From(block, i) == [];
    ms := sum / (|block| as real / Step4 as real);
  }

  // ---------------------------------------------------------------------
  // AudioWorklet processor: resampling and 2048-sample blocks
  // ---------------------------------------------------------------------

  const TargetRate: int := 16000
  const BufferThreshold: int := 2048

  /** `Math.ceil(n / (rate / 16000))`, computed exactly on integers. */
  function ResampledLength(n: nat, rate: int): (r: nat)
    requires rate > 0
    ensures rate == TargetRate ==> r == n
    ensures n == 0 ==> r == 0
  {
    (n * TargetRate + rate - 1) / rate
  }

  /** The output length is the least whole number of 16 kHz samples that
      covers the input: its duration is within one output sample period of
      the input's. */
  lemma ResampledLengthCoversInput(n: nat, rate: int)
    requires rate > 0
    ensures var l := ResampledLength(n, rate);
            l * rate >= n * TargetRate && (l - 1) * rate < n * TargetRate
    ensures var l := ResampledLength(n, rate) as real;
            l / TargetRate as real >= n as real / rate as real
            && l / TargetRate as real - n as real / rate as real < 1.0 / TargetRate as real
  {
    var l := ResampledLength(n, rate);
    var m := n * TargetRate + rate - 1;
    assert m == l * rate + m % rate;
    assert l * rate >= n * TargetRate;
    assert (l - 1) * rate < n * TargetRate;
    var lr, nr, rr := l as real, n as real, rate as real;
    assert lr * rr >= nr * 16000.0;
    assert (lr - 1.0) * rr < nr * 16000.0;
    DivideBoth(nr, lr, rr, 16000.0, false);
    DivideBoth(lr - 1.0, nr, 16000.0, rr, true);
  }

  /** `x * b <= y * a` (strictly when `strict`) gives `x / a <= y / b`. */
  lemma DivideBoth(x: real, y: real, a: real, b: real, strict: bool)
    requires a > 0.0 && b > 0.0
    requires if strict then x * b < y * a else x * b <= y * a
    ensures if strict then x / a < y / b else x / a <= y / b
  {
    var ab := a * b;
    assert ab > 0.0;
    assert x / a == (x * b) / ab;
    assert y / b == (y * a) / ab;
  }

  /** Read position of output sample `i`: `i * ratio`, its integer part and
      the fractional part used as interpolation weight. */
  function Offset(i: nat, rate: int): real
    requires rate > 0
  {
    i as real * (rate as real / TargetRate as real)
  }

  /** The value appended for output sample `i`: `a + (b - a) * decimal`,
      where `a` is the sample at the read index and `b` the next one, or `a`
      at the end of the block. */
  function Interpolate(x: seq<real>, i: nat, rate: int): (r: real)
    requires rate > 0
    ensures rate == TargetRate && i < |x| ==> r == x[i]
  {
    LerpAt(x, Offset(i, rate))
  }

  /** Linear interpolation of `x` at a read position. */
  function LerpAt(x: seq<real>, offset: real): (r: real)
    ensures offset == offset.Floor as real && 0 <= offset.Floor < |x| ==> r == x[offset.Floor]
  {
    var index := offset.Floor;
    var decimal := offset - index as real;
    var a := if 0 <= index < |x| then x[index] else 0.0;
    var b := if 0 <= index + 1 < |x| then x[index + 1] else a;
    a + (b - a) * decimal
  }

  /** The source's expression `channelData[index + 1] || a`: JavaScript's `||`
      also replaces a neighbour that is exactly 0.0, not only a missing one. */
  function InterpolateAsWritten(x: seq<real>, i: nat, rate: int): (r: real)
    requires rate > 0
    ensures (forall j :: 0 <= j < |x| ==> x[j] != 0.0) ==> r == Interpolate(x, i, rate)
  {
    var offset := Offset(i, rate);
    var index := offset.Floor;
    var decimal := offset - index as real;
    var a := if 0 <= index < |x| && x[index] != 0.0 then x[index] else 0.0;
    var b := if 0 <= index + 1 < |x| && x[index + 1] != 0.0 then x[index + 1] else a;
    a + (b - a) * decimal
  }

  /** What one `process` call appends for one channel block at `rate`. */
  function Resample(x: seq<real>, rate: int): (r: seq<real>)
    requires rate > 0
    ensures rate == TargetRate ==> r == x
    ensures rate != TargetRate ==> |r| == ResampledLength(|x|, rate)
  {
    if rate == TargetRate then x
    else seq(ResampledLength(|x|, rate), i requires 0 <= i => Interpolate(x, i, rate))
  }

  /** At 16 kHz the interpolation formula itself reproduces the input: the
      pass-through branch agrees with the resampling branch. */
  lemma InterpolationAtTargetRateIsIdentity(x: seq<real>)
    ensures ResampledLength(|x|, TargetRate) == |x|
    ensures forall i :: 0 <= i < |x| ==> Interpolate(x, i, TargetRate) == x[i]
  {
    forall i | 0 <= i < |x| ensures Interpolate(x, i, TargetRate) == x[i] {
      assert Offset(i, TargetRate) == i as real;
      assert (i as real).Floor == i;
    }
  }

  /** Every output sample reads inside the block. */
  lemma ReadIndexInBlock(n: nat, i: nat, rate: int)
    requires rate > 0 && i < ResampledLength(n, rate)
    ensures 0 <= Offset(i, rate).Floor < n
  {
    ResampledLengthCoversInput(n, rate);
    assert i * rate < n * TargetRate;
    var ir, nr, rr := i as real, n as real, rate as real;
    assert ir * rr < nr * 16000.0;
    assert Offset(i, rate) == ir * rr / 16000.0;
    assert Offset(i, rate) < nr;
    assert Offset(i, rate) >= 0.0;
  }

  lemma MulNonNegative(p: real, q: real)
    requires p >= 0.0 && q >= 0.0
    ensures p * q >= 0.0
  {
  }

  /** A weighted mean with weight `d` in [0, 1] lies between its two ends. */
  lemma MixBetween(a: real, b: real, d: real, lo: real, hi: real)
    requires 0.0 <= d <= 1.0 && lo <= a <= hi && lo <= b <= hi
    ensures lo <= a + (b - a) * d <= hi
  {
    var p := b - a;
    MulNonNegative(if p >= 0.0 then p else -p, d);
    MulNonNegative(if p >= 0.0 then p else -p, 1.0 - d);
    assert p - p * d == p * (1.0 - d);
  }

  /** Each output sample lies between the input samples around its read
      position. */
  lemma InterpolateBetween(x: seq<real>, j: nat, rate: int, lo: real, hi: real)
    requires rate > 0 && rate != TargetRate && j < ResampledLength(|x|, rate)
    requires forall k :: 0 <= k < |x| ==> lo <= x[k] <= hi
    ensures lo <= Interpolate(x, j, rate) <= hi
  {
    ReadIndexInBlock(|x|, j, rate);
    var offset := Offset(j, rate);
    var k := offset.Floor;
    var a := x[k];
    var b := if k + 1 < |x| then x[k + 1] else a;
    MixBetween(a, b, offset - k as real, lo, hi);
  }

  /** Resampling never leaves the range of the input, so a block within
      [-1, 1] stays within [-1, 1]. */
  lemma ResampleStaysInRange(x: seq<real>, rate: int, lo: real, hi: real)
    requires rate > 0
    requires forall j :: 0 <= j < |x| ==> lo <= x[j] <= hi
    ensures forall j :: 0 <= j < |Resample(x, rate)| ==> lo <= Resample(x, rate)[j] <= hi
  {
    if rate != TargetRate {
      forall j | 0 <= j < ResampledLength(|x|, rate)
        ensures lo <= Interpolate(x, j, rate) <= hi
      {
        InterpolateBetween(x, j, rate, lo, hi);
      }
    }
  }

  /** Linear interpolation reproduces a linear signal: on a ramp
      `x[j] = c * j + d`, every output sample that has both neighbours equals
      the ramp's value at its read position. */
  lemma InterpolateFollowsRamp(x: seq<real>, rate: int, c: real, d: real, i: nat)
    requires rate > 0
    requires forall j :: 0 <= j < |x| ==> x[j] == c * j as real + d
    requires 0 <= Offset(i, rate).Floor && Offset(i, rate).Floor + 1 < |x|
    ensures Interpolate(x, i, rate) == c * Offset(i, rate) + d
  {
    var offset := Offset(i, rate);
    var k := offset.Floor;
    var frac := offset - k as real;
    assert x[k] == c * k as real + d;
    assert x[k + 1] == c * (k + 1) as real + d;
    assert x[k + 1] - x[k] == c;
    assert Interpolate(x, i, rate) == x[k] + c * frac;
    assert c * k as real + c * frac == c * offset;
  }

  /** As written, the same ramp is not followed where it crosses zero: at
      44.1 kHz, output sample 1 of the ramp -3, -2, -1, 0, 1 reads position
      2.75625, whose right neighbour 0.0 is taken for a missing sample. */
  lemma AsWrittenBreaksRampAtZero()
    ensures var x := [-3.0, -2.0, -1.0, 0.0, 1.0];
            Interpolate(x, 1, 44100) == 2.75625 - 3.0
            && InterpolateAsWritten(x, 1, 44100) == -1.0
  {
    var x := [-3.0, -2.0, -1.0, 0.0, 1.0];
    assert Offset(1, 44100) == 2.75625;
    assert (2.75625).Floor == 2;
    InterpolateFollowsRamp(x, 44100, 1.0, -3.0, 1);
  }

  /** One output sample of the resampling loop with the corrected neighbour
      read of `Interpolate` (a sample of exactly 0.0 is a sample, not a
      missing one): read position `i * ratio`, its two neighbours, and the
      blend. */
  method InterpolatedSample(channelData: seq<real>, i: nat, ratio: real) returns (val: real)
    ensures val == LerpAt(channelData, i as real * ratio)
  {
    var offset := i as real * ratio;
    var index := offset.Floor;
    var decimal := offset - index as real;
    var a := if 0 <= index < |channelData| then channelData[index] else 0.0;
    var b := if 0 <= index + 1 < |channelData| then channelData[index + 1] else a;
    val := a + (b - a) * decimal;
  }

  lemma ResampleAt(x: seq<real>, rate: int, ratio: real, i: nat)
    requires rate > 0 && rate != TargetRate && i < ResampledLength(|x|, rate)
    requires ratio == rate as real / TargetRate as real
    ensures Resample(x, rate)[i] == LerpAt(x, i as real * ratio)
  {
    assert Resample(x, rate)[i] == Interpolate(x, i, rate);
    OffsetByRatio(i, rate, ratio);
  }

  lemma OffsetByRatio(i: nat, rate: int, ratio: real)
    requires rate > 0 && ratio == rate as real / TargetRate as real
    ensures Offset(i, rate) == i as real * ratio
  {
  }

  /** Concatenation of the posted blocks, oldest first. */
  function Flatten(blocks: seq<seq<real>>): (r: seq<real>)
    decreases |blocks|
  {
    if blocks == [] then [] else Flatten(blocks[..|blocks| - 1]) + blocks[|blocks| - 1]
  }

  lemma FlattenAppend(blocks: seq<seq<real>>, b: seq<real>)
    ensures Flatten(blocks + [b]) == Flatten(blocks) + b
  {
    assert (blocks + [b])[..|blocks|] == blocks;
  }

  /** `AudioInputProcessor`: values accumulate in a 4096-slot buffer and are
      posted to the main thread whenever 2048 have gathered. */
  class AudioInputProcessor {
    const buffer: array<real>
    var byteCount: int
    /** Blocks posted through `port.postMessage`, oldest first. */
    var posted: seq<seq<real>>
    /** Every value handed to `appendToBuffer` so far. */
    ghost var appended: seq<real>

    ghost predicate Inv()
      reads this, buffer
    {
      && buffer.Length == 2 * BufferThreshold
      && 0 <= byteCount <= BufferThreshold
      && (forall k :: 0 <= k < |posted| ==> |posted[k]| == BufferThreshold)
      && Flatten(posted) + buffer[..byteCount] == appended
    }

    /** Between calls fewer than 2048 values wait in the buffer. */
    ghost predicate Valid()
      reads this, buffer
    {
      Inv() && byteCount < BufferThreshold
    }

    constructor ()
      ensures Valid() && fresh(buffer)
      ensures posted == [] && appended == [] && byteCount == 0
    {
      buffer := new real[2 * BufferThreshold];
      byteCount := 0;
      posted := [];
      appended := [];
    }

    /** `flush`: post the filled part of the buffer and empty it. */
    method Flush()
      requires Inv() && byteCount == BufferThreshold
      modifies this
      ensures Valid() && byteCount == 0
      ensures posted == old(posted) + [old(buffer[..byteCount])]
      ensures appended == old(appended)
    {
      var dataToSend := buffer[..byteCount];
      FlattenAppend(posted, dataToSend);
      posted := posted + [dataToSend];
      byteCount := 0;
    }

    /** `appendToBuffer`: store the value; post a block once 2048 are held. */
    method AppendToBuffer(value: real)
      requires Valid()
      modifies this, buffer
      ensures Valid()
      ensures appended == old(appended) + [value]
      ensures |old(posted)| <= |posted| && posted[..|old(posted)|] == old(posted)
      ensures old(byteCount) + 1 < BufferThreshold ==>
                posted == old(posted) && byteCount == old(byteCount) + 1
      ensures old(byteCount) + 1 == BufferThreshold ==>
                posted == old(posted) + [old(buffer[..byteCount]) + [value]] && byteCount == 0
    {
      appended := appended + [value];
      if byteCount < buffer.Length {
        buffer[byteCount] := value;
        byteCount := byteCount + 1;
        assert buffer[..byteCount] == old(buffer[..byteCount]) + [value];
      }
      if byteCount >= BufferThreshold {
        Flush();
      }
    }

    /** `pushData`: append every value of `data` in order. */
    method PushData(data: seq<real>)
      requires Valid()
      modifies this, buffer
      ensures Valid()
      ensures appended == old(appended) + data
      ensures |old(posted)| <= |posted| && posted[..|old(posted)|] == old(posted)
    {
      var i := 0;
      while i < |data|
        invariant 0 <= i <= |data|
        invariant Valid()
        invariant appended == old(appended) + data[..i]
        invariant |old(posted)| <= |posted| && posted[..|old(posted)|] == old(posted)
      {
        AppendToBuffer(data[i]);
        assert data[..i + 1] == data[..i] + [data[i]];
        i := i + 1;
      }
    }

    /** The resampling loop of `process`: `ceil(n / ratio)` interpolated
        values appended in order. */
    method PushResampled(channelData: seq<real>, sampleRate: int)
      requires Valid() && sampleRate > 0 && sampleRate != TargetRate
      modifies this, buffer
      ensures Valid()
      ensures appended == old(appended) + Resample(channelData, sampleRate)
      ensures |old(posted)| <= |posted| && posted[..|old(posted)|] == old(posted)
    {
      var ratio := sampleRate as real / TargetRate as real;
      var newLength := ResampledLength(|channelData|, sampleRate);
      ghost var out := Resample(channelData, sampleRate);
      var i := 0;
      while i < newLength
        invariant 0 <= i <= newLength == |out|
        invariant Valid()
        invariant appended == old(appended) + out[..i]
        invariant |old(posted)| <= |posted| && posted[..|old(posted)|] == old(posted)
      {
        var val := InterpolatedSample(channelData, i, ratio);
        ResampleAt(channelData, sampleRate, ratio, i);
        assert out[i] == val;
        AppendToBuffer(val);
        assert out[..i + 1] == out[..i] + [val];
        i := i + 1;
      }
      assert out[..newLength] == out;
    }

    /** `process`: the first channel of the first input, passed through at
        16 kHz and otherwise resampled by linear interpolation (the corrected
        `Interpolate`). Always keeps the processor alive. */
    method Process(input: seq<seq<real>>, sampleRate: int) returns (keepAlive: bool)
      requires Valid() && sampleRate > 0
      modifies this, buffer
      ensures Valid() && keepAlive
      ensures appended == old(appended) + (if |input| > 0 then Resample(input[0], sampleRate) else [])
      ensures |old(posted)| <= |posted| && posted[..|old(posted)|] == old(posted)
    {
      if |input| > 0 {
        var channelData := input[0];
        if sampleRate == TargetRate {
          PushData(channelData);
        } else {
          PushResampled(channelData, sampleRate);
        }
      }
      keepAlive := true;
    }
  }

  /** Every value handed to the worklet is either in a posted block or still
      waiting, in order, none dropped, and every posted block holds exactly
      2048 samples. */
  lemma WorkletLosesNothing(p: AudioInputProcessor)
    requires p.Valid()
    ensures forall k :: 0 <= k < |p.posted| ==> |p.posted[k]| == BufferThreshold
    ensures Flatten(p.posted) + p.buffer[..p.byteCount] == p.appended
    ensures |p.appended| == BufferThreshold * |p.posted| + p.byteCount
  {
    FlattenLength(p.posted);
  }

  lemma {:induction false} FlattenLength(blocks: seq<seq<real>>)
    requires forall k :: 0 <= k < |blocks| ==> |blocks[k]| == BufferThreshold
    ensures |Flatten(blocks)| == BufferThreshold * |blocks|
    decreases |blocks|
  {
    if blocks != [] {
      FlattenLength(blocks[..|blocks| - 1]);
    }
  }

  // ---------------------------------------------------------------------
  // 16-bit PCM and base64 packing
  // ---------------------------------------------------------------------

  /** `Math.max(-1, Math.min(1, x))`. */
  function Clamp(x: real): (r: real)
    ensures -1.0 <= r <= 1.0
    ensures -1.0 <= x <= 1.0 ==> r == x
  {
    var m := if x < 1.0 then x else 1.0;
    if -1.0 > m then -1.0 else m
  }

  /** Truncation toward zero, what `setInt16` applies to a non-integer. */
  function Truncate(r: real): int {
    if r >= 0.0 then r.Floor else -((-r).Floor)
  }

  /** The int16 written for one sample: clamped, scaled by 0x8000 when
      negative and by 0x7FFF otherwise, truncated. */
  function Quantize(x: real): (v: int)
    ensures -32768 <= v <= 32767
    ensures x >= 1.0 ==> v == 32767
    ensures x <= -1.0 ==> v == -32768
    ensures (x < 0.0 <==> v < 0) || (x < 0.0 && v == 0)
  {
    var s := Clamp(x);
    if s < 0.0 then Truncate(s * 32768.0) else Truncate(s * 32767.0)
  }

  /** Two's-complement little-endian bytes of an int16. */
  function Int16LE(v: int): (r: seq<byte>)
    requires -32768 <= v <= 32767
    ensures |r| == 2
  {
    var u := if v < 0 then v + 65536 else v;
    [(u % 256) as byte, (u / 256) as byte]
  }

  /** The int16 stored little-endian in two bytes (an `Int16Array` view). */
  function FromInt16LE(lo: byte, hi: byte): (v: int)
    ensures -32768 <= v <= 32767
  {
    var u := lo as int + 256 * hi as int;
    if u >= 32768 then u - 65536 else u
  }

  lemma Int16RoundTrip(v: int)
    requires -32768 <= v <= 32767
    ensures FromInt16LE(Int16LE(v)[0], Int16LE(v)[1]) == v
  {
  }

  /** The bytes `floatTo16BitPCM` produces: sample `i` at offsets `2i`, `2i+1`. */
  function Pcm16(samples: seq<real>): (r: seq<byte>)
    ensures |r| == 2 * |samples|
  {
    seq(2 * |samples|, k requires 0 <= k < 2 * |samples| => Int16LE(Quantize(samples[k / 2]))[k % 2])
  }

  /** `floatTo16BitPCM`: a fresh buffer of `2n` bytes written one sample at a
      time. */
  method FloatTo16BitPCM(samples: seq<real>) returns (buf: array<byte>)
    ensures fresh(buf)
    ensures buf[..] == Pcm16(samples)
  {
    buf := new byte[2 * |samples|];
    var i := 0;
    while i < |samples|
      invariant 0 <= i <= |samples|
      invariant forall k :: 0 <= k < 2 * i ==> buf[k] == Pcm16(samples)[k]
    {
      var s := Clamp(samples[i]);
      var v := if s < 0.0 then Truncate(s * 32768.0) else Truncate(s * 32767.0);
      var le := Int16LE(v);
      buf[2 * i] := le[0];
      buf[2 * i + 1] := le[1];
      i := i + 1;
    }
    assert buf[..] == Pcm16(samples);
  }

  /** `String.fromCharCode` of every byte, appended in order. */
  method BinaryString(bytes: array<byte>) returns (binary: string)
    ensures |binary| == bytes.Length
    ensures forall i :: 0 <= i < bytes.Length ==> binary[i] as int == bytes[i] as int
  {
    binary := "";
    var i := 0;
    while i < bytes.Length
      invariant 0 <= i <= bytes.Length
      invariant |binary| == i
      invariant forall k :: 0 <= k < i ==> binary[k] as int == bytes[k] as int
    {
      binary := binary + [bytes[i] as int as char];
      i := i + 1;
    }
  }

  /** `btoa`: base64 of a string whose characters are all below 256;
      `None` stands for the `InvalidCharacterError` it throws otherwise. */
  function Btoa(s: string): (r: Option<string>)
    ensures r.Some? <==> forall i :: 0 <= i < |s| ==> s[i] as int < 256
  {
    if forall i :: 0 <= i < |s| ==> s[i] as int < 256 then
      Some(Base64.Encode(seq(|s|, i requires 0 <= i < |s| => s[i] as int as byte)))
    else None
  }

  /** `base64EncodeAudio`: the RFC 4648 section 4 encoding of the block's
      16-bit PCM bytes. */
  method Base64EncodeAudio(samples: seq<real>) returns (encoded: string)
    ensures encoded == Base64.Encode(Pcm16(samples))
    ensures Base64.Decode(encoded) == Some(Pcm16(samples))
  {
    var pcm := FloatTo16BitPCM(samples);
    var binary := BinaryString(pcm);
    var b := Btoa(binary);
    assert seq(|binary|, i requires 0 <= i < |binary| => binary[i] as int as byte) == pcm[..];
    encoded := b.value;
    Base64.RoundTrip(Pcm16(samples));
  }
}
