/** components/BreathingCircle.tsx: the guided-breathing overlay. A one-second
    interval counts each phase down and moves inhale -> hold -> exhale -> rest,
    skipping zero-length phases and counting completed cycles; a timer ends
    the exercise after three cycles and a grace period. */
module BreathingCircle {

  import opened Wrappers
  import opened ZenTypes

  datatype Phase = Inhale | Hold | Exhale | Rest

  /** Seconds per phase. */
  datatype Timings = Timings(inhale: nat, hold: nat, exhale: nat, rest: nat)

  /** The timings table: 4-7-8, coherent breathing, and box breathing for
      every other type. */
  function TimingsFor(breathing: Option<Breathing>): (r: Timings)
    ensures breathing == Some(FourSevenEight) ==> r == Timings(4, 7, 8, 0)
    ensures breathing == Some(CoherentBreathing) ==> r == Timings(5, 0, 5, 0)
    ensures breathing != Some(FourSevenEight) && breathing != Some(CoherentBreathing) ==> r == Timings(4, 4, 4, 4)
  {
    if breathing == Some(FourSevenEight) then Timings(4, 7, 8, 0)
    else if breathing == Some(CoherentBreathing) then Timings(5, 0, 5, 0)
    else Timings(4, 4, 4, 4)
  }

  /** `timings[phase]`. */
  function Duration(tm: Timings, p: Phase): nat {
    match p
    case Inhale => tm.inhale
    case Hold => tm.hold
    case Exhale => tm.exhale
    case Rest => tm.rest
  }

  /** The timings the component can run with: inhale and exhale take time. */
  predicate TimingsOk(tm: Timings) {
    tm.inhale >= 1 && tm.exhale >= 1
  }

  lemma TableTimingsOk(breathing: Option<Breathing>)
    ensures TimingsOk(TimingsFor(breathing))
  {
  }

  /** The phase successor. */
  function NextPhase(tm: Timings, p: Phase): (r: Phase)
    ensures TimingsOk(tm) ==> Duration(tm, r) >= 1
    ensures r != p
  {
    match p
    case Inhale => if tm.hold > 0 then Hold else Exhale
    case Hold => Exhale
    case Exhale => if tm.rest > 0 then Rest else Inhale
    case Rest => Inhale
  }

  /** The seconds of one full cycle, `inhale + hold + exhale + rest`. */
  function CycleDuration(tm: Timings): nat {
    tm.inhale + tm.hold + tm.exhale + tm.rest
  }

  /** What the interval callback updates: the phase, the countdown and the
      completed-cycle count. */
  datatype Circle = Circle(phase: Phase, countdown: int, cycles: nat)

  /** The start of an exercise: inhale, a full inhale countdown, no cycles. */
  function Started(tm: Timings): Circle {
    Circle(Inhale, tm.inhale, 0)
  }

  /** The reset state shown while inactive. */
  const Reset := Circle(Inhale, 4, 0)

  /** One interval tick. */
  function Tick(tm: Timings, s: Circle): (r: Circle)
    ensures s.countdown > 1 ==> r == s.(countdown := s.countdown - 1)
    ensures s.countdown <= 1 ==> r.phase == NextPhase(tm, s.phase) && r.countdown == Duration(tm, r.phase)
    ensures r.cycles == s.cycles + (if r.phase == Inhale && s.phase != Inhale then 1 else 0)
  {
    if s.countdown <= 1 then
      var next := NextPhase(tm, s.phase);
      var cycles := if next == Inhale then s.cycles + 1 else s.cycles;
      Circle(next, Duration(tm, next), cycles)
    else
      s.(countdown := s.countdown - 1)
  }

  /** While running, the phase has a non-zero length and the countdown lies
      between 1 and that length. */
  predicate Running(tm: Timings, s: Circle) {
    TimingsOk(tm) && 1 <= s.countdown <= Duration(tm, s.phase)
  }

  lemma TickKeepsRunning(tm: Timings, s: Circle)
    requires Running(tm, s)
    ensures Running(tm, Tick(tm, s))
  {
  }

  /** `n` ticks in a row. */
  function Run(tm: Timings, s: Circle, n: nat): Circle
    decreases n
  {
    if n == 0 then s else Run(tm, Tick(tm, s), n - 1)
  }

  lemma {:induction false} RunAdd(tm: Timings, s: Circle, k: nat, m: nat)
    ensures Run(tm, s, k + m) == Run(tm, Run(tm, s, k), m)
    decreases k
  {
    if k > 0 {
      RunAdd(tm, Tick(tm, s), k - 1, m);
    }
  }

  /** A phase lasts exactly its countdown: after that many ticks the next
      phase starts with its full length. */
  lemma {:induction false} PhaseLastsCountdown(tm: Timings, s: Circle)
    requires s.countdown >= 1
    ensures var next := NextPhase(tm, s.phase);
            Run(tm, s, s.countdown)
            == Circle(next, Duration(tm, next), if next == Inhale then s.cycles + 1 else s.cycles)
    decreases s.countdown
  {
    if s.countdown > 1 {
      PhaseLastsCountdown(tm, Tick(tm, s));
    }
  }

  /** A full cycle takes `inhale + hold + exhale + rest` ticks and returns to
      the start of inhale with one more completed cycle. */
  lemma {:induction false} FullCycle(tm: Timings, n: nat)
    requires TimingsOk(tm)
    ensures Run(tm, Circle(Inhale, tm.inhale, n), CycleDuration(tm)) == Circle(Inhale, tm.inhale, n + 1)
  {
    var s0 := Circle(Inhale, tm.inhale, n);
    var sE := Circle(Exhale, tm.exhale, n);
    var end := Circle(Inhale, tm.inhale, n + 1);
    PhaseLastsCountdown(tm, s0);
    if tm.hold > 0 {
      var sH := Circle(Hold, tm.hold, n);
      PhaseLastsCountdown(tm, sH);
      RunAdd(tm, s0, tm.inhale, tm.hold);
    }
    assert Run(tm, s0, tm.inhale + tm.hold) == sE;
    PhaseLastsCountdown(tm, sE);
    RunAdd(tm, s0, tm.inhale + tm.hold, tm.exhale);
    if tm.rest > 0 {
      var sR := Circle(Rest, tm.rest, n);
      PhaseLastsCountdown(tm, sR);
      RunAdd(tm, s0, tm.inhale + tm.hold + tm.exhale, tm.rest);
    } else {
      assert Run(tm, s0, tm.inhale + tm.hold + tm.exhale) == end;
    }
  }

  /** `k` full cycles from the start. */
  lemma {:induction false} Cycles(tm: Timings, k: nat)
    requires TimingsOk(tm)
    ensures Run(tm, Started(tm), k * CycleDuration(tm)) == Circle(Inhale, tm.inhale, k)
  {
    if k > 0 {
      var d := CycleDuration(tm);
      var before := (k - 1) * d;
      assert k * d == before + d by {
        assert k * d == (k - 1) * d + 1 * d;
      }
      Cycles(tm, k - 1);
      var mid := Run(tm, Started(tm), before);
      assert mid == Circle(Inhale, tm.inhale, k - 1);
      FullCycle(tm, k - 1);
      RunAdd(tm, Started(tm), before, d);
      assert Run(tm, Started(tm), before + d) == Run(tm, mid, d);
    }
  }

  /** The auto-complete delay in milliseconds. */
  function CompleteDelayMs(tm: Timings): nat {
    CycleDuration(tm) * 3 * 1000 + 1500
  }

  /** The cycle shown in the progress line, `Math.min(cycleCount + 1, 3)`. */
  function DisplayedCycle(cycles: nat): (r: nat)
    ensures 1 <= r <= 3
    ensures cycles < 3 ==> r == cycles + 1
  {
    if cycles + 1 < 3 then cycles + 1 else 3
  }

  /** With ticks every 1000 ms, the completion timer fires after the
      interval's `3 * cycle + 1` ticks: three cycles are then complete, the
      fourth has left the rest phase, and the progress line reads 3 / 3. */
  lemma CompletesAfterThreeCycles(tm: Timings)
    requires TimingsOk(tm)
    ensures CompleteDelayMs(tm) / 1000 == 3 * CycleDuration(tm) + 1
    ensures var s := Run(tm, Started(tm), CompleteDelayMs(tm) / 1000);
            s.cycles == 3 && s.phase != Rest && DisplayedCycle(s.cycles) == 3
  {
    var d := CycleDuration(tm);
    assert CompleteDelayMs(tm) == (3 * d + 1) * 1000 + 500;
    Cycles(tm, 3);
    RunAdd(tm, Started(tm), 3 * d, 1);
  }

  /** The 4-7-8 exercise auto-completes after 58.5 seconds. */
  lemma FourSevenEightDelay()
    ensures CompleteDelayMs(TimingsFor(Some(FourSevenEight))) == 58500
  {
  }

  // ---------------------------------------------------------------------

  /** The component's state (`phase`, `countdown`, `cycleCount`) and the
      effect's current configuration. */
  class BreathingCircleView {
    var timings: Timings
    var running: bool
    var phase: Phase
    var countdown: int
    var cycleCount: nat

    function State(): Circle
      reads this
    {
      Circle(phase, countdown, cycleCount)
    }

    ghost predicate Valid()
      reads this
    {
      running ==> Running(timings, State())
    }

    constructor()
      ensures Valid() && !running && State() == Reset
    {
      timings := TimingsFor(None);
      running := false;
      phase := Inhale;
      countdown := 4;
      cycleCount := 0;
    }

    /** The effect body, run whenever `isActive` or `type` changes: reset to
        inhale, and start the interval only for an active, real exercise. */
    method Configure(isActive: bool, breathing: Option<Breathing>)
      modifies this
      ensures Valid()
      ensures running <==> isActive && breathing.Some? && breathing != Some(NoBreathing)
      ensures timings == TimingsFor(breathing)
      ensures running ==> State() == Started(timings)
      ensures !running ==> State() == Reset
    {
      timings := TimingsFor(breathing);
      phase := Inhale;
      cycleCount := 0;
      if !isActive || breathing.None? || breathing == Some(NoBreathing) {
        running := false;
        countdown := 4;
        return;
      }
      running := true;
      countdown := timings.inhale;
    }

    /** The interval callback. */
    method OnInterval()
      requires Valid() && running
      modifies this
      ensures Valid() && running && timings == old(timings)
      ensures State() == Tick(timings, old(State()))
    {
      if countdown <= 1 {
        var currentPhase := phase;
        var nextPhase := Inhale;
        if currentPhase == Inhale {
          nextPhase := if timings.hold > 0 then Hold else Exhale;
        } else if currentPhase == Hold {
          nextPhase := Exhale;
        } else if currentPhase == Exhale {
          nextPhase := if timings.rest > 0 then Rest else Inhale;
          if nextPhase == Inhale {
            cycleCount := cycleCount + 1;
          }
        } else {
          nextPhase := Inhale;
          cycleCount := cycleCount + 1;
        }
        phase := nextPhase;
        countdown := Duration(timings, nextPhase);
      } else {
        countdown := countdown - 1;
      }
    }
  }
}
