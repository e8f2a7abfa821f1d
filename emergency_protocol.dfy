/** components/EmergencyProtocol.tsx: the crisis overlay. It shows an alert,
    moves to a paced 4-4-4 breathing exercise after 3 s, and to a page of
    help resources after 45 s or when the user presses "I feel better".
    Closing it resets the phase to the alert. The component stays mounted
    between crises (App.tsx:213-219), so its state carries over. */
module EmergencyProtocol {

  import Text

  datatype ProtocolPhase = Alert | Breathing | Resources

  /** The breathing loop's `cycleState`: in, hold, out. */
  datatype CycleState = In | Hold | Out

  /** The loop's local `counter` and `cycleState`. */
  datatype Breath = Breath(counter: int, cycle: CycleState)

  const BreathStart := Breath(4, In)

  const InitialInstruction: string := "H\U{CD}T V\U{C0}O"
  const InhaleText: string := "H\U{CD}T V\U{C0}O / INHALE"
  const HoldText: string := "GI\U{1EEE} / HOLD"
  const ExhaleText: string := "TH\U{1EDE} RA / EXHALE"

  function NextCycle(c: CycleState): CycleState {
    match c
    case In => Hold
    case Hold => Out
    case Out => In
  }

  /** The instruction set on entering a cycle state. */
  function InstructionFor(c: CycleState): string {
    match c
    case In => InhaleText
    case Hold => HoldText
    case Out => ExhaleText
  }

  /** `runBreathing` on the loop's locals. */
  function RunBreathing(b: Breath): (r: Breath)
    ensures b.counter > 1 ==> r == Breath(b.counter - 1, b.cycle)
    ensures b.counter <= 1 ==> r == Breath(4, NextCycle(b.cycle))
    ensures 1 <= b.counter <= 4 ==> 1 <= r.counter <= 4
  {
    if b.counter <= 1 then Breath(4, NextCycle(b.cycle))
    else Breath(b.counter - 1, b.cycle)
  }

  /** `n` ticks of the loop. */
  function Ticks(b: Breath, n: nat): Breath
    decreases n
  {
    if n == 0 then b else Ticks(RunBreathing(b), n - 1)
  }

  lemma {:induction false} TicksAdd(b: Breath, k: nat, m: nat)
    ensures Ticks(b, k + m) == Ticks(Ticks(b, k), m)
    decreases k
  {
    if k > 0 {
      TicksAdd(RunBreathing(b), k - 1, m);
    }
  }

  /** Each cycle state lasts four ticks. */
  lemma StateSpansFourTicks(c: CycleState)
    ensures Ticks(Breath(4, c), 4) == Breath(4, NextCycle(c))
  {
    assert Ticks(Breath(1, c), 1) == Breath(4, NextCycle(c));
    assert Ticks(Breath(2, c), 2) == Breath(4, NextCycle(c));
    assert Ticks(Breath(3, c), 3) == Breath(4, NextCycle(c));
  }

  /** Inhale, hold and exhale take twelve ticks and return to the start. */
  lemma {:induction false} TwelveTickCycle()
    ensures Ticks(BreathStart, 12) == BreathStart
  {
    StateSpansFourTicks(In);
    StateSpansFourTicks(Hold);
    StateSpansFourTicks(Out);
    TicksAdd(BreathStart, 4, 4);
    TicksAdd(BreathStart, 8, 4);
  }

  /** The ring drawn around the count, chosen from the instruction text by
      looking for "HÍT", then "GIỮ". */
  datatype Ring = InhaleRing | HoldRing | ExhaleRing

  function RingOf(instruction: string): Ring {
    if Text.Includes(instruction, "H\U{CD}T") then InhaleRing
    else if Text.Includes(instruction, "GI\U{1EEE}") then HoldRing
    else ExhaleRing
  }

  function RingFor(c: CycleState): Ring {
    match c
    case In => InhaleRing
    case Hold => HoldRing
    case Out => ExhaleRing
  }

  /** A text lacking one of `k`'s characters does not contain `k`. */
  lemma {:induction false} MissingCharNotIncluded(s: string, k: string, j: nat)
    requires j < |k| && k[j] !in s
    ensures !Text.Includes(s, k)
    decreases |s|
  {
    if |k| <= |s| {
      assert s[..|k|][j] == s[j];
    }
    if s != [] {
      assert k[j] !in s[1..] by {
        forall i | 0 <= i < |s| - 1 ensures s[1..][i] != k[j] {
          assert s[1..][i] == s[i + 1];
        }
      }
      MissingCharNotIncluded(s[1..], k, j);
    }
  }

  /** Every instruction draws the ring of its own cycle state, and the
      initial one draws the inhale ring. */
  lemma InstructionRings(c: CycleState)
    ensures RingOf(InstructionFor(c)) == RingFor(c)
    ensures RingOf(InitialInstruction) == InhaleRing
  {
    assert Text.IsPrefix("H\U{CD}T", InitialInstruction);
    match c
    case In => assert Text.IsPrefix("H\U{CD}T", InhaleText);
    case Hold => HoldRingDrawn();
    case Out => ExhaleLacksInhale(); ExhaleLacksHold();
  }

  lemma HoldRingDrawn()
    ensures RingOf(HoldText) == HoldRing
  {
    assert Text.IsPrefix("GI\U{1EEE}", HoldText);
    MissingCharNotIncluded(HoldText, "H\U{CD}T", 1);
  }

  lemma ExhaleLacksInhale()
    ensures !Text.Includes(ExhaleText, "H\U{CD}T")
  {
    MissingCharNotIncluded(ExhaleText, "H\U{CD}T", 1);
  }

  lemma ExhaleLacksHold()
    ensures !Text.Includes(ExhaleText, "GI\U{1EEE}")
  {
    MissingCharNotIncluded(ExhaleText, "GI\U{1EEE}", 2);
  }

  // ---------------------------------------------------------------------
  // The component's state and its events

  /** `isActive`, `phase`, the displayed `breathCount` and `instruction`, the
      running loop's locals, and the number of alert sounds played. */
  datatype View = View(active: bool, phase: ProtocolPhase, breathCount: int,
                       instruction: string, breath: Breath, alerts: nat)

  const InitialView := View(false, Alert, 4, InitialInstruction, BreathStart, 0)

  /** The display agrees with the loop: the count shown is the loop's counter
      and the ring is the one of its cycle state. */
  predicate InSync(v: View) {
    v.breathCount == v.breath.counter && RingOf(v.instruction) == RingFor(v.breath.cycle)
  }

  /** A closed overlay is at its alert; the breathing loop's counter stays in
      [1, 4] and, while breathing, the display is in sync with it. */
  predicate ViewInvariant(v: View) {
    (!v.active ==> v.phase == Alert)
    && 1 <= v.breath.counter <= 4
    && (v.phase == Breathing ==> InSync(v))
  }

  /** A change of `isActive`: closing resets to the alert; opening at the
      alert plays the alert sound and arms the 3 s timer. */
  function ActiveSet(v: View, isActive: bool): (r: View)
    ensures !isActive ==> r.phase == Alert && !r.active
    ensures isActive && !v.active ==> r.active && r.phase == v.phase
    ensures isActive && !v.active && v.phase == Alert ==> r.alerts == v.alerts + 1
    ensures ViewInvariant(v) ==> ViewInvariant(r)
  {
    if !isActive then v.(active := false, phase := Alert)
    else if v.active then v
    else v.(active := true, alerts := if v.phase == Alert then v.alerts + 1 else v.alerts)
  }

  /** The 3 s alert timer, as written: the loop restarts at inhale with a
      counter of 4, but the count and instruction shown are left as the last
      exercise left them. */
  function AlertElapsedAsWritten(v: View): (r: View)
    requires v.active && v.phase == Alert
    ensures r.phase == Breathing && r.breath == BreathStart
    ensures r.breathCount == v.breathCount && r.instruction == v.instruction
  {
    v.(phase := Breathing, breath := BreathStart)
  }

  /** The 3 s alert timer, with the display reset with the loop. */
  function AlertElapsed(v: View): (r: View)
    requires v.active && v.phase == Alert
    ensures r.phase == Breathing && r.breath == BreathStart
    ensures InSync(r)
    ensures ViewInvariant(v) ==> ViewInvariant(r)
  {
    InstructionRings(In);
    v.(phase := Breathing, breath := BreathStart, breathCount := 4, instruction := InhaleText)
  }

  /** One second of the breathing loop: the counter is shown, and the
      instruction changes only when the cycle state does. */
  function Ticked(v: View): (r: View)
    requires v.active && v.phase == Breathing
    ensures r.breath == RunBreathing(v.breath) && r.breathCount == r.breath.counter
    ensures r.breath.cycle != v.breath.cycle ==> r.instruction == InstructionFor(r.breath.cycle)
    ensures r.breath.cycle == v.breath.cycle ==> r.instruction == v.instruction
    ensures r.phase == Breathing && r.active
    ensures ViewInvariant(v) ==> ViewInvariant(r)
  {
    var b := RunBreathing(v.breath);
    InstructionRings(b.cycle);
    if v.breath.counter <= 1 then v.(breath := b, breathCount := b.counter, instruction := InstructionFor(b.cycle))
    else v.(breath := b, breathCount := b.counter)
  }

  /** The 45 s timer or the "I feel better" button. */
  function ResourcesShown(v: View): (r: View)
    requires v.active && v.phase == Breathing
    ensures r.phase == Resources && r.active
    ensures ViewInvariant(v) ==> ViewInvariant(r)
  {
    v.(phase := Resources)
  }

  /** With the timer as written, a second crisis in the same page can open
      the breathing screen reading "exhale" while the loop is at inhale. */
  lemma StaleInstructionOnSecondCrisis()
    ensures var v0 := ActiveSet(InitialView, true);
            var v1 := AlertElapsed(v0);
            var v2 := Ticked(Ticked(Ticked(Ticked(Ticked(Ticked(Ticked(Ticked(v1))))))));
            var v3 := ActiveSet(ResourcesShown(v2), false);
            var v4 := AlertElapsedAsWritten(ActiveSet(v3, true));
            v4.breath.cycle == In && v4.instruction == ExhaleText && !InSync(v4)
  {
    InstructionRings(Out);
  }

  /** With the display reset, the breathing screen is in sync from its
      first second on, whatever came before. */
  lemma BreathingScreenStartsInSync(v: View)
    requires v.active && v.phase == Alert
    ensures AlertElapsed(v).instruction == InhaleText && AlertElapsed(v).breathCount == 4
    ensures InSync(AlertElapsed(v))
  {
  }

  /** The overlay's state as an object. */
  class EmergencyProtocolView {
    var active: bool
    var phase: ProtocolPhase
    var breathCount: int
    var instruction: string
    var breath: Breath
    var alerts: nat

    function State(): View
      reads this
    {
      View(active, phase, breathCount, instruction, breath, alerts)
    }

    ghost predicate Valid()
      reads this
    {
      ViewInvariant(State())
    }

    constructor()
      ensures Valid() && State() == InitialView
    {
      active := false;
      phase := Alert;
      breathCount := 4;
      instruction := InitialInstruction;
      breath := BreathStart;
      alerts := 0;
      InstructionRings(In);
    }

    /** A new `isActive` and the effect it runs. */
    method SetActive(isActive: bool)
      requires Valid()
      modifies this
      ensures Valid() && State() == ActiveSet(old(State()), isActive)
    {
      if !isActive {
        active := false;
        phase := Alert;
        return;
      }
      if !active {
        active := true;
        if phase == Alert {
          alerts := alerts + 1;
        }
      }
    }

    /** The alert timer fires and the breathing effect starts. */
    method OnAlertTimer()
      requires Valid() && active && phase == Alert
      modifies this
      ensures Valid() && State() == AlertElapsed(old(State()))
    {
      phase := Breathing;
      breath := BreathStart;
      breathCount := 4;
      instruction := InhaleText;
      InstructionRings(In);
    }

    /** The one-second breathing interval. */
    method OnBreathingInterval()
      requires Valid() && active && phase == Breathing
      modifies this
      ensures Valid() && State() == Ticked(old(State()))
    {
      var counter := breath.counter;
      var cycleState := breath.cycle;
      if counter <= 1 {
        if cycleState == In {
          cycleState := Hold;
          counter := 4;
          instruction := HoldText;
        } else if cycleState == Hold {
          cycleState := Out;
          counter := 4;
          instruction := ExhaleText;
        } else {
          cycleState := In;
          counter := 4;
          instruction := InhaleText;
        }
      } else {
        counter := counter - 1;
      }
      breath := Breath(counter, cycleState);
      breathCount := counter;
      InstructionRings(cycleState);
    }

    /** The 45 s resource timer, or the "I feel better" button. */
    method ShowResources()
      requires Valid() && active && phase == Breathing
      modifies this
      ensures Valid() && State() == ResourcesShown(old(State()))
    {
      phase := Resources;
    }
  }
}
