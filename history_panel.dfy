/** components/HistoryPanel.tsx: the analysis behind the "Consciousness DNA"
    panel. It averages three quantum metrics over the saved conversation,
    picks an archetype from the averages, and lists the entries newest
    first. */
module HistoryPanel {

  import opened Wrappers
  import opened ZenTypes

  datatype Metric = Coherence | Presence | Entanglement

  /** `safeMetric`: the entry's metric, or 0 when it has no metrics. */
  function SafeMetric(e: ConversationEntry, key: Metric): real {
    match e.metrics
    case None => 0.0
    case Some(m) =>
      match key
      case Coherence => m.coherence
      case Presence => m.presence
      case Entanglement => m.entanglement
  }

  /** The `reduce` sum, folded from the left. */
  function Sum(entries: seq<ConversationEntry>, key: Metric): real
    decreases |entries|
  {
    if entries == [] then 0.0
    else Sum(entries[..|entries| - 1], key) + SafeMetric(entries[|entries| - 1], key)
  }

  /** `sum / (length || 1)`. */
  function Average(entries: seq<ConversationEntry>, key: Metric): (r: real)
    ensures entries == [] ==> r == 0.0
    ensures entries != [] ==> r * |entries| as real == Sum(entries, key)
  {
    Sum(entries, key) / (if |entries| == 0 then 1 else |entries|) as real
  }

  lemma {:induction false} SumAppend(a: seq<ConversationEntry>, b: seq<ConversationEntry>, key: Metric)
    ensures Sum(a + b, key) == Sum(a, key) + Sum(b, key)
    decreases |b|
  {
    if b == [] {
      assert a + b == a;
    } else {
      var b' := b[..|b| - 1];
      assert (a + b)[..|a + b| - 1] == a + b';
      SumAppend(a, b', key);
    }
  }

  /** Every metric present lies in [0, 1]. */
  predicate MetricsInUnitRange(entries: seq<ConversationEntry>) {
    forall i :: 0 <= i < |entries| && entries[i].metrics.Some? ==>
      var m := entries[i].metrics.value;
      0.0 <= m.coherence <= 1.0 && 0.0 <= m.presence <= 1.0 && 0.0 <= m.entanglement <= 1.0
  }

  lemma {:induction false} SumBounds(entries: seq<ConversationEntry>, key: Metric)
    requires MetricsInUnitRange(entries)
    ensures 0.0 <= Sum(entries, key) <= |entries| as real
    decreases |entries|
  {
    if entries != [] {
      var init := entries[..|entries| - 1];
      assert MetricsInUnitRange(init) by {
        forall i | 0 <= i < |init| ensures init[i] == entries[i] { }
      }
      SumBounds(init, key);
    }
  }

  /** With metrics in [0, 1] every average lies in [0, 1]. */
  lemma AverageInUnitRange(entries: seq<ConversationEntry>, key: Metric)
    requires MetricsInUnitRange(entries)
    ensures 0.0 <= Average(entries, key) <= 1.0
  {
    SumBounds(entries, key);
    if entries != [] {
      var n := |entries| as real;
      assert Sum(entries, key) / n <= n / n;
    }
  }

  /** Entries without metrics pull every average toward 0: adding one
      leaves the sum unchanged. */
  lemma MissingMetricsCountZero(entries: seq<ConversationEntry>, e: ConversationEntry, key: Metric)
    requires e.metrics.None?
    ensures Sum(entries + [e], key) == Sum(entries, key)
  {
    assert (entries + [e])[..|entries|] == entries;
  }

  // ---------------------------------------------------------------------
  // Archetype

  /** The archetype chain: Warrior for high presence and coherence, then
      Healer for high entanglement, then Observer for very high coherence,
      else Seeker. */
  function ArchetypeOf(avgCoherence: real, avgPresence: real, avgEntanglement: real): (r: ConsciousnessArchetype)
    ensures r != Void
  {
    if avgPresence > 0.7 && avgCoherence > 0.7 then Warrior
    else if avgEntanglement > 0.7 then Healer
    else if avgCoherence > 0.8 then Observer
    else Seeker
  }

  /** Each archetype's exact condition; the Void is never chosen. */
  lemma ArchetypeConditions(c: real, p: real, e: real)
    ensures ArchetypeOf(c, p, e) == Warrior <==> p > 0.7 && c > 0.7
    ensures ArchetypeOf(c, p, e) == Healer <==> !(p > 0.7 && c > 0.7) && e > 0.7
    ensures ArchetypeOf(c, p, e) == Observer <==> !(p > 0.7 && c > 0.7) && e <= 0.7 && c > 0.8
    ensures ArchetypeOf(c, p, e) == Seeker <==> !(p > 0.7 && c > 0.7) && e <= 0.7 && c <= 0.8
    ensures ArchetypeOf(c, p, e) != Void
  {
  }

  /** Observer needs coherence above 0.8 and presence at most 0.7: with
      coherence that high the Warrior test only fails on presence. */
  lemma ObserverHasLowPresence(c: real, p: real, e: real)
    requires ArchetypeOf(c, p, e) == Observer
    ensures p <= 0.7 && c > 0.8
  {
  }

  function DescriptionOf(a: ConsciousnessArchetype): string {
    match a
    case Warrior => "B\U{1EA1}n c\U{F3} kh\U{1EA3} n\U{103}ng \U{111}\U{1ECB}nh t\U{E2}m v\U{1EEF}ng ch\U{E3}i nh\U{1B0} n\U{FA}i."
    case Healer => "Tr\U{E1}i tim b\U{1EA1}n r\U{1ED9}ng m\U{1EDF} v\U{E0} k\U{1EBF}t n\U{1ED1}i s\U{E2}u s\U{1EAF}c v\U{1EDB}i v\U{1EA1}n v\U{1EAD}t."
    case Observer => "B\U{1EA1}n nh\U{EC}n th\U{1EA5}u b\U{1EA3}n ch\U{1EA5}t v\U{1EA5}n \U{111}\U{1EC1} v\U{1EDB}i s\U{1EF1} t\U{129}nh l\U{1EB7}ng."
    case _ => "B\U{1EA1}n \U{111}ang tr\U{EA}n h\U{E0}nh tr\U{EC}nh t\U{EC}m ki\U{1EBF}m s\U{1EF1} b\U{EC}nh an."
  }

  // ---------------------------------------------------------------------
  // The memoised analysis

  datatype Analysis = Analysis(
    displayData: seq<ConversationEntry>,
    avgCoherence: real, avgPresence: real, avgEntanglement: real,
    archetype: ConsciousnessArchetype, description: string)

  /** The `useMemo` analysis: none for an empty history (and then no panel). */
  function Analyze(history: seq<ConversationEntry>): (r: Option<Analysis>)
    ensures r.None? <==> history == []
    ensures r.Some? ==>
              r.value.displayData == history
              && r.value.avgCoherence == Sum(history, Coherence) / |history| as real
              && r.value.avgPresence == Sum(history, Presence) / |history| as real
              && r.value.avgEntanglement == Sum(history, Entanglement) / |history| as real
              && r.value.archetype != Void
              && r.value.description == DescriptionOf(r.value.archetype)
  {
    if history == [] then None
    else
      var c := Average(history, Coherence);
      var p := Average(history, Presence);
      var e := Average(history, Entanglement);
      var a := ArchetypeOf(c, p, e);
      ArchetypeConditions(c, p, e);
      Some(Analysis(history, c, p, e, a, DescriptionOf(a)))
  }

  /** A history whose entries all lack metrics has zero averages and makes
      the user a Seeker. */
  lemma NoMetricsMakesSeeker(history: seq<ConversationEntry>)
    requires history != []
    requires forall i :: 0 <= i < |history| ==> history[i].metrics.None?
    ensures Analyze(history).value.archetype == Seeker
  {
    NoMetricsSumZero(history, Coherence);
    NoMetricsSumZero(history, Presence);
    NoMetricsSumZero(history, Entanglement);
  }

  lemma {:induction false} NoMetricsSumZero(entries: seq<ConversationEntry>, key: Metric)
    requires forall i :: 0 <= i < |entries| ==> entries[i].metrics.None?
    ensures Sum(entries, key) == 0.0
    decreases |entries|
  {
    if entries != [] {
      var init := entries[..|entries| - 1];
      assert forall i :: 0 <= i < |init| ==> init[i] == entries[i];
      NoMetricsSumZero(init, key);
    }
  }

  // ---------------------------------------------------------------------
  // The journey log

  /** `[...displayData].reverse()`: a reversed copy. */
  function Reversed(s: seq<ConversationEntry>): (r: seq<ConversationEntry>)
    ensures |r| == |s|
    ensures forall i :: 0 <= i < |s| ==> r[i] == s[|s| - 1 - i]
    decreases |s|
  {
    if s == [] then [] else [s[|s| - 1]] + Reversed(s[..|s| - 1])
  }

  lemma ReversedTwice(s: seq<ConversationEntry>)
    ensures Reversed(Reversed(s)) == s
  {
  }

  /** Entries saved in time order are listed newest first. */
  lemma LogNewestFirst(s: seq<ConversationEntry>)
    requires forall i, j :: 0 <= i < j < |s| ==> s[i].timestamp <= s[j].timestamp
    ensures forall i, j :: 0 <= i < j < |s| ==> Reversed(s)[i].timestamp >= Reversed(s)[j].timestamp
  {
  }

  /** Listing the log in reverse does not change the averages it would give. */
  lemma {:induction false} SumOfReversed(s: seq<ConversationEntry>, key: Metric)
    ensures Sum(Reversed(s), key) == Sum(s, key)
    decreases |s|
  {
    if s != [] {
      var init := s[..|s| - 1];
      SumOfReversed(init, key);
      SumAppend([s[|s| - 1]], Reversed(init), key);
      assert [s[|s| - 1]][..0] == [];
      assert Sum([s[|s| - 1]], key) == SafeMetric(s[|s| - 1], key);
    }
  }
}
