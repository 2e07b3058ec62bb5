/**
 * The lifeform manager panel: a small statistics record changed by the
 * add / remove / reset buttons and by every new audio frame, and the flow
 * pattern label chosen from the current volume.
 */
module LifeformManager {
  import opened Common
  import opened JsNumber

  datatype Stats = Stats(count: int, averageEnergy: real, generations: int, dominantColor: CssColor)

  /** The panel's starting (and reset) statistics. */
  const InitialStats: Stats := Stats(3, 75.0, 1, Hex("#ffffff"))

  /** `settings.maxLifeforms`. */
  const MaxLifeforms: int := 10

  /** What can happen to the statistics. */
  datatype Event = Add | Remove | Reset | Audio(features: AudioFeatures)

  predicate CountInRange(s: Stats) {
    1 <= s.count <= MaxLifeforms
  }

  /**
   * The audio effect's `energyFromMusic = (volume + bpm / 2) / 2`, clamped
   * to [0, 100].
   */
  function AverageEnergy(f: AudioFeatures): (r: real)
    ensures 0.0 <= r <= 100.0
    ensures 0.0 <= (f.volume + f.bpm / 2.0) / 2.0 <= 100.0 ==> r == (f.volume + f.bpm / 2.0) / 2.0
    ensures (f.volume + f.bpm / 2.0) / 2.0 < 0.0 ==> r == 0.0
    ensures (f.volume + f.bpm / 2.0) / 2.0 > 100.0 ==> r == 100.0
  {
    Max(0.0, Min(100.0, (f.volume + f.bpm / 2.0) / 2.0))
  }

  /** The dominant colour: hue `(pitch - 220) / 660 * 360` at 70% saturation, 60% lightness. */
  function DominantColor(f: AudioFeatures): (c: CssColor)
    ensures c.Hsl? && c.saturation == 70 && c.lightness == 60
    ensures c.hue * 660.0 == (f.pitch - 220.0) * 360.0
  {
    Hsl((f.pitch - 220.0) / 660.0 * 360.0, 70, 60)
  }

  /** The effect of one event on the statistics. */
  function Step(s: Stats, e: Event): (r: Stats)
    ensures e.Add? ==> r.count == s.count + (if s.count < MaxLifeforms then 1 else 0)
    ensures e.Remove? ==> r.count == s.count - (if s.count > 1 then 1 else 0)
    ensures (e.Add? || e.Remove?) ==> r == s.(count := r.count)
    ensures e.Reset? ==> r == InitialStats
    ensures e.Audio? ==> r.count == s.count && r.generations == s.generations
    ensures e.Audio? ==> 0.0 <= r.averageEnergy <= 100.0
    ensures e.Audio? ==> r.averageEnergy == AverageEnergy(e.features) && r.dominantColor == DominantColor(e.features)
    ensures CountInRange(s) ==> CountInRange(r)
  {
    match e
    case Add => if s.count < MaxLifeforms then s.(count := s.count + 1) else s
    case Remove => if s.count > 1 then s.(count := s.count - 1) else s
    case Reset => InitialStats
    case Audio(f) => s.(averageEnergy := AverageEnergy(f), dominantColor := DominantColor(f))
  }

  /** The statistics after a sequence of events. */
  function Run(s: Stats, events: seq<Event>): Stats
    decreases |events|
  {
    if events == [] then s else Run(Step(s, events[0]), events[1..])
  }

  /** From the initial three lifeforms, any sequence of events keeps 1 <= count <= 10. */
  lemma {:induction false} CountStaysInRange(s: Stats, events: seq<Event>)
    requires CountInRange(s)
    ensures CountInRange(Run(s, events))
    decreases |events|
  {
    if events != [] {
      CountStaysInRange(Step(s, events[0]), events[1..]);
    }
  }

  lemma InitialCountInRange(events: seq<Event>)
    ensures 1 <= Run(InitialStats, events).count <= 10
  {
    CountStaysInRange(InitialStats, events);
  }

  /** Reset restores the initial statistics whatever came before. */
  lemma {:induction false} ResetForgets(s: Stats, before: seq<Event>, after: seq<Event>)
    ensures Run(s, before + [Reset] + after) == Run(InitialStats, after)
    decreases |before|
  {
    if before == [] {
      assert before + [Reset] + after == [Reset] + after;
      assert ([Reset] + after)[1..] == after;
    } else {
      assert (before + [Reset] + after)[1..] == before[1..] + [Reset] + after;
      ResetForgets(Step(s, before[0]), before[1..], after);
    }
  }

  /** The statistics as the component holds them. */
  class Manager {
    var stats: Stats

    constructor()
      ensures stats == InitialStats
    {
      stats := InitialStats;
    }

    method AddLifeform()
      modifies this
      ensures stats == Step(old(stats), Add)
    {
      if stats.count < MaxLifeforms {
        stats := stats.(count := stats.count + 1);
      }
    }

    method RemoveLifeform()
      modifies this
      ensures stats == Step(old(stats), Remove)
    {
      if stats.count > 1 {
        stats := stats.(count := stats.count - 1);
      }
    }

    method ResetEcosystem()
      modifies this
      ensures stats == Step(old(stats), Reset)
    {
      stats := InitialStats;
    }

    method OnAudioFeatures(f: AudioFeatures)
      modifies this
      ensures stats == Step(old(stats), Audio(f))
    {
      stats := stats.(averageEnergy := AverageEnergy(f), dominantColor := DominantColor(f));
    }
  }

  datatype FlowPattern = Vortex | Stream | Wave | Spiral

  /** The labels the flow indicator renders: each guarded by its own condition. */
  function FlowLabels(volume: real): seq<FlowPattern> {
    (if volume > 80.0 then [Vortex] else [])
    + (if volume > 60.0 && volume <= 80.0 then [Stream] else [])
    + (if volume > 30.0 && volume <= 60.0 then [Wave] else [])
    + (if volume <= 30.0 then [Spiral] else [])
  }

  /** Exactly one label is shown for any volume, and it matches its interval. */
  lemma ExactlyOneFlowLabel(volume: real)
    ensures |FlowLabels(volume)| == 1
    ensures FlowLabels(volume)[0] == Vortex <==> volume > 80.0
    ensures FlowLabels(volume)[0] == Stream <==> 60.0 < volume <= 80.0
    ensures FlowLabels(volume)[0] == Wave <==> 30.0 < volume <= 60.0
    ensures FlowLabels(volume)[0] == Spiral <==> volume <= 30.0
  {
  }
}
