/**
 * Wave scheduling in the Phaser build (phaser/systems/LevelManager.ts): a
 * level's waves expand into one timer per repetition, each loading the
 * wave's formation file when it fires. A timer is the pending entry it
 * stands for; what the file load then does is not modelled.
 */
module PhaserLevel {
  import opened Js

  /** `WaveSpec`; `repeat` is a whole count as level files write it. */
  datatype Wave = Wave(formation_file: string, start_time_ms: real, repeat: Option<int>, interval_ms: Option<real>)

  /** A pending `time.addEvent` that loads `file` after `delay` ms. */
  datatype Timer = Timer(delay: real, file: string)

  /** The timers of the first `n` repetitions of one wave: repetition `i` fires `i` intervals after the start. */
  function WaveTimers(w: Wave, n: nat): seq<Timer>
  {
    seq(n, i requires 0 <= i < n => Timer(w.start_time_ms + i as real * Coalesce(w.interval_ms, 0.0), w.formation_file))
  }

  /** One more repetition appends its timer. */
  lemma WaveTimersStep(w: Wave, n: nat)
    ensures WaveTimers(w, n + 1) == WaveTimers(w, n) + [Timer(w.start_time_ms + n as real * Coalesce(w.interval_ms, 0.0), w.formation_file)]
  {
    var a := WaveTimers(w, n + 1);
    var b := WaveTimers(w, n) + [Timer(w.start_time_ms + n as real * Coalesce(w.interval_ms, 0.0), w.formation_file)];
    forall k | 0 <= k < n + 1
      ensures a[k] == b[k]
    {
      if k < n {
        assert b[k] == WaveTimers(w, n)[k];
      }
    }
    assert a == b;
  }

  /** How many timers a wave gets: `repeat ?? 1`, none when that is not positive. */
  function Repeats(w: Wave): nat
  {
    var r := Coalesce(w.repeat, 1);
    if r > 0 then r else 0
  }

  /** All timers of the waves, wave by wave, each wave's repetitions in order. */
  function Expand(waves: seq<Wave>): seq<Timer>
  {
    if waves == [] then [] else Expand(waves[..|waves| - 1]) + WaveTimers(waves[|waves| - 1], Repeats(waves[|waves| - 1]))
  }

  /** Expanding one more wave appends that wave's timers. */
  lemma ExpandStep(waves: seq<Wave>, k: nat)
    requires k < |waves|
    ensures Expand(waves[..k + 1]) == Expand(waves[..k]) + WaveTimers(waves[k], Repeats(waves[k]))
  {
    assert waves[..k + 1][..k] == waves[..k];
  }

  /** Σ over the waves of `Repeats`. */
  function TimerCount(waves: seq<Wave>): nat
  {
    if waves == [] then 0 else TimerCount(waves[..|waves| - 1]) + Repeats(waves[|waves| - 1])
  }

  class LevelManager {
    var levelData: Option<seq<Wave>>
    var timers: seq<Timer>

    constructor ()
      ensures levelData.None? && timers == []
    {
      levelData := None;
      timers := [];
    }

    /** `scheduleWaves`: without level data nothing happens; otherwise the old timers give way to the new. */
    method ScheduleWaves()
      modifies this`timers
      ensures levelData.None? ==> timers == old(timers)
      ensures levelData.Some? ==> timers == Expand(levelData.value)
    {
      if levelData.None? {
        return;
      }
      var waves := levelData.value;
      timers := [];
      var k := 0;
      while k < |waves|
        invariant 0 <= k <= |waves|
        invariant timers == Expand(waves[..k])
      {
        var wave := waves[k];
        var repeat := Coalesce(wave.repeat, 1);
        var interval := Coalesce(wave.interval_ms, 0.0);
        ghost var before := timers;
        var i := 0;
        while i < repeat
          invariant 0 <= i <= Repeats(wave)
          invariant timers == before + WaveTimers(wave, i)
        {
          var t := Timer(wave.start_time_ms + i as real * interval, wave.formation_file);
          WaveTimersStep(wave, i);
          timers := timers + [t];
          assert t == Timer(wave.start_time_ms + i as real * Coalesce(wave.interval_ms, 0.0), wave.formation_file);
          assert WaveTimers(wave, i + 1) == WaveTimers(wave, i) + [t];
          assert timers == before + WaveTimers(wave, i + 1);
          i := i + 1;
        }
        ExpandStep(waves, k);
        k := k + 1;
      }
      assert waves[..k] == waves;
    }
  }

  /** The timer count is the sum of the waves' repetitions; a non-positive repeat adds none. */
  lemma {:induction false} ExpandCount(waves: seq<Wave>)
    ensures |Expand(waves)| == TimerCount(waves)
  {
    if waves != [] {
      ExpandCount(waves[..|waves| - 1]);
    }
  }

  /** Within a wave with a non-negative interval the delays never decrease, starting at `start_time_ms`. */
  lemma WaveDelaysOrdered(w: Wave, n: nat, i: nat, j: nat)
    requires Coalesce(w.interval_ms, 0.0) >= 0.0
    requires i <= j < n
    ensures WaveTimers(w, n)[i].delay <= WaveTimers(w, n)[j].delay
    ensures WaveTimers(w, n)[0].delay == w.start_time_ms
  {
    assert i as real * Coalesce(w.interval_ms, 0.0) <= j as real * Coalesce(w.interval_ms, 0.0);
  }

  /** Every timer loads the formation file of one of the level's waves. */
  lemma {:induction false} ExpandFiles(waves: seq<Wave>)
    ensures forall t :: t in Expand(waves) ==> exists k :: 0 <= k < |waves| && t.file == waves[k].formation_file
  {
    if waves != [] {
      var init := waves[..|waves| - 1];
      ExpandFiles(init);
      forall t | t in Expand(waves)
        ensures exists k :: 0 <= k < |waves| && t.file == waves[k].formation_file
      {
        if t in Expand(init) {
          var k :| 0 <= k < |init| && t.file == init[k].formation_file;
          assert waves[k] == init[k];
        } else {
          assert t.file == waves[|waves| - 1].formation_file;
        }
      }
    }
  }

  /** A wave without `repeat` gets exactly one timer, at its start time. */
  lemma SingleByDefault(w: Wave)
    requires w.repeat.None?
    ensures WaveTimers(w, Repeats(w)) == [Timer(w.start_time_ms, w.formation_file)]
  {
  }
}
