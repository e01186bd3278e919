/**
  One wavetable oscillator: a wave table and a sample rate fixed at construction,
  and two mutable scalars, the phase `index` and the phase increment
  `indexIncrement`. It is playing exactly when the increment is non-zero.
 */
module Oscillator {
  import opened OscillatorMath

  class WavetableOscillator {
    const waveTable: seq<real>
    const sampleRate: real
    var index: real
    var indexIncrement: real

    /** The phase stays in [0, |waveTable|) and the increment is never negative. */
    ghost predicate Valid()
      reads this
    {
      InRange(State(), |waveTable|)
    }

    /** The oscillator's mutable state as a value. */
    function State(): OscState
      reads this
    {
      OscState(index, indexIncrement)
    }

    constructor (waveTable: seq<real>, sampleRate: real)
      ensures this.waveTable == waveTable && this.sampleRate == sampleRate
      ensures State() == Stopped
      ensures Valid() && !IsPlaying()
    {
      this.waveTable := waveTable;
      this.sampleRate := sampleRate;
      index := 0.0;
      indexIncrement := 0.0;
    }

    /** The increment that makes the oscillator run through its table `frequency` times per second. */
    method SetFrequency(frequency: real)
      requires Valid() && sampleRate > 0.0 && frequency >= 0.0
      modifies this
      ensures Valid()
      ensures indexIncrement == IncrementFor(frequency, |waveTable|, sampleRate)
      ensures index == old(index)
      ensures IsPlaying() <==> frequency != 0.0 && |waveTable| > 0
    {
      indexIncrement := IncrementFor(frequency, |waveTable|, sampleRate);
    }

    /** Returns the interpolated sample at the current phase, then advances and wraps the phase. */
    method GetSample() returns (sample: real)
      requires Valid() && |waveTable| > 0
      modifies this
      ensures Valid()
      ensures sample == Interpolate(waveTable, old(index))
      ensures State() == Step(old(State()), |waveTable|)
    {
      sample := InterpolateLinearly();
      index := index + indexIncrement;
      index := Fmod(index, |waveTable| as real);
    }

    /** The table value at the current phase, linearly interpolated. */
    function InterpolateLinearly(): (sample: real)
      reads this
      requires Valid() && |waveTable| > 0
      ensures var a, b := waveTable[TruncatedIndex(index, |waveTable|)], waveTable[NextIndex(index, |waveTable|)];
              (a <= sample <= b) || (b <= sample <= a)
      ensures index == 0.0 ==> sample == waveTable[0]
    {
      InterpolateAtInteger(waveTable, 0);
      Interpolate(waveTable, index)
    }

    /** Resets phase and increment; the resulting state does not depend on the previous one. */
    method Stop()
      modifies this
      ensures State() == Stopped
      ensures Valid() && !IsPlaying()
    {
      index := 0.0;
      indexIncrement := 0.0;
    }

    /** Playing means a non-zero increment; there is no separate flag. */
    predicate IsPlaying(): (playing: bool)
      reads this
      ensures playing <==> State().Playing()
    {
      indexIncrement != 0.0
    }
  }

  /**
    A 64-entry table at 48000 Hz played at 750 Hz has increment 1, and 64
    `GetSample()` calls bring the phase back to 0.
   */
  method OneCycleAt750Hz(table: seq<real>) returns (increment: real, finalIndex: real)
    requires |table| == 64
    ensures increment == 1.0 && finalIndex == 0.0
  {
    var oscillator := new WavetableOscillator(table, 48000.0);
    oscillator.SetFrequency(750.0);
    increment := oscillator.indexIncrement;
    var calls := 0;
    while calls < 64
      invariant 0 <= calls <= 64
      invariant oscillator.waveTable == table && oscillator.Valid()
      invariant oscillator.State() == StepN(OscState(0.0, 1.0), 64, calls)
    {
      var _ := oscillator.GetSample();
      calls := calls + 1;
    }
    UnitIncrementCycle(64, 64);
    finalIndex := oscillator.index;
  }
}
