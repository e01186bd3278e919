/**
  The polyphonic synthesiser: a bank of 128 oscillators indexed by MIDI note number,
  rendered into an audio buffer (channels x samples) block by block, with MIDI
  events applied at their sample offsets.
 */
module Synth {
  import opened OscillatorMath
  import opened Oscillator
  import opened SynthSpec

  class WavetableSynth {
    /** Stands for x |-> sinf(2 * pi * x): one period of the waveform over [0, 1). */
    const cycle: real -> real
    /** Stands for x |-> powf(2, x). */
    const exp2: Exp2Function
    /** The frequency `midiNoteNumberToFrequency` gives each note. */
    ghost const noteFrequencies: seq<real> := NoteFrequencies(exp2, OscillatorsCount)
    var sampleRate: real
    var oscillators: seq<WavetableOscillator>
    /** The table every oscillator was built with. */
    ghost var waveTable: seq<real>
    /** The position of each oscillator in the bank; it makes the oscillators pairwise distinct. */
    ghost var slot: map<WavetableOscillator, int>

    /**
      After `prepareToPlay`: 128 distinct oscillators, all built from the same
      64-entry table and the current sample rate, each in a valid state.
     */
    ghost predicate Valid()
      reads this, oscillators
    {
      && |oscillators| == OscillatorsCount
      && |waveTable| == WavetableLength
      && sampleRate > 0.0
      && (forall i :: 0 <= i < |oscillators| ==> oscillators[i] in slot && slot[oscillators[i]] == i)
      && (forall i :: 0 <= i < |oscillators| ==>
            && oscillators[i].waveTable == waveTable
            && oscillators[i].sampleRate == sampleRate
            && oscillators[i].Valid())
    }

    /** The oscillator states, by note number. */
    ghost function Bank(): (bank: seq<OscState>)
      reads this, oscillators
      ensures |bank| == |oscillators|
      ensures forall i :: 0 <= i < |oscillators| ==> bank[i] == oscillators[i].State()
    {
      States(oscillators)
    }

    ghost function CurrentSetup(): Setup
      reads this
    {
      Setup(waveTable, sampleRate, noteFrequencies)
    }

    /** Before `prepareToPlay` there are no oscillators. */
    constructor (cycle: real -> real, exp2: Exp2Function)
      ensures this.cycle == cycle && this.exp2 == exp2
      ensures oscillators == [] && sampleRate == 0.0
    {
      this.cycle := cycle;
      this.exp2 := exp2;
      sampleRate := 0.0;
      oscillators := [];
      waveTable := [];
      slot := map[];
    }

    /** One period of the waveform sampled at 64 equally spaced points. */
    method GenerateSineWaveTable() returns (table: seq<real>)
      ensures |table| == WavetableLength
      ensures forall i :: 0 <= i < WavetableLength ==> table[i] == cycle(i as real / WavetableLength as real)
    {
      var sineWaveTable := new real[WavetableLength];
      for i := 0 to WavetableLength
        invariant forall j :: 0 <= j < i ==> sineWaveTable[j] == cycle(j as real / WavetableLength as real)
      {
        sineWaveTable[i] := cycle(i as real / WavetableLength as real);
      }
      table := sineWaveTable[..];
    }

    /** Discards the previous bank and builds 128 new oscillators that are not playing. */
    method InitializeOscillators()
      modifies this
      ensures sampleRate == old(sampleRate)
      ensures |waveTable| == WavetableLength
      ensures forall i :: 0 <= i < WavetableLength ==> waveTable[i] == cycle(i as real / WavetableLength as real)
      ensures |oscillators| == OscillatorsCount
      ensures forall i :: 0 <= i < |oscillators| ==> fresh(oscillators[i])
      ensures forall i :: 0 <= i < |oscillators| ==> oscillators[i] in slot && slot[oscillators[i]] == i
      ensures forall i :: 0 <= i < |oscillators| ==>
                oscillators[i].waveTable == waveTable && oscillators[i].sampleRate == sampleRate
      ensures Bank() == SilentBank()
    {
      var table := GenerateSineWaveTable();
      waveTable := table;
      oscillators := [];
      slot := map[];
      for i := 0 to OscillatorsCount
        invariant sampleRate == old(sampleRate) && waveTable == table
        invariant |oscillators| == i
        invariant forall k :: 0 <= k < i ==> fresh(oscillators[k])
        invariant forall k :: 0 <= k < i ==> oscillators[k] in slot && slot[oscillators[k]] == k
        invariant forall k :: 0 <= k < i ==>
                    && oscillators[k].waveTable == table && oscillators[k].sampleRate == sampleRate
                    && oscillators[k].State() == Stopped
      {
        var oscillator := new WavetableOscillator(table, sampleRate);
        oscillators := oscillators + [oscillator];
        slot := slot[oscillator := i];
      }
    }

    /** Stores the host's sample rate and rebuilds the bank for it. */
    method PrepareToPlay(sampleRate: real)
      requires sampleRate > 0.0
      modifies this
      ensures Valid()
      ensures this.sampleRate == sampleRate
      ensures forall i :: 0 <= i < WavetableLength ==> waveTable[i] == cycle(i as real / WavetableLength as real)
      ensures forall i :: 0 <= i < |oscillators| ==> fresh(oscillators[i])
      ensures Bank() == SilentBank()
    {
      this.sampleRate := sampleRate;
      InitializeOscillators();
    }

    /** The inner loop of `render` for one playing oscillator: add its samples into channel 0. */
    static method RenderOscillator(buffer: array2<real>, oscillator: WavetableOscillator,
                                   startSample: int, endSample: int)
      requires oscillator.Valid() && |oscillator.waveTable| > 0 && oscillator.IsPlaying()
      requires 1 <= buffer.Length0 && 0 <= startSample <= endSample <= buffer.Length1
      modifies buffer, oscillator
      ensures oscillator.Valid()
      ensures oscillator.State() == StepN(old(oscillator.State()), |oscillator.waveTable|, endSample - startSample)
      ensures forall s :: startSample <= s < endSample ==>
                buffer[0, s] == old(buffer[0, s]) + Voice(old(oscillator.State()), oscillator.waveTable, s - startSample)
      ensures forall c, s :: (0 <= c < buffer.Length0 && 0 <= s < buffer.Length1
                && !(c == 0 && startSample <= s < endSample)) ==> buffer[c, s] == old(buffer[c, s])
    {
      ghost var initial := oscillator.State();
      var sample := startSample;
      while sample < endSample
        invariant startSample <= sample <= endSample
        invariant oscillator.Valid()
        invariant oscillator.State() == StepN(initial, |oscillator.waveTable|, sample - startSample)
        invariant forall s :: startSample <= s < sample ==>
                    buffer[0, s] == old(buffer[0, s]) + Voice(initial, oscillator.waveTable, s - startSample)
        invariant forall c, s :: (0 <= c < buffer.Length0 && 0 <= s < buffer.Length1
                    && !(c == 0 && startSample <= s < sample)) ==> buffer[c, s] == old(buffer[c, s])
      {
        ghost var phase := oscillator.index;
        assert phase == StepN(initial, |oscillator.waveTable|, sample - startSample).index;
        var value := oscillator.GetSample();
        assert value == Voice(initial, oscillator.waveTable, sample - startSample);
        buffer[0, sample] := buffer[0, sample] + value;
        sample := sample + 1;
      }
    }

    /** The copy at the end of `render`: channel 0 on [startSample, endSample) into every other channel. */
    static method ReplicateFirstChannel(buffer: array2<real>, startSample: int, endSample: int)
      requires 1 <= buffer.Length0 && 0 <= startSample <= endSample <= buffer.Length1
      modifies buffer
      ensures forall c, s :: 1 <= c < buffer.Length0 && startSample <= s < endSample ==>
                buffer[c, s] == old(buffer[0, s])
      ensures forall c, s :: (0 <= c < buffer.Length0 && 0 <= s < buffer.Length1
                && !(1 <= c && startSample <= s < endSample)) ==> buffer[c, s] == old(buffer[c, s])
    {
      for channel := 1 to buffer.Length0
        invariant forall c, s :: 1 <= c < channel && startSample <= s < endSample ==>
                    buffer[c, s] == old(buffer[0, s])
        invariant forall c, s :: (0 <= c < buffer.Length0 && 0 <= s < buffer.Length1
                    && !(1 <= c < channel && startSample <= s < endSample)) ==> buffer[c, s] == old(buffer[c, s])
      {
        forall s | startSample <= s < endSample {
          buffer[channel, s] := buffer[0, s];
        }
      }
    }

    /**
      Adds every playing oscillator's successive samples into channel 0 on
      [startSample, endSample), then copies that range of channel 0 to every
      other channel. Nothing outside the range is touched; each playing
      oscillator advances endSample - startSample times, the others not at all.
     */
    method Render(buffer: array2<real>, startSample: int, endSample: int)
      requires Valid()
      requires 1 <= buffer.Length0 && 0 <= startSample <= endSample <= buffer.Length1
      modifies buffer, oscillators
      ensures Valid()
      ensures Bank() == AdvanceBank(old(Bank()), |waveTable|, endSample - startSample)
      ensures forall s :: startSample <= s < endSample ==>
                buffer[0, s] == old(buffer[0, s]) + Mix(old(Bank()), waveTable, s - startSample)
      ensures forall c, s :: 1 <= c < buffer.Length0 && startSample <= s < endSample ==>
                buffer[c, s] == buffer[0, s]
      ensures forall c, s :: (0 <= c < buffer.Length0 && 0 <= s < buffer.Length1
                && !(startSample <= s < endSample)) ==> buffer[c, s] == old(buffer[c, s])
    {
      MixOscillators(buffer, startSample, endSample);
      ReplicateFirstChannel(buffer, startSample, endSample);
    }

    /**
      The oscillator loop of `render`: every playing oscillator adds its next
      endSample - startSample samples into channel 0; no other sample changes.
     */
    method MixOscillators(buffer: array2<real>, startSample: int, endSample: int)
      requires Valid()
      requires 1 <= buffer.Length0 && 0 <= startSample <= endSample <= buffer.Length1
      modifies buffer, oscillators
      ensures Valid()
      ensures Bank() == AdvanceBank(old(Bank()), |waveTable|, endSample - startSample)
      ensures forall s :: startSample <= s < endSample ==>
                buffer[0, s] == old(buffer[0, s]) + Mix(old(Bank()), waveTable, s - startSample)
      ensures forall c, s :: (0 <= c < buffer.Length0 && 0 <= s < buffer.Length1
                && !(c == 0 && startSample <= s < endSample)) ==> buffer[c, s] == old(buffer[c, s])
    {
      ghost var bank := Bank();
      ghost var advanced := AdvanceBank(bank, |waveTable|, endSample - startSample);
      var i := 0;
      assert bank[..0] == [];
      assert forall k: nat :: Mix(bank[..0], waveTable, k) == 0.0;
      while i < |oscillators|
        invariant 0 <= i <= |oscillators|
        invariant Valid()
        invariant forall j :: 0 <= j < i ==> oscillators[j].State() == advanced[j]
        invariant forall j :: i <= j < |oscillators| ==> oscillators[j].State() == bank[j]
        invariant forall s :: startSample <= s < endSample ==>
                    buffer[0, s] == old(buffer[0, s]) + Mix(bank[..i], waveTable, s - startSample)
        invariant forall c, s :: (0 <= c < buffer.Length0 && 0 <= s < buffer.Length1
                    && !(c == 0 && startSample <= s < endSample)) ==> buffer[c, s] == old(buffer[c, s])
      {
        var oscillator := oscillators[i];
        MixExtend(bank, waveTable, i);
        assert forall j :: 0 <= j < |oscillators| && j != i ==> oscillators[j] != oscillator;
        if oscillator.IsPlaying() {
          RenderOscillator(buffer, oscillator, startSample, endSample);
        }
        assert oscillator.State() == advanced[i];
        i := i + 1;
      }
      assert bank[..i] == bank;
    }

    /**
      Renders the block piecewise: before each event, the samples from the previous
      event's timestamp up to this one's, under the bank as it is then; then the
      event is applied. The last piece runs to the end of the block. Channel 0
      receives, at every sample, the mix of the bank of the segment that sample
      lies in; every other channel ends up a copy of channel 0.
     */
    method ProcessBlock(buffer: array2<real>, events: seq<MidiEvent>)
      requires Valid()
      requires 1 <= buffer.Length0 && WellFormedBlock(events, buffer.Length1)
      modifies buffer, oscillators
      ensures Valid()
      ensures Bank() == BankAfterBlock(old(Bank()), events, buffer.Length1, CurrentSetup())
      ensures forall s :: 0 <= s < buffer.Length1 ==>
                buffer[0, s] == old(buffer[0, s]) + BlockOutput(old(Bank()), events, buffer.Length1, CurrentSetup())[s]
      ensures forall c, s :: 1 <= c < buffer.Length0 && 0 <= s < buffer.Length1 ==>
                buffer[c, s] == buffer[0, s]
    {
      ghost var bank := Bank();
      ghost var setup := CurrentSetup();
      ghost var output := BlockOutput(bank, events, buffer.Length1, setup);
      ghost var initial := Contents(buffer);
      var currentSample := 0;
      var i := 0;
      while i < |events|
        invariant 0 <= i <= |events|
        invariant Valid() && CurrentSetup() == setup
        invariant currentSample == SegmentStart(events, i)
        invariant Bank() == BankDuring(bank, events, buffer.Length1, setup, i)
        invariant RenderedUpTo(buffer, initial, output, currentSample)
      {
        var midiEventSample := events[i].timestamp;
        ProcessEvent(buffer, events, i, currentSample, initial, output, bank, setup);
        currentSample := midiEventSample;
        i := i + 1;
      }
      RenderTail(buffer, events, currentSample, initial, output, bank, setup);
    }

    /**
      One pass of the event loop of `processBlock`: render from the previous event
      up to event i under the current bank, then handle event i.
     */
    method ProcessEvent(buffer: array2<real>, events: seq<MidiEvent>, i: nat, currentSample: int,
                        ghost initial: seq<seq<real>>, ghost output: seq<real>,
                        ghost bank: seq<OscState>, ghost setup: Setup)
      requires Valid() && setup == CurrentSetup() && ValidBank(bank, |waveTable|)
      requires WellFormedBlock(events, buffer.Length1) && i < |events|
      requires output == BlockOutput(bank, events, buffer.Length1, setup)
      requires currentSample == SegmentStart(events, i)
      requires Bank() == BankDuring(bank, events, buffer.Length1, setup, i)
      requires RenderedUpTo(buffer, initial, output, currentSample)
      modifies buffer, oscillators
      ensures Valid() && CurrentSetup() == setup
      ensures Bank() == BankDuring(bank, events, buffer.Length1, setup, i + 1)
      ensures RenderedUpTo(buffer, initial, output, events[i].timestamp)
    {
      EventSegment(bank, events, buffer.Length1, setup, i, currentSample, Bank(), output);
      RenderThenHandle(buffer, currentSample, events[i].timestamp, events[i].message, initial, output, setup, Bank());
    }

    /**
      The two statements of the event loop's body: render [startSample, endSample)
      under the current bank `during`, where the block output is what `during`
      mixes, then handle the event's message.
     */
    method RenderThenHandle(buffer: array2<real>, startSample: int, endSample: int, message: MidiMessage,
                            ghost initial: seq<seq<real>>, ghost output: seq<real>,
                            ghost setup: Setup, ghost during: seq<OscState>)
      requires Valid() && setup == CurrentSetup() && Bank() == during
      requires 1 <= buffer.Length0 && 0 <= startSample <= endSample <= buffer.Length1 && AddressesBank(message)
      requires RenderedUpTo(buffer, initial, output, startSample)
      requires forall s :: startSample <= s < endSample ==> output[s] == Mix(during, setup.waveTable, s - startSample)
      modifies buffer, oscillators
      ensures Valid() && CurrentSetup() == setup
      ensures Bank() == HandleEvent(AdvanceBank(during, |setup.waveTable|, endSample - startSample), message, setup)
      ensures RenderedUpTo(buffer, initial, output, endSample)
    {
      Render(buffer, startSample, endSample);
      assert RenderedUpTo(buffer, initial, output, endSample);
      HandleMidiEvent(message);
    }

    /** The final `render` call of `processBlock`: from the last event to the end of the block. */
    method RenderTail(buffer: array2<real>, events: seq<MidiEvent>, currentSample: int,
                      ghost initial: seq<seq<real>>, ghost output: seq<real>,
                      ghost bank: seq<OscState>, ghost setup: Setup)
      requires Valid() && setup == CurrentSetup() && ValidBank(bank, |waveTable|)
      requires WellFormedBlock(events, buffer.Length1)
      requires output == BlockOutput(bank, events, buffer.Length1, setup)
      requires currentSample == SegmentStart(events, |events|)
      requires Bank() == BankDuring(bank, events, buffer.Length1, setup, |events|)
      requires RenderedUpTo(buffer, initial, output, currentSample)
      modifies buffer, oscillators
      ensures Valid() && CurrentSetup() == setup
      ensures Bank() == BankAfterBlock(bank, events, buffer.Length1, setup)
      ensures RenderedUpTo(buffer, initial, output, buffer.Length1)
    {
      LastSegment(bank, events, buffer.Length1, setup, currentSample, Bank(), output);
      Render(buffer, currentSample, buffer.Length1);
    }

    /**
      Note-on retunes the addressed oscillator, note-off stops it, all-notes-off
      stops every oscillator; any other message is ignored.
     */
    method HandleMidiEvent(message: MidiMessage)
      requires Valid() && AddressesBank(message)
      modifies oscillators
      ensures Valid()
      ensures Bank() == HandleEvent(old(Bank()), message, CurrentSetup())
    {
      ghost var before := Bank();
      if message.NoteOn? {
        StartNote(message.note);
      } else if message.NoteOff? {
        StopNote(message.note);
      } else if message.AllNotesOff? {
        StopAllOscillators();
      }
      HandledPointwise(before, Bank(), message, CurrentSetup());
    }

    /** The note-on branch of `handleMidiEvent`. */
    method StartNote(oscillatorId: int)
      requires Valid() && 0 <= oscillatorId < OscillatorsCount
      modifies oscillators
      ensures Valid()
      ensures forall j :: 0 <= j < |oscillators| ==>
                oscillators[j].State() == HandledState(old(oscillators[j].State()), j, NoteOn(oscillatorId), CurrentSetup())
      ensures oscillators[oscillatorId].indexIncrement
              == IncrementFor(MidiNoteNumberToFrequency(oscillatorId, exp2), |waveTable|, sampleRate)
    {
      var frequency := MidiNoteNumberToFrequency(oscillatorId, exp2);
      oscillators[oscillatorId].SetFrequency(frequency);
    }

    /** The note-off branch of `handleMidiEvent`. */
    method StopNote(oscillatorId: int)
      requires Valid() && 0 <= oscillatorId < OscillatorsCount
      modifies oscillators
      ensures Valid()
      ensures forall j :: 0 <= j < |oscillators| ==>
                oscillators[j].State() == HandledState(old(oscillators[j].State()), j, NoteOff(oscillatorId), CurrentSetup())
    {
      oscillators[oscillatorId].Stop();
    }

    /** The all-notes-off loop of `handleMidiEvent`: stop every oscillator of the bank. */
    method StopAllOscillators()
      requires Valid()
      modifies oscillators
      ensures Valid()
      ensures forall j :: 0 <= j < |oscillators| ==> oscillators[j].State() == Stopped
      ensures forall j :: 0 <= j < |oscillators| ==>
                oscillators[j].State() == HandledState(old(oscillators[j].State()), j, AllNotesOff, CurrentSetup())
    {
      var i := 0;
      while i < |oscillators|
        invariant 0 <= i <= |oscillators|
        invariant Valid()
        invariant forall j :: 0 <= j < i ==> oscillators[j].State() == Stopped
      {
        assert forall j :: 0 <= j < |oscillators| && j != i ==> oscillators[j] != oscillators[i];
        oscillators[i].Stop();
        i := i + 1;
      }
    }
  }

  /** The states of a sequence of oscillators, in order. */
  ghost function States(oscillators: seq<WavetableOscillator>): (states: seq<OscState>)
    reads oscillators
    ensures |states| == |oscillators|
    ensures forall i :: 0 <= i < |oscillators| ==> states[i] == oscillators[i].State()
  {
    if oscillators == [] then []
    else States(oscillators[..|oscillators| - 1]) + [oscillators[|oscillators| - 1].State()]
  }

  /** Samples [0, n) of channel c of the buffer. */
  ghost function Channel(buffer: array2<real>, c: nat, n: nat): (samples: seq<real>)
    reads buffer
    requires c < buffer.Length0 && n <= buffer.Length1
    ensures |samples| == n
    ensures forall s :: 0 <= s < n ==> samples[s] == buffer[c, s]
  {
    if n == 0 then [] else Channel(buffer, c, n - 1) + [buffer[c, n - 1]]
  }

  /** Channels [0, k) of the buffer. */
  ghost function Channels(buffer: array2<real>, k: nat): (m: seq<seq<real>>)
    reads buffer
    requires k <= buffer.Length0
    ensures |m| == k
    ensures forall c :: 0 <= c < k ==> m[c] == Channel(buffer, c, buffer.Length1)
  {
    if k == 0 then [] else Channels(buffer, k - 1) + [Channel(buffer, k - 1, buffer.Length1)]
  }

  /** The buffer's samples as a value: channel by channel. */
  ghost function Contents(buffer: array2<real>): (m: seq<seq<real>>)
    reads buffer
    ensures |m| == buffer.Length0
    ensures forall c :: 0 <= c < buffer.Length0 ==> |m[c]| == buffer.Length1
    ensures forall c, s :: 0 <= c < buffer.Length0 && 0 <= s < buffer.Length1 ==> m[c][s] == buffer[c, s]
  {
    Channels(buffer, buffer.Length0)
  }

  /** Sample s of channel c of a buffer snapshot; 0 outside the snapshot. */
  ghost function At(snapshot: seq<seq<real>>, c: int, s: int): real {
    if 0 <= c < |snapshot| && 0 <= s < |snapshot[c]| then snapshot[c][s] else 0.0
  }

  /**
    `processBlock` has rendered [0, upTo) of a buffer that held `initial`: there
    channel 0 holds its initial samples plus `output` and the other channels copy
    it; from upTo on nothing has been touched.
   */
  ghost predicate RenderedUpTo(buffer: array2<real>, initial: seq<seq<real>>, output: seq<real>, upTo: int)
    reads buffer
  {
    && 1 <= buffer.Length0 && 0 <= upTo <= buffer.Length1 && |output| == buffer.Length1
    && (forall s :: 0 <= s < upTo ==> buffer[0, s] == At(initial, 0, s) + output[s])
    && (forall c, s :: 1 <= c < buffer.Length0 && 0 <= s < upTo ==> buffer[c, s] == buffer[0, s])
    && (forall c, s :: 0 <= c < buffer.Length0 && upTo <= s < buffer.Length1 ==> buffer[c, s] == At(initial, c, s))
  }
}
