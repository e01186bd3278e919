# Wavetable synthesiser: a verified model

This project models the wavetable synthesiser of the `WavetableSynth` plugin in Dafny
and proves what its code promises.

The synthesiser has two parts.

- **The oscillator** (`WavetableOscillator`) loops over a wave table.
  - Its state is a phase `index` and a phase increment `indexIncrement`. It is playing exactly when the increment is non-zero.
  - `setFrequency` sets the increment to frequency × table length / sample rate.
  - `getSample` returns the table value at the phase, linearly interpolated between the truncated index and its successor modulo the table size. It then adds the increment to the phase and wraps it with `fmod`.
  - `stop` resets both fields to 0.
- **The synthesiser** (`WavetableSynth`) owns 128 oscillators, one per MIDI note number, all built from one 64-entry table of one sine period.
  - `processBlock` walks the block's MIDI events in order. For each event it renders the samples from the previous event's timestamp up to this one's, then handles the event. Finally it renders the rest of the block.
  - `render` adds every playing oscillator's successive samples into channel 0, then copies that range of channel 0 into every other channel.
  - `handleMidiEvent` retunes the addressed oscillator on note-on, stops it on note-off, and stops all of them on all-notes-off. It ignores any other message.

## Files and modules

- `oscillator_math.dfy`, module `OscillatorMath`.
  - The C++ arithmetic the oscillator uses: `static_cast<int>` truncation and `std::fmod`.
  - The phase state `OscState`, one phase step and `n` phase steps.
  - Linear interpolation into the table.
- `wavetable_oscillator.dfy`, module `Oscillator`: the class `WavetableOscillator` with its two mutable fields.
- `synth_spec.dfy`, module `SynthSpec`: the synthesiser's behaviour on values.
  - The bank of 128 oscillator states and the effect of one MIDI message on it.
  - The mix one render adds to channel 0.
  - The partition of a block into segments at event timestamps.
  - `BlockOutput`: what a whole block adds to channel 0, sample by sample.
- `wavetable_synth.dfy`, module `Synth`: the class `WavetableSynth`.
  - The bank is a `seq<WavetableOscillator>` and the audio buffer is an `array2<real>` (channels × samples).
  - Each method is proved against the `SynthSpec` functions.
  - `ProcessBlock`'s loop body is the method `ProcessEvent`. It places the pass in the block's segments, then calls `RenderThenHandle`, which holds the body's two statements: `Render` up to the event, then `HandleMidiEvent`. The final `render` call is `RenderTail`.
  - `Render` is `MixOscillators` (the loop over the oscillators, with `RenderOscillator` as its inner loop for one oscillator) followed by `ReplicateFirstChannel` (the copy into the other channels).

Samples, phases, frequencies and the sample rate are mathematical reals.

Two library calls are arguments of the synthesiser's constructor, kept in constant fields:
- `cycle` stands for x ↦ `sinf(2·π·x)`, which `GenerateSineWaveTable` samples;
- `exp2` stands for x ↦ `powf(2, x)`, and all the model assumes of it is that it is positive.

The frequency of each note, `midiNoteNumberToFrequency(n)`, is fixed by `exp2`. The class keeps these 128 frequencies as a ghost constant. The value-level `Setup` (table, sample rate, note frequencies) is what every specification function of a block depends on.

### Behaviour worth knowing

- **`setFrequency(0)`** gives an increment of 0, so `isPlaying()` is false afterwards: `SetFrequency` ensures `IsPlaying() <==> frequency != 0.0 && |waveTable| > 0`.
- **Before `prepareToPlay`.** The C++ `sampleRate` member is uninitialised until `prepareToPlay` runs. The model's constructor sets it to 0, leaves the bank empty, and every operation that renders requires the state `PrepareToPlay` establishes.

## Model

| member | source | states |
|---|---|---|
| OscillatorMath.Trunc | WavetableSynth/Source/WavetableOscillator.cpp:43 | `static_cast<int>` of a float truncates toward zero: for x ≥ 0 the result t satisfies t ≤ x < t + 1, for x < 0 it satisfies t − 1 < x ≤ t |
| OscillatorMath.Fmod | WavetableSynth/Source/WavetableOscillator.cpp:30 | `std::fmod(x, y)` for y > 0 has the sign of x, magnitude below y, differs from x by a whole multiple of y, and is x itself on [0, y) and x − y on [y, 2y) |
| OscillatorMath.IncrementFor | WavetableSynth/Source/WavetableOscillator.cpp:16-19 | the increment is non-negative for a non-negative frequency, and non-zero exactly when frequency and table size are both non-zero |
| OscillatorMath.Step | WavetableSynth/Source/WavetableOscillator.cpp:28-30 | one `getSample` phase update keeps the increment and a phase in [0, size); the new phase differs from old phase + increment by a whole multiple of the size, and equals it when that sum is below the size |
| OscillatorMath.StepN | WavetableSynth/Source/WavetableOscillator.cpp:22-32 | any number of successive `getSample` calls keeps the oscillator in range with an unchanged increment |
| OscillatorMath.TruncatedIndex | WavetableSynth/Source/WavetableOscillator.cpp:43 | for a phase in [0, size) the truncated index is in bounds and is the integer part of the phase |
| OscillatorMath.NextIndex | WavetableSynth/Source/WavetableOscillator.cpp:44 | the next index is in bounds; it is 0 exactly when the phase is in [size − 1, size), and the truncated index plus one otherwise |
| OscillatorMath.Interpolate | WavetableSynth/Source/WavetableOscillator.cpp:34-49 | the interpolated sample lies between the two table entries it weights |
| OscillatorMath.InterpolateAtInteger | WavetableSynth/Source/WavetableOscillator.cpp:43-48 | at an integer phase k the interpolation returns exactly table[k] |
| OscillatorMath.NotPlayingIsFixed | WavetableSynth/Source/WavetableOscillator.cpp:61-67 | an oscillator that is not playing does not loop over its table: after any number of phase steps its state is what it was |
| OscillatorMath.StoppedIsFixed | WavetableSynth/Source/WavetableOscillator.cpp:51-59 | a stopped oscillator stays at phase 0 however often `getSample` is called, and each call returns table[0] |
| OscillatorMath.UnitIncrementCycle | WavetableSynth/Source/WavetableOscillator.cpp:28-30 | with increment 1 from phase 0, the phase after k < size steps is k and after size steps is back at 0 |
| Oscillator.WavetableOscillator.constructor | WavetableSynth/Source/WavetableOscillator.h:18-21 | a new oscillator keeps the given table and sample rate, has phase and increment 0, and is not playing |
| Oscillator.WavetableOscillator.SetFrequency | WavetableSynth/Source/WavetableOscillator.cpp:16-19 | the increment becomes frequency × table size / sample rate, the phase, table and sample rate are unchanged, and the oscillator plays exactly when frequency and table size are non-zero |
| Oscillator.WavetableOscillator.GetSample | WavetableSynth/Source/WavetableOscillator.cpp:22-32 | returns the interpolated value at the phase before the call, and the state becomes one phase step of the old state |
| Oscillator.WavetableOscillator.InterpolateLinearly | WavetableSynth/Source/WavetableOscillator.cpp:34-49 | the sample lies between the entries at the truncated and the next index, and is table[0] at phase 0 |
| Oscillator.WavetableOscillator.Stop | WavetableSynth/Source/WavetableOscillator.cpp:51-59 | phase and increment become 0, whatever they were, so `stop` is idempotent; afterwards the oscillator is not playing |
| Oscillator.WavetableOscillator.IsPlaying | WavetableSynth/Source/WavetableOscillator.cpp:61-67 | the oscillator is playing exactly when its state is a playing one, that is, when the increment is non-zero; there is no separate flag |
| Oscillator.OneCycleAt750Hz | WavetableSynth/Source/WavetableOscillator.cpp:16-32 | a 64-entry table at 48000 Hz tuned to 750 Hz has increment exactly 1, and 64 `getSample` calls bring the phase back to 0 |
| SynthSpec.MidiNoteNumberToFrequency | WavetableSynth/Source/WavetableSynth.cpp:138-147 | 440 · 2^((n − 69) / 12) is a positive frequency |
| SynthSpec.A4Is440 | WavetableSynth/Source/WavetableSynth.cpp:141-146 | note 69 (A4) sounds at 440 Hz |
| SynthSpec.OctaveDoublesFrequency | WavetableSynth/Source/WavetableSynth.cpp:141-146 | raising a note by 12 semitones doubles its frequency |
| SynthSpec.NoteFrequencies | WavetableSynth/Source/WavetableSynth.cpp:116-118 | the frequency table holds, for each note number, the value `midiNoteNumberToFrequency` computes for it |
| SynthSpec.SilentBank | WavetableSynth/Source/WavetableSynth.cpp:35-39 | the freshly built bank has 128 oscillators and none of them plays |
| SynthSpec.NoteIncrement | WavetableSynth/Source/WavetableSynth.cpp:118-120 | the increment a note-on gives its oscillator is positive, so the oscillator plays |
| SynthSpec.HandleEvent | WavetableSynth/Source/WavetableSynth.cpp:111-136 | the bank after one MIDI message, oscillator by oscillator; a valid bank stays valid: 128 states, each in range |
| SynthSpec.HandleEventEffect | WavetableSynth/Source/WavetableSynth.cpp:111-136 | a note-on retunes only that note's oscillator, keeps its phase and makes it play; a note-off stops only that oscillator; all-notes-off stops every oscillator; any other message leaves the bank unchanged |
| SynthSpec.HandledPointwise | WavetableSynth/Source/WavetableSynth.cpp:111-136 | updating each oscillator as the dispatch prescribes yields exactly the bank-level effect of the message |
| SynthSpec.AdvanceBank | WavetableSynth/Source/WavetableSynth.cpp:86-95 | the bank after rendering n samples: each playing oscillator has taken n phase steps, the others are untouched; the bank keeps its size and stays in range |
| SynthSpec.AdvanceKeepsPlaying | WavetableSynth/Source/WavetableSynth.cpp:86-95 | rendering never starts or stops an oscillator |
| SynthSpec.AdvanceSilentBank | WavetableSynth/Source/WavetableSynth.cpp:86-95 | rendering leaves a bank in which nothing plays exactly as it was |
| SynthSpec.SilentMix | WavetableSynth/Source/WavetableSynth.cpp:86-95 | a bank in which nothing plays adds silence to channel 0 |
| SynthSpec.MixExtend | WavetableSynth/Source/WavetableSynth.cpp:86-95 | taking one more oscillator of the bank into the mix adds exactly that oscillator's voice, at every sample |
| SynthSpec.MixBounded | WavetableSynth/Source/WavetableSynth.cpp:90-93 | if every table entry lies in [−1, 1], the mix lies within ± the number of playing oscillators |
| SynthSpec.SegmentsTile | WavetableSynth/Source/WavetableSynth.cpp:60-79 | the rendered ranges [0, t1), [t1, t2), …, [tk, T) start at 0, each ends where the next starts, none runs backwards, and the last ends at T |
| SynthSpec.SegmentsOrdered | WavetableSynth/Source/WavetableSynth.cpp:60-79 | an earlier range ends no later than a later one starts |
| SynthSpec.SegmentOf | WavetableSynth/Source/WavetableSynth.cpp:60-79 | every sample of the block lies in one of the rendered ranges |
| SynthSpec.SegmentUnique | WavetableSynth/Source/WavetableSynth.cpp:60-79 | a sample lies in only one rendered range |
| SynthSpec.EventSplitsBlock | WavetableSynth/Source/WavetableSynth.cpp:69-77 | a sample is rendered before event i is handled exactly when it lies before the event's timestamp |
| SynthSpec.BankDuring | WavetableSynth/Source/WavetableSynth.cpp:65-78 | the bank while range j is rendered: the initial bank advanced over each earlier range and updated by each earlier event; it stays a valid bank |
| SynthSpec.BlockOutput | WavetableSynth/Source/WavetableSynth.cpp:57-80 | what a block adds to channel 0: one value per sample of the block, the mix of the bank of the range that sample lies in |
| SynthSpec.BlockOutputInSegment | WavetableSynth/Source/WavetableSynth.cpp:65-79 | inside each rendered range, the block adds to channel 0 the mix of the bank as it is during that range, counted from the range's start |
| SynthSpec.EventSegment | WavetableSynth/Source/WavetableSynth.cpp:65-78 | one pass of the event loop: the block output up to the event is what the current bank mixes, and the bank afterwards is the current bank advanced over the range and then updated by the event |
| SynthSpec.LastSegment | WavetableSynth/Source/WavetableSynth.cpp:79 | the final range: the block output there is what the last bank mixes, and rendering it from that bank gives the bank at the end of the block |
| SynthSpec.NoEventsIsOneRender | WavetableSynth/Source/WavetableSynth.cpp:79 | with no events the block is a single render of [0, T) from the initial bank |
| Synth.WavetableSynth.constructor | WavetableSynth/Source/WavetableSynth.h:18-19 | the synth keeps the given waveform and 2^x; before `prepareToPlay` the bank is empty |
| Synth.WavetableSynth.GenerateSineWaveTable | WavetableSynth/Source/WavetableSynth.cpp:3-20 | the table has 64 entries, entry i being one period of the waveform sampled at i / 64 |
| Synth.WavetableSynth.InitializeOscillators | WavetableSynth/Source/WavetableSynth.cpp:22-40 | the previous bank is discarded; the new one holds 128 fresh, distinct oscillators, each with the same 64-entry table and the current sample rate, and none is playing; the sample rate is unchanged |
| Synth.WavetableSynth.PrepareToPlay | WavetableSynth/Source/WavetableSynth.cpp:43-50 | the sample rate is stored and the bank is rebuilt for it: 128 fresh oscillators, none playing |
| Synth.WavetableSynth.RenderOscillator | WavetableSynth/Source/WavetableSynth.cpp:88-94 | a playing oscillator adds its successive samples into channel 0 on [start, end), advances exactly end − start phase steps, and no other buffer cell changes |
| Synth.WavetableSynth.MixOscillators | WavetableSynth/Source/WavetableSynth.cpp:86-95 | channel 0 on [start, end) gains the mix of the bank; each playing oscillator advances end − start phase steps and the others not at all; no other buffer cell changes |
| Synth.WavetableSynth.ReplicateFirstChannel | WavetableSynth/Source/WavetableSynth.cpp:97-102 | every channel c ≥ 1 receives channel 0 on [start, end), and nothing else changes |
| Synth.WavetableSynth.Render | WavetableSynth/Source/WavetableSynth.cpp:82-103 | channel 0 on [start, end) gains the mix of the bank (added to, not overwritten); afterwards every other channel equals channel 0 there; no sample outside the range changes; each playing oscillator advances end − start times and the others not at all |
| Synth.WavetableSynth.ProcessBlock | WavetableSynth/Source/WavetableSynth.cpp:57-80 | channel 0 gains, at each sample, the mix of the bank as it is in that sample's range between events; every other channel ends up a copy of channel 0; the bank ends as the bank after the whole block |
| Synth.WavetableSynth.ProcessEvent | WavetableSynth/Source/WavetableSynth.cpp:67-77 | one pass of the event loop extends the rendered prefix up to the event's timestamp and leaves the bank as it is when the next range is rendered |
| Synth.WavetableSynth.RenderThenHandle | WavetableSynth/Source/WavetableSynth.cpp:71-76 | renders up to the event under the current bank, which extends the rendered prefix of the block, then applies the event to the advanced bank |
| Synth.WavetableSynth.RenderTail | WavetableSynth/Source/WavetableSynth.cpp:79 | the final render call completes the block and leaves the bank after the block |
| Synth.WavetableSynth.HandleMidiEvent | WavetableSynth/Source/WavetableSynth.cpp:111-136 | the bank becomes the bank-level effect of the message: retune on note-on, stop on note-off, stop all on all-notes-off, no change otherwise |
| Synth.WavetableSynth.StartNote | WavetableSynth/Source/WavetableSynth.cpp:113-121 | only the addressed oscillator changes; its increment becomes the one for `midiNoteNumberToFrequency` of the note and its phase is kept |
| Synth.WavetableSynth.StopNote | WavetableSynth/Source/WavetableSynth.cpp:122-126 | only the addressed oscillator changes, and it is stopped |
| Synth.WavetableSynth.StopAllOscillators | WavetableSynth/Source/WavetableSynth.cpp:127-133 | every oscillator of the bank is stopped |

## Left out

- Floating-point arithmetic: `float` and `double` rounding, overflow and NaN are not modelled. Samples, phases and frequencies are reals, so the model proves the algorithm, not its IEEE behaviour.
- `std::sinf`, `std::atanf` and `std::powf` are library calls outside this model. The synthesiser's constructor takes the waveform x ↦ sinf(2·π·x) as a function `cycle`, which `GenerateSineWaveTable` samples, and 2^x as a positive function `exp2`, which `midiNoteNumberToFrequency` takes as a parameter. `A4Is440` and `OctaveDoublesFrequency` assume only 2^0 = 1 and 2^(x+1) = 2·2^x of it.
- JUCE's `MidiBuffer` iteration and `MidiMessage` decoding, including how a note-on with velocity 0 is classified. The event stream is a sequence of `MidiEvent`s carrying a decoded message and an integer timestamp; the `static_cast<int>` of the JUCE timestamp is taken as already done.
- JUCE's `AudioBuffer` is an `array2<real>`, channels × samples; `getWritePointer` aliasing is not modelled.
- Oscillator.WavetableOscillator.SetFrequency: requires a non-negative frequency. The only caller passes 440·2^x > 0, and a negative increment would drive the phase negative, where the table index is out of bounds.
- Oscillator.WavetableOscillator.GetSample: requires a non-empty table, because the C++ `% waveTable.size()` and `fmod` by 0 are undefined there.
- OscillatorMath.InRange: for an empty table the phase bound is taken as 1 instead of 0, so that the phase 0 of a fresh oscillator is admitted. No sample is ever taken from such an oscillator.
- Synth.WavetableSynth.PrepareToPlay: requires a positive sample rate, although the code stores any value and rebuilds the bank. The rate divides the increment in `setFrequency`, so a zero rate would make every later note-on divide by zero.
- Oscillator.WavetableOscillator.SetFrequency: requires a positive sample rate for the same reason: the increment is frequency × table size / sample rate.
- Synth.WavetableSynth.ProcessBlock: requires at least one channel, timestamps that are non-negative, non-decreasing and at most the block length, and note numbers below 128. The code checks none of these; JUCE delivers events in timestamp order, and anything else would index outside the buffer or the bank.
- Synth.WavetableSynth.HandleMidiEvent: requires a note-on or note-off to address an existing oscillator (0 ≤ n < 128), because the code indexes the bank without a bounds check.
- Synth.WavetableSynth.Render: requires 0 ≤ start ≤ end ≤ number of samples; `processBlock` only calls it that way when the timestamps are well formed.
- The `SimpleEQ` and `XY_Pad` plugins (filters, gain, panning, GUI and parameter plumbing) are not part of this model.
