/**
  The synthesiser's behaviour on values: a bank of 128 oscillator states indexed by
  MIDI note number, the effect of one MIDI message on the bank, the mono mix a
  render produces, and the partition of a block into segments at event timestamps.
 */
module SynthSpec {
  import opened OscillatorMath

  /** One oscillator per MIDI note number. */
  const OscillatorsCount: nat := 128
  /** Length of the generated wave table. */
  const WavetableLength: nat := 64

  /**
    Stands for `std::powf(2, x)`, a library call outside this model; all the model
    uses of it is that it is positive.
   */
  type Exp2Function = f: real -> real | forall x :: f(x) > 0.0 witness (x: real) => 1.0

  /** The MIDI messages the synthesiser distinguishes. */
  datatype MidiMessage = NoteOn(note: int) | NoteOff(note: int) | AllNotesOff | OtherMessage

  /** A message with its sample offset inside the block. */
  datatype MidiEvent = MidiEvent(message: MidiMessage, timestamp: int)

  /**
    The parameters a rendered block depends on: the shared table, the sample rate
    and the frequency of each note.
   */
  datatype Setup = Setup(waveTable: seq<real>, sampleRate: real, noteFrequencies: seq<real>) {
    predicate Valid() {
      && |waveTable| > 0 && sampleRate > 0.0
      && |noteFrequencies| == OscillatorsCount
      && forall n :: 0 <= n < |noteFrequencies| ==> noteFrequencies[n] > 0.0
    }
  }

  /** 440 * 2^((note - 69) / 12): twelve-tone equal temperament with A4 (note 69) at 440 Hz. */
  function MidiNoteNumberToFrequency(note: int, exp2: Exp2Function): (f: real)
    ensures f > 0.0
  {
    440.0 * exp2((note as real - 69.0) / 12.0)
  }

  /** If 2^0 = 1, note 69 sounds at 440 Hz. */
  lemma A4Is440(exp2: Exp2Function)
    requires exp2(0.0) == 1.0
    ensures MidiNoteNumberToFrequency(69, exp2) == 440.0
  {
  }

  /** If 2^(x+1) = 2 * 2^x, raising a note by an octave (12 semitones) doubles its frequency. */
  lemma OctaveDoublesFrequency(exp2: Exp2Function, note: int)
    requires forall x :: exp2(x + 1.0) == 2.0 * exp2(x)
    ensures MidiNoteNumberToFrequency(note + 12, exp2) == 2.0 * MidiNoteNumberToFrequency(note, exp2)
  {
    var x := (note as real - 69.0) / 12.0;
    assert ((note + 12) as real - 69.0) / 12.0 == x + 1.0;
    assert exp2(x + 1.0) == 2.0 * exp2(x);
  }

  /** The frequencies of notes 0 .. count - 1, as `midiNoteNumberToFrequency` computes them. */
  function NoteFrequencies(exp2: Exp2Function, count: nat): (f: seq<real>)
    ensures |f| == count
    ensures forall n :: 0 <= n < count ==> f[n] == MidiNoteNumberToFrequency(n, exp2)
  {
    if count == 0 then [] else NoteFrequencies(exp2, count - 1) + [MidiNoteNumberToFrequency(count - 1, exp2)]
  }

  /** A note-on or note-off names an existing oscillator; the source does no bounds check. */
  predicate AddressesBank(m: MidiMessage) {
    (m.NoteOn? || m.NoteOff?) ==> 0 <= m.note < OscillatorsCount
  }

  /** Every state of the bank is one an oscillator over a table of this size can be in. */
  predicate AllInRange(bank: seq<OscState>, size: nat) {
    forall i :: 0 <= i < |bank| ==> InRange(bank[i], size)
  }

  predicate ValidBank(bank: seq<OscState>, size: nat) {
    |bank| == OscillatorsCount && AllInRange(bank, size)
  }

  /** The bank right after `initializeOscillators`: 128 oscillators, none playing. */
  function SilentBank(): (bank: seq<OscState>)
    ensures |bank| == OscillatorsCount
    ensures forall i :: 0 <= i < |bank| ==> !bank[i].Playing()
  {
    seq(OscillatorsCount, _ => Stopped)
  }

  /** The increment `setFrequency` computes for a note. */
  function NoteIncrement(note: int, setup: Setup): (inc: real)
    requires setup.Valid() && 0 <= note < OscillatorsCount
    ensures inc > 0.0
  {
    IncrementFor(setup.noteFrequencies[note], |setup.waveTable|, setup.sampleRate)
  }

  /**
    `handleMidiEvent` on the bank: a note-on retunes only that note's oscillator
    (its phase is kept), a note-off stops only that oscillator, all-notes-off
    stops every oscillator, and any other message changes nothing.
   */
  function HandleEvent(bank: seq<OscState>, m: MidiMessage, setup: Setup): (r: seq<OscState>)
    requires setup.Valid() && ValidBank(bank, |setup.waveTable|) && AddressesBank(m)
    ensures ValidBank(r, |setup.waveTable|)
  {
    seq(|bank|, i requires 0 <= i < |bank| => HandledState(bank[i], i, m, setup))
  }

  /**
    What `HandleEvent` does, message by message: a note-on retunes that note's
    oscillator (keeping its phase) and makes it play, a note-off stops it, and
    neither touches another oscillator; all-notes-off stops every oscillator; any
    other message leaves the bank as it was.
   */
  lemma HandleEventEffect(bank: seq<OscState>, m: MidiMessage, setup: Setup)
    requires setup.Valid() && ValidBank(bank, |setup.waveTable|) && AddressesBank(m)
    ensures var r := HandleEvent(bank, m, setup);
            && (m.NoteOn? ==> r[m.note] == OscState(bank[m.note].index, NoteIncrement(m.note, setup))
                              && r[m.note].Playing())
            && (m.NoteOff? ==> r[m.note] == Stopped)
            && ((m.NoteOn? || m.NoteOff?) ==> forall i :: 0 <= i < |bank| && i != m.note ==> r[i] == bank[i])
            && (m.AllNotesOff? ==> forall i :: 0 <= i < |r| ==> r[i] == Stopped)
            && (m.OtherMessage? ==> r == bank)
  {
  }

  /** The new state of oscillator i, previously in state s, after message m. */
  function HandledState(s: OscState, i: int, m: MidiMessage, setup: Setup): OscState
    requires setup.Valid() && AddressesBank(m)
  {
    match m
    case NoteOn(n) => if i == n then OscState(s.index, NoteIncrement(n, setup)) else s
    case NoteOff(n) => if i == n then Stopped else s
    case AllNotesOff => Stopped
    case OtherMessage => s
  }

  /** A bank updated oscillator by oscillator as `HandledState` prescribes is `HandleEvent` of it. */
  lemma HandledPointwise(before: seq<OscState>, after: seq<OscState>, m: MidiMessage, setup: Setup)
    requires setup.Valid() && ValidBank(before, |setup.waveTable|) && AddressesBank(m)
    requires |after| == |before|
    requires forall j :: 0 <= j < |after| ==> after[j] == HandledState(before[j], j, m, setup)
    ensures after == HandleEvent(before, m, setup)
  {
  }

  /**
    The bank after rendering n samples: each playing oscillator has taken n phase
    steps, the others are untouched.
   */
  function AdvanceBank(bank: seq<OscState>, size: nat, n: nat): (r: seq<OscState>)
    requires size > 0 && AllInRange(bank, size)
    ensures |r| == |bank| && AllInRange(r, size)
  {
    seq(|bank|, i requires 0 <= i < |bank| =>
      if bank[i].Playing() then StepN(bank[i], size, n) else bank[i])
  }

  /** Rendering never starts or stops an oscillator. */
  lemma AdvanceKeepsPlaying(bank: seq<OscState>, size: nat, n: nat)
    requires size > 0 && AllInRange(bank, size)
    ensures forall i :: 0 <= i < |bank| ==> AdvanceBank(bank, size, n)[i].Playing() == bank[i].Playing()
  {
  }

  /** The k-th sample an oscillator in state s contributes to a render; 0 when it is not playing. */
  function Voice(s: OscState, table: seq<real>, k: nat): real
    requires |table| > 0 && InRange(s, |table|)
  {
    if s.Playing() then Interpolate(table, StepN(s, |table|, k).index) else 0.0
  }

  /** The k-th sample a render adds to channel 0: the sum of the voices of the whole bank. */
  function Mix(bank: seq<OscState>, table: seq<real>, k: nat): real
    requires |table| > 0 && AllInRange(bank, |table|)
    decreases |bank|
  {
    if bank == [] then 0.0
    else Mix(bank[..|bank| - 1], table, k) + Voice(bank[|bank| - 1], table, k)
  }

  /** Taking one more oscillator of the bank into the mix adds its voice. */
  lemma MixExtend(bank: seq<OscState>, table: seq<real>, i: nat)
    requires |table| > 0 && AllInRange(bank, |table|) && i < |bank|
    ensures forall k: nat :: Mix(bank[..i + 1], table, k) == Mix(bank[..i], table, k) + Voice(bank[i], table, k)
  {
    assert bank[..i + 1][..i] == bank[..i];
  }

  /** A bank in which no oscillator plays adds silence. */
  lemma {:induction false} SilentMix(bank: seq<OscState>, table: seq<real>, k: nat)
    requires |table| > 0 && AllInRange(bank, |table|)
    requires forall i :: 0 <= i < |bank| ==> !bank[i].Playing()
    ensures Mix(bank, table, k) == 0.0
  {
    if bank != [] {
      SilentMix(bank[..|bank| - 1], table, k);
    }
  }

  /** Rendering leaves a bank in which nothing plays exactly as it was. */
  lemma AdvanceSilentBank(bank: seq<OscState>, size: nat, n: nat)
    requires size > 0 && AllInRange(bank, size)
    requires forall i :: 0 <= i < |bank| ==> !bank[i].Playing()
    ensures AdvanceBank(bank, size, n) == bank
  {
  }

  /**
    If every table entry lies in [-1, 1], so does every voice, and the mix of a
    bank lies within plus or minus the number of its oscillators that play.
   */
  lemma {:induction false} MixBounded(bank: seq<OscState>, table: seq<real>, k: nat)
    requires |table| > 0 && AllInRange(bank, |table|)
    requires forall j :: 0 <= j < |table| ==> -1.0 <= table[j] <= 1.0
    ensures -(PlayingCount(bank) as real) <= Mix(bank, table, k) <= PlayingCount(bank) as real
  {
    if bank != [] {
      MixBounded(bank[..|bank| - 1], table, k);
    }
  }

  /** The number of playing oscillators in a bank. */
  function PlayingCount(bank: seq<OscState>): (n: nat)
    ensures n <= |bank|
    decreases |bank|
  {
    if bank == [] then 0
    else PlayingCount(bank[..|bank| - 1]) + (if bank[|bank| - 1].Playing() then 1 else 0)
  }

  // ---------------------------------------------------------------------------
  // Partition of a block at event timestamps
  // ---------------------------------------------------------------------------

  /** Events as the block processor needs them: non-negative, non-decreasing timestamps, valid notes. */
  predicate EventsInOrder(events: seq<MidiEvent>) {
    && (forall i :: 0 <= i < |events| ==> 0 <= events[i].timestamp && AddressesBank(events[i].message))
    && (forall i, j :: 0 <= i < j < |events| ==> events[i].timestamp <= events[j].timestamp)
  }

  /** In addition, no event lies beyond the end of a block of numSamples samples. */
  predicate WellFormedBlock(events: seq<MidiEvent>, numSamples: int) {
    && 0 <= numSamples
    && EventsInOrder(events)
    && forall i :: 0 <= i < |events| ==> events[i].timestamp <= numSamples
  }

  /** Segment j starts at the timestamp of event j - 1 (segment 0 at sample 0). */
  function SegmentStart(events: seq<MidiEvent>, j: nat): int
    requires j <= |events|
  {
    if j == 0 then 0 else events[j - 1].timestamp
  }

  /** Segment j ends at the timestamp of event j (the last segment at the end of the block). */
  function SegmentEnd(events: seq<MidiEvent>, numSamples: int, j: nat): int
    requires j <= |events|
  {
    if j == |events| then numSamples else events[j].timestamp
  }

  /**
    The ranges `processBlock` renders, [0, t1), [t1, t2), ..., [tk, numSamples),
    tile [0, numSamples): the first starts at 0, each ends where the next starts,
    none runs backwards, and the last ends at numSamples.
   */
  lemma SegmentsTile(events: seq<MidiEvent>, numSamples: int)
    requires WellFormedBlock(events, numSamples)
    ensures SegmentStart(events, 0) == 0
    ensures SegmentEnd(events, numSamples, |events|) == numSamples
    ensures forall j :: 0 <= j < |events| ==> SegmentEnd(events, numSamples, j) == SegmentStart(events, j + 1)
    ensures forall j :: 0 <= j <= |events| ==> SegmentStart(events, j) <= SegmentEnd(events, numSamples, j)
  {
  }

  /** Segments do not overlap: an earlier one ends no later than a later one starts. */
  lemma SegmentsOrdered(events: seq<MidiEvent>, numSamples: int, j: nat, k: nat)
    requires WellFormedBlock(events, numSamples) && j < k <= |events|
    ensures SegmentStart(events, j) <= SegmentEnd(events, numSamples, j) <= SegmentStart(events, k)
  {
  }

  /**
    The segment a sample belongs to: the events up to and including index j - 1
    are at or before the sample, event j (if any) is after it.
   */
  function SegmentOf(events: seq<MidiEvent>, numSamples: int, s: int): (j: nat)
    requires WellFormedBlock(events, numSamples) && 0 <= s < numSamples
    ensures j <= |events|
    ensures SegmentStart(events, j) <= s < SegmentEnd(events, numSamples, j)
  {
    SegmentFrom(events, numSamples, s, 0)
  }

  function SegmentFrom(events: seq<MidiEvent>, numSamples: int, s: int, j: nat): (r: nat)
    requires WellFormedBlock(events, numSamples) && 0 <= s < numSamples
    requires j <= |events| && SegmentStart(events, j) <= s
    ensures j <= r <= |events|
    ensures SegmentStart(events, r) <= s < SegmentEnd(events, numSamples, r)
    decreases |events| - j
  {
    if j == |events| || s < events[j].timestamp then j
    else SegmentFrom(events, numSamples, s, j + 1)
  }

  /** A sample lies in only one segment. */
  lemma SegmentUnique(events: seq<MidiEvent>, numSamples: int, s: int, j: nat)
    requires WellFormedBlock(events, numSamples) && 0 <= s < numSamples && j <= |events|
    requires SegmentStart(events, j) <= s < SegmentEnd(events, numSamples, j)
    ensures SegmentOf(events, numSamples, s) == j
  {
    var k := SegmentOf(events, numSamples, s);
    if k < j {
      SegmentsOrdered(events, numSamples, k, j);
    } else if j < k {
      SegmentsOrdered(events, numSamples, j, k);
    }
  }

  /**
    Sample-accurate scheduling: a sample is rendered before event i is applied
    exactly when it lies before the event's timestamp, and after it exactly when
    it lies at or after the timestamp.
   */
  lemma EventSplitsBlock(events: seq<MidiEvent>, numSamples: int, s: int, i: nat)
    requires WellFormedBlock(events, numSamples) && 0 <= s < numSamples && i < |events|
    ensures SegmentOf(events, numSamples, s) <= i <==> s < events[i].timestamp
  {
    var j := SegmentOf(events, numSamples, s);
    if j <= i {
      if j < i {
        SegmentsOrdered(events, numSamples, j, i);
      }
    } else {
      SegmentsOrdered(events, numSamples, i, j);
    }
  }

  /** Length of segment j. */
  function SegmentLength(events: seq<MidiEvent>, numSamples: int, j: nat): nat
    requires WellFormedBlock(events, numSamples) && j <= |events|
  {
    SegmentEnd(events, numSamples, j) - SegmentStart(events, j)
  }

  /**
    The bank while segment j is rendered: the initial bank, advanced over each earlier
    segment and then updated by the event that ends it.
   */
  function BankDuring(bank: seq<OscState>, events: seq<MidiEvent>, numSamples: int, setup: Setup, j: nat)
    : (r: seq<OscState>)
    requires setup.Valid() && ValidBank(bank, |setup.waveTable|)
    requires WellFormedBlock(events, numSamples) && j <= |events|
    ensures ValidBank(r, |setup.waveTable|)
    decreases j
  {
    if j == 0 then bank
    else
      var before := BankDuring(bank, events, numSamples, setup, j - 1);
      HandleEvent(AdvanceBank(before, |setup.waveTable|, SegmentLength(events, numSamples, j - 1)),
                  events[j - 1].message, setup)
  }

  /** The bank at the end of the block: the last segment rendered as well. */
  function BankAfterBlock(bank: seq<OscState>, events: seq<MidiEvent>, numSamples: int, setup: Setup)
    : (r: seq<OscState>)
    requires setup.Valid() && ValidBank(bank, |setup.waveTable|)
    requires WellFormedBlock(events, numSamples)
    ensures ValidBank(r, |setup.waveTable|)
  {
    AdvanceBank(BankDuring(bank, events, numSamples, setup, |events|), |setup.waveTable|,
                SegmentLength(events, numSamples, |events|))
  }

  /** What the block adds to channel 0 at sample s of segment j. */
  function SegmentSample(bank: seq<OscState>, events: seq<MidiEvent>, numSamples: int, setup: Setup,
                         j: nat, s: int): real
    requires setup.Valid() && ValidBank(bank, |setup.waveTable|)
    requires WellFormedBlock(events, numSamples) && j <= |events| && SegmentStart(events, j) <= s
  {
    Mix(BankDuring(bank, events, numSamples, setup, j), setup.waveTable, s - SegmentStart(events, j))
  }

  /** What the block adds to channel 0, sample by sample: each sample gets its own segment's mix. */
  function BlockOutput(bank: seq<OscState>, events: seq<MidiEvent>, numSamples: int, setup: Setup)
    : (out: seq<real>)
    requires setup.Valid() && ValidBank(bank, |setup.waveTable|) && WellFormedBlock(events, numSamples)
    ensures |out| == numSamples
  {
    seq(numSamples, s requires 0 <= s < numSamples =>
      SegmentSample(bank, events, numSamples, setup, SegmentOf(events, numSamples, s), s))
  }

  /**
    Inside segment j every sample belongs to segment j, so the block output there
    is the mix of the bank during j, counted from the segment's start.
   */
  lemma BlockOutputInSegment(bank: seq<OscState>, events: seq<MidiEvent>, numSamples: int, setup: Setup, j: nat)
    requires setup.Valid() && ValidBank(bank, |setup.waveTable|)
    requires WellFormedBlock(events, numSamples) && j <= |events|
    ensures 0 <= SegmentStart(events, j) <= SegmentEnd(events, numSamples, j) <= numSamples
    ensures forall s :: SegmentStart(events, j) <= s < SegmentEnd(events, numSamples, j) ==>
              BlockOutput(bank, events, numSamples, setup)[s]
              == Mix(BankDuring(bank, events, numSamples, setup, j), setup.waveTable, s - SegmentStart(events, j))
  {
    SegmentsTile(events, numSamples);
    forall s | SegmentStart(events, j) <= s < SegmentEnd(events, numSamples, j)
      ensures SegmentOf(events, numSamples, s) == j
    {
      SegmentUnique(events, numSamples, s, j);
    }
  }

  /**
    Segment j followed by event j, as `processBlock` runs them: the block output
    on [start, timestamp) is what the bank during j mixes, and the bank during
    j + 1 is that bank advanced over the segment and then updated by the event.
   */
  lemma EventSegment(bank: seq<OscState>, events: seq<MidiEvent>, numSamples: int, setup: Setup,
                     j: nat, start: int, during: seq<OscState>, output: seq<real>)
    requires setup.Valid() && ValidBank(bank, |setup.waveTable|)
    requires WellFormedBlock(events, numSamples) && j < |events|
    requires output == BlockOutput(bank, events, numSamples, setup)
    requires start == SegmentStart(events, j) && during == BankDuring(bank, events, numSamples, setup, j)
    ensures 0 <= start <= events[j].timestamp <= numSamples && AddressesBank(events[j].message)
    ensures forall s :: start <= s < events[j].timestamp ==> output[s] == Mix(during, setup.waveTable, s - start)
    ensures BankDuring(bank, events, numSamples, setup, j + 1)
            == HandleEvent(AdvanceBank(during, |setup.waveTable|, events[j].timestamp - start), events[j].message, setup)
  {
    BlockOutputInSegment(bank, events, numSamples, setup, j);
  }

  /**
    The last segment, from the last event to the end of the block: the block
    output there is what the last bank mixes, and rendering it from that bank
    gives the bank at the end of the block.
   */
  lemma LastSegment(bank: seq<OscState>, events: seq<MidiEvent>, numSamples: int, setup: Setup,
                    start: int, last: seq<OscState>, output: seq<real>)
    requires setup.Valid() && ValidBank(bank, |setup.waveTable|) && WellFormedBlock(events, numSamples)
    requires output == BlockOutput(bank, events, numSamples, setup)
    requires start == SegmentStart(events, |events|) && last == BankDuring(bank, events, numSamples, setup, |events|)
    ensures 0 <= start <= numSamples
    ensures forall s :: start <= s < numSamples ==> output[s] == Mix(last, setup.waveTable, s - start)
    ensures BankAfterBlock(bank, events, numSamples, setup) == AdvanceBank(last, |setup.waveTable|, numSamples - start)
  {
    BlockOutputInSegment(bank, events, numSamples, setup, |events|);
  }

  /** With no events the block is one render of [0, numSamples) under the initial bank. */
  lemma NoEventsIsOneRender(bank: seq<OscState>, numSamples: int, setup: Setup)
    requires setup.Valid() && ValidBank(bank, |setup.waveTable|) && 0 <= numSamples
    ensures forall s :: 0 <= s < numSamples ==> BlockOutput(bank, [], numSamples, setup)[s] == Mix(bank, setup.waveTable, s)
    ensures BankAfterBlock(bank, [], numSamples, setup) == AdvanceBank(bank, |setup.waveTable|, numSamples)
  {
  }
}
