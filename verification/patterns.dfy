/** The data the drum machine works on: step grids, per-instrument voice
    parameters, the arpeggiator state and saved patterns (src/App.jsx,
    src/ArpeggiatorSynth.jsx). */
module Patterns {
  import opened Wrappers

  /** Every grid row and the arpeggiator pattern have this many steps. */
  const StepCount: nat := 16

  /** A pattern bank shows and holds at most this many slots. */
  const BankCapacity: nat := 8

  /** Tempo in beats per minute, set by a 60..180 range slider. */
  type Tempo = t: int | 60 <= t <= 180 witness 120

  /** Swing percentage, set by a 0..100 range slider. */
  type Swing = s: int | 0 <= s <= 100 witness 0

  /** A position on the 16-step grid. */
  type StepIndex = s: nat | s < 16

  /** The six fixed drum voices. */
  datatype Instrument = Kick | Snare | Hihat | Clap | Tom | Crash

  /** Key order of the step-grid object, which is the order in which
      `Object.entries` visits the instruments when a step fires. */
  const InstrumentOrder: seq<Instrument> := [Kick, Snare, Hihat, Clap, Tom, Crash]

  /** Instrument -> one boolean per step. */
  type StepGrid = map<Instrument, seq<bool>>

  /** Named synthesis knobs of one voice (frequency, decay, tone, noiseFreq). */
  type VoiceParams = map<string, real>

  type DrumParams = map<Instrument, VoiceParams>

  datatype Waveform = Sine | Square | Sawtooth | Triangle

  /** The arpeggiator's settings; `pattern` holds a note index 0..15 or a rest. */
  datatype ArpState = ArpState(
    waveform: Waveform,
    octaveShift: int,
    pattern: seq<Option<int>>,
    noteLength: real,
    delayAmount: real,
    feedback: real,
    cutoff: real,
    resonance: real)

  /** A pattern name: the slot number given on save, or `<name>_copy` for a
      copy made in the arrangement. */
  datatype Name = Numbered(n: nat) | CopyOf(original: Name)

  /** A saved pattern snapshot. `arp` is absent for a pattern object that
      carries no arpeggiator state. */
  datatype Pattern = Pattern(
    id: int,
    name: Name,
    tempo: Tempo,
    swing: Swing,
    sequence: StepGrid,
    drumParams: DrumParams,
    arp: Option<ArpState>)

  /** Every instrument has a row of exactly 16 steps. */
  predicate WellFormedGrid(g: StepGrid) {
    forall i: Instrument :: i in g && |g[i]| == StepCount
  }

  /** Whether instrument `i` is switched on at step `s`; a missing row or an
      index past its end reads as `undefined`, which is falsy. */
  predicate Active(g: StepGrid, i: Instrument, s: nat) {
    i in g && s < |g[i]| && g[i][s]
  }

  /** Digits of a natural number in base 10. */
  function Decimal(n: nat): (r: string)
    ensures |r| > 0
    ensures forall k :: 0 <= k < |r| ==> '0' <= r[k] <= '9'
    decreases n
  {
    var d := [(('0' as int) + n % 10) as char];
    if n < 10 then d else Decimal(n / 10) + d
  }

  /** How a name is displayed: the number, with `_copy` appended per copy. */
  function Label(name: Name): string {
    match name
    case Numbered(n) => Decimal(n)
    case CopyOf(o) => Label(o) + "_copy"
  }
}
