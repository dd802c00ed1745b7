/** The arpeggiator track (src/ArpeggiatorSynth.jsx): the note table, the
    octave and note-length buttons, step editing, and the timing of a
    live note. */
module Arpeggiator {
  import opened Wrappers
  import opened Patterns
  import opened Timing

  /** Frequencies in Hz of note indices 0..15, C3 up to D#3 an octave
      higher (src/ArpeggiatorSynth.jsx:4-21). */
  const BaseNotes: seq<real> := [
    130.81, 138.59, 146.83, 155.56, 164.81, 174.61, 185.00, 196.00,
    207.65, 220.00, 233.08, 246.94, 261.63, 277.18, 293.66, 311.13]

  const LowestNote: int := 0
  const HighestNote: int := 15

  /** The note a rest becomes when it is clicked or adjusted. */
  const DefaultNote: int := 7

  const MinOctave: int := -2
  const MaxOctave: int := 2

  const MinNoteLength: real := 0.2
  const MaxNoteLength: real := 2.0
  const NoteLengthStep: real := 0.2

  /** Peak gain of a live note. */
  const LiveGain: real := 0.7

  /** Level every note's gain ramps down to. */
  const GainFloor: real := 0.001

  /** `Math.pow(2, e)` for an integer exponent. */
  function Pow2(e: int): (r: real)
    ensures r > 0.0
    decreases if e < 0 then -e else e
  {
    if e == 0 then 1.0 else if e > 0 then 2.0 * Pow2(e - 1) else Pow2(e + 1) / 2.0
  }

  /** Raising the octave doubles every frequency. */
  lemma {:induction false} Pow2Succ(e: int)
    ensures Pow2(e + 1) == 2.0 * Pow2(e)
    decreases if e < 0 then -e else e
  {
    if e < -1 {
      Pow2Succ(e + 1);
    }
  }

  lemma BaseNotesAscending()
    ensures forall i, j :: 0 <= i < j < |BaseNotes| ==> BaseNotes[i] < BaseNotes[j]
  {
    forall i, j | 0 <= i < j < |BaseNotes|
      ensures BaseNotes[i] < BaseNotes[j]
    {
      var k := i;
      while k < j
        invariant i <= k <= j
        invariant BaseNotes[i] <= BaseNotes[k]
      {
        k := k + 1;
      }
    }
  }

  /** Multiplying by a positive factor keeps the table ascending. */
  lemma ScaledNotesAscending(r: seq<real>, scale: real)
    requires scale > 0.0 && |r| == |BaseNotes|
    requires forall i :: 0 <= i < |r| ==> r[i] == BaseNotes[i] * scale
    ensures forall i, j :: 0 <= i < j < |r| ==> r[i] < r[j]
  {
    BaseNotesAscending();
    forall i, j | 0 <= i < j < |r|
      ensures r[i] < r[j]
    {
      ScaleKeepsOrder(BaseNotes[i], BaseNotes[j], scale);
    }
  }

  lemma ScaleKeepsOrder(a: real, b: real, c: real)
    requires a < b && c > 0.0
    ensures a * c < b * c
  {
    assert b * c - a * c == (b - a) * c;
  }

  /** `synthNotes`: the note table shifted by `octave` octaves. */
  function SynthNotes(octave: int): (r: seq<real>)
    ensures |r| == |BaseNotes|
    ensures forall i :: 0 <= i < |r| ==> r[i] == BaseNotes[i] * Pow2(octave)
    ensures forall i, j :: 0 <= i < j < |r| ==> r[i] < r[j]
  {
    var scale := Pow2(octave);
    var notes := seq(|BaseNotes|, i requires 0 <= i < |BaseNotes| => BaseNotes[i] * scale);
    ScaledNotesAscending(notes, scale);
    notes
  }

  // ---------------------------------------------------------------------
  // Editing
  // ---------------------------------------------------------------------

  datatype Direction = Up | Down

  /** The note after one press of an arrow: up from 15 and down from 0 wrap
      around. */
  function StepNote(note: int, dir: Direction): int {
    match dir
    case Up => if note < HighestNote then note + 1 else LowestNote
    case Down => if note > LowestNote then note - 1 else HighestNote
  }

  /** Notes stay in 0..15 under the arrows. */
  lemma StepNoteInRange(note: int, dir: Direction)
    requires LowestNote <= note <= HighestNote
    ensures LowestNote <= StepNote(note, dir) <= HighestNote
  {
  }

  /** The down arrow undoes the up arrow and vice versa. */
  lemma StepNoteInverse(note: int)
    requires LowestNote <= note <= HighestNote
    ensures StepNote(StepNote(note, Up), Down) == note
    ensures StepNote(StepNote(note, Down), Up) == note
  {
  }

  function Iterate(note: int, dir: Direction, n: nat): int {
    if n == 0 then note else StepNote(Iterate(note, dir, n - 1), dir)
  }

  /** Pressing an arrow `n` times moves a note `n` places round the
      sixteen-note circle. */
  lemma {:induction false} IterateAround(note: int, dir: Direction, n: nat)
    requires LowestNote <= note <= HighestNote
    ensures dir == Up ==> Iterate(note, dir, n) == (note + n) % 16
    ensures dir == Down ==> Iterate(note, dir, n) == (note - n) % 16
  {
    if n == 0 {
      assert note % 16 == note;
    } else {
      IterateAround(note, dir, n - 1);
      if dir == Up {
        StepUpMod(note + (n - 1));
      } else {
        StepDownMod(note - (n - 1));
      }
    }
  }

  /** The up arrow on a note taken round the circle is one more, round the
      circle. */
  lemma StepUpMod(x: int)
    ensures StepNote(x % 16, Up) == (x + 1) % 16
  {
    var q, r := x / 16, x % 16;
    if r < HighestNote {
      assert x + 1 == 16 * q + (r + 1);
    } else {
      assert x + 1 == 16 * (q + 1);
    }
  }

  /** The down arrow likewise is one less, round the circle. */
  lemma StepDownMod(x: int)
    ensures StepNote(x % 16, Down) == (x - 1) % 16
  {
    var q, r := x / 16, x % 16;
    if r > LowestNote {
      assert x - 1 == 16 * q + (r - 1);
    } else {
      assert x - 1 == 16 * (q - 1) + 15;
    }
  }

  /** Sixteen presses of the same arrow come back to the same note. */
  lemma SixteenPressesCycle(note: int, dir: Direction)
    requires LowestNote <= note <= HighestNote
    ensures Iterate(note, dir, 16) == note
  {
    IterateAround(note, dir, 16);
  }

  /** `adjustNote`: a rest counts as note 7, then the arrow moves it by one
      with wrap-around; no other step changes. */
  function AdjustNote(pattern: seq<Option<int>>, step: nat, dir: Direction): (r: seq<Option<int>>)
    requires step < |pattern|
    ensures |r| == |pattern|
    ensures forall j :: 0 <= j < |r| && j != step ==> r[j] == pattern[j]
    ensures pattern[step].None? ==> r[step] == Some(StepNote(DefaultNote, dir))
    ensures pattern[step].Some? ==> r[step] == Some(StepNote(pattern[step].value, dir))
    ensures (forall j :: 0 <= j < |pattern| && pattern[j].Some? ==> LowestNote <= pattern[j].value <= HighestNote)
        ==> (forall j :: 0 <= j < |r| && r[j].Some? ==> LowestNote <= r[j].value <= HighestNote)
  {
    var current := match pattern[step] case None => DefaultNote case Some(n) => n;
    pattern[step := Some(StepNote(current, dir))]
  }

  /** The outcome of a click on an arpeggiator step. */
  datatype ClickResult = ClickResult(pattern: seq<Option<int>>, selected: Option<nat>)

  /** `handleStepClick`: clicking the selected step clears it and drops the
      selection; clicking any other step selects it and, if it was a rest,
      puts note 7 there. */
  function HandleStepClick(pattern: seq<Option<int>>, selected: Option<nat>, step: nat): (r: ClickResult)
    requires step < |pattern|
    ensures |r.pattern| == |pattern|
    ensures forall j :: 0 <= j < |pattern| && j != step ==> r.pattern[j] == pattern[j]
    ensures selected == Some(step) ==> r.pattern[step].None? && r.selected.None?
    ensures selected != Some(step) ==> r.selected == Some(step) && r.pattern[step].Some?
    ensures selected != Some(step) && pattern[step].Some? ==> r.pattern == pattern
    ensures selected != Some(step) && pattern[step].None? ==> r.pattern[step] == Some(DefaultNote)
  {
    if selected == Some(step) then
      ClickResult(pattern[step := None], None)
    else if pattern[step].None? then
      ClickResult(pattern[step := Some(DefaultNote)], Some(step))
    else
      ClickResult(pattern, Some(step))
  }

  /** Clicking a rest twice leaves the pattern and the selection as they
      were. */
  lemma DoubleClickOnRest(pattern: seq<Option<int>>, selected: Option<nat>, step: nat)
    requires step < |pattern| && pattern[step].None? && selected != Some(step)
    ensures var once := HandleStepClick(pattern, selected, step);
      HandleStepClick(once.pattern, once.selected, step) == ClickResult(pattern, None)
  {
    var once := HandleStepClick(pattern, selected, step);
    assert once.pattern[step := None] == pattern;
  }

  /** `Oct-`: one octave down, never below -2. */
  function OctaveDown(octave: int): (r: int)
    ensures octave > MinOctave ==> r == octave - 1
    ensures octave <= MinOctave ==> r == MinOctave
  {
    if octave - 1 > MinOctave then octave - 1 else MinOctave
  }

  /** `Oct+`: one octave up, never above 2. */
  function OctaveUp(octave: int): (r: int)
    ensures octave < MaxOctave ==> r == octave + 1
    ensures octave >= MaxOctave ==> r == MaxOctave
  {
    if octave + 1 < MaxOctave then octave + 1 else MaxOctave
  }

  /** The octave buttons keep the shift within [-2, 2], and one undoes the
      other away from the bound it would hit. */
  lemma OctaveButtons(octave: int)
    requires MinOctave <= octave <= MaxOctave
    ensures MinOctave <= OctaveDown(octave) <= MaxOctave
    ensures MinOctave <= OctaveUp(octave) <= MaxOctave
    ensures octave > MinOctave ==> OctaveUp(OctaveDown(octave)) == octave
    ensures octave < MaxOctave ==> OctaveDown(OctaveUp(octave)) == octave
  {
  }

  /** Length `+`: 0.2 longer, capped at 2.0. */
  function LengthUp(len: real): (r: real)
    ensures r <= MaxNoteLength
    ensures len + NoteLengthStep <= MaxNoteLength ==> r == len + NoteLengthStep
    ensures len + NoteLengthStep > MaxNoteLength ==> r == MaxNoteLength
  {
    if len + NoteLengthStep < MaxNoteLength then len + NoteLengthStep else MaxNoteLength
  }

  /** Length `-`: 0.2 shorter, floored at 0.2. */
  function LengthDown(len: real): (r: real)
    ensures r >= MinNoteLength
    ensures len - NoteLengthStep >= MinNoteLength ==> r == len - NoteLengthStep
    ensures len - NoteLengthStep < MinNoteLength ==> r == MinNoteLength
  {
    if len - NoteLengthStep > MinNoteLength then len - NoteLengthStep else MinNoteLength
  }

  /** The length buttons keep the note length within [0.2, 2.0]. */
  lemma LengthButtons(len: real)
    requires MinNoteLength <= len <= MaxNoteLength
    ensures MinNoteLength <= LengthUp(len) <= MaxNoteLength
    ensures MinNoteLength <= LengthDown(len) <= MaxNoteLength
    ensures len <= MaxNoteLength - NoteLengthStep ==> LengthDown(LengthUp(len)) == len
  {
  }

  // ---------------------------------------------------------------------
  // Live playback
  // ---------------------------------------------------------------------

  /** A note index is one of the sixteen table entries. */
  predicate ValidNote(n: int) {
    LowestNote <= n <= HighestNote
  }

  /** The arpeggiator state every editing path keeps. */
  predicate ValidArp(a: ArpState) {
    && |a.pattern| == StepCount
    && MinOctave <= a.octaveShift <= MaxOctave
    && (forall j :: 0 <= j < |a.pattern| && a.pattern[j].Some? ==> ValidNote(a.pattern[j].value))
  }

  /** Whether the live arpeggiator plays at `step`: while playing, at every
      step that is not a rest. */
  predicate LiveTriggers(isPlaying: bool, a: ArpState, step: nat): (r: bool)
    requires step < |a.pattern|
    ensures !isPlaying ==> !r
    ensures isPlaying ==> (r <==> a.pattern[step] != None)
    ensures a.pattern[step] == Some(LowestNote) ==> (r <==> isPlaying)
  {
    isPlaying && a.pattern[step].Some?
  }

  /** The audio parameters of one live note. */
  datatype LiveNote = LiveNote(
    waveform: Waveform,
    frequency: real,
    start: real,
    gainStart: real,
    gainEnd: real,
    gainEndTime: real,
    stopTime: real,
    cutoff: real,
    resonance: real,
    delayTime: real,
    feedback: real)

  /** `playNote(noteIndex)` at audio time `now`: the note starts at its
      shifted table frequency and is scheduled to stop after `noteLength`
      steps, the gain ramping from 0.7 to 0.001 over exactly that time.
      When it actually falls silent is `AudibleEnd`. */
  function PlayNote(tempo: Tempo, a: ArpState, noteIndex: int, now: real): (r: LiveNote)
    requires ValidNote(noteIndex)
    ensures r.frequency == SynthNotes(a.octaveShift)[noteIndex]
    ensures r.start == now
    ensures r.gainStart == LiveGain && r.gainEnd == GainFloor
    ensures r.gainEndTime == r.stopTime
    ensures r.stopTime - r.start == StepSeconds(tempo) * a.noteLength
    ensures r.delayTime == a.delayAmount
  {
    var noteDuration := StepSeconds(tempo) * a.noteLength;
    LiveNote(a.waveform, SynthNotes(a.octaveShift)[noteIndex], now, LiveGain, GainFloor,
             now + noteDuration, now + noteDuration, a.cutoff, a.resonance, a.delayAmount, a.feedback)
  }

  // ---------------------------------------------------------------------
  // When a live note falls silent
  // ---------------------------------------------------------------------

  function Min(a: real, b: real): (r: real)
    ensures r <= a && r <= b && (r == a || r == b)
  {
    if a <= b then a else b
  }

  /** Strictly increasing start times of the notes the live arpeggiator
      plays in turn. */
  predicate Increasing(starts: seq<real>) {
    forall j, k :: 0 <= j < k < |starts| ==> starts[j] < starts[k]
  }

  /** The first moment, from note `i`'s own scheduled stop and the cleanup
      timers armed by notes `j..i-1`, that stops note `i`. Each `playNote`
      arms `setTimeout(cleanupSound, noteDuration)`, and that timer stops
      whichever note is current when it fires; a timer that fired before
      note `i` started does not touch it. */
  function FirstStop(starts: seq<real>, d: real, i: nat, j: nat): (r: real)
    requires j <= i < |starts|
    ensures r <= starts[i] + d
    ensures d > 0.0 ==> starts[i] < r
    ensures forall k :: j <= k < i && starts[i] < starts[k] + d ==> r <= starts[k] + d
    ensures r == starts[i] + d || exists k :: j <= k < i && starts[i] < starts[k] + d && r == starts[k] + d
    decreases i - j
  {
    if j == i then starts[i] + d
    else
      var later := FirstStop(starts, d, i, j + 1);
      if starts[i] < starts[j] + d then Min(starts[j] + d, later) else later
  }

  /** When note `i` of a run of live notes `d` seconds long falls silent:
      `playNote` first calls `cleanupSound`, so the next note cuts it off;
      otherwise the earliest of its own stop and the stale cleanup timers. */
  function AudibleEnd(starts: seq<real>, d: real, i: nat): (r: real)
    requires i < |starts|
    ensures r <= starts[i] + d
    ensures i + 1 < |starts| ==> r <= starts[i + 1]
  {
    var stop := FirstStop(starts, d, i, 0);
    if i + 1 < |starts| then Min(starts[i + 1], stop) else stop
  }

  /** A live note sounds for a while, at most its scheduled `noteLength`
      steps, and all of them exactly when no other note cuts it short: the
      next note starts no earlier than its stop and every earlier note's
      cleanup timer has fired by the time it starts. */
  lemma AudibleEndBounds(starts: seq<real>, d: real, i: nat)
    requires Increasing(starts) && d > 0.0 && i < |starts|
    ensures starts[i] < AudibleEnd(starts, d, i) <= starts[i] + d
    ensures AudibleEnd(starts, d, i) == starts[i] + d
            <==> (i + 1 == |starts| || starts[i] + d <= starts[i + 1])
                 && forall k :: 0 <= k < i ==> starts[k] + d <= starts[i]
  {
    var stop := FirstStop(starts, d, i, 0);
    if stop == starts[i] + d {
      forall k | 0 <= k < i
        ensures starts[k] + d <= starts[i]
      {
        assert starts[k] < starts[i];
      }
    }
  }

  /** At 120 BPM with notes two steps long on steps 0 and 1 and a rest on
      step 2, the first note is cut off by the second after one step, and
      the second is stopped by the first note's cleanup timer after one
      step, not after the two it was scheduled for. */
  lemma StaleTimerCutsNote(a: ArpState)
    requires a.noteLength == 2.0
    ensures var d := StepSeconds(120) * a.noteLength;
      var starts := [0.0, StepSeconds(120)];
      && d == 0.25
      && AudibleEnd(starts, d, 0) == 0.125
      && AudibleEnd(starts, d, 1) == 0.25
      && starts[1] + d == 0.375
  {
    var d := StepSeconds(120) * a.noteLength;
    var starts := [0.0, StepSeconds(120)];
    assert FirstStop(starts, d, 1, 1) == 0.375;
    assert FirstStop(starts, d, 1, 0) == 0.25;
  }
}
