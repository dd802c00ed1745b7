/** The offline renderer (`renderArrangement`, src/AudioRenderer.jsx:12-217):
    it walks the arrangement, computes the absolute time of every step of
    every pattern, binds every triggered voice to the offline context,
    then hands the rendered buffer to the WAV encoder. The rendering
    engine itself is not modelled: its outcome is an input. */
module Renderer {
  import opened Wrappers
  import opened Patterns
  import opened Timing
  import Arpeggiator
  import Wav

  const SampleRate: nat := 48000
  const RenderChannels: nat := 2

  /** Seconds of silence the offline context allows after the last pattern. */
  const TailSeconds: real := 2.0

  const TimeoutMessage: string := "Render timeout - took longer than 30 seconds"

  /** Peak gain of an arpeggiator note rendered offline. */
  const OfflineArpGain: real := 0.3

  // ---------------------------------------------------------------------
  // Durations
  // ---------------------------------------------------------------------

  /** What one pattern adds to the running time: 16 steps, swing ignored. */
  function PatternSeconds(p: Pattern): (d: real)
    ensures d == 240.0 / p.tempo as real
    ensures 4.0 / 3.0 <= d <= 4.0
  {
    StepSeconds(p.tempo) * 16.0
  }

  /** The `reduce` computing the total duration: a left fold over the
      arrangement. */
  function TotalDuration(arr: seq<Pattern>): (d: real)
    ensures d >= 0.0
    ensures |arr| > 0 ==> d > 0.0
  {
    if |arr| == 0 then 0.0 else TotalDuration(arr[..|arr| - 1]) + PatternSeconds(arr[|arr| - 1])
  }

  /** Durations add up across concatenated arrangements. */
  lemma {:induction false} TotalDurationAppend(a: seq<Pattern>, b: seq<Pattern>)
    ensures TotalDuration(a + b) == TotalDuration(a) + TotalDuration(b)
    decreases |b|
  {
    if |b| == 0 {
      assert a + b == a;
    } else {
      var b' := b[..|b| - 1];
      var x := b[|b| - 1];
      assert (a + b)[..|a + b| - 1] == a + b';
      assert (a + b)[|a + b| - 1] == x;
      assert TotalDuration(a + b) == TotalDuration(a + b') + PatternSeconds(x);
      assert TotalDuration(b) == TotalDuration(b') + PatternSeconds(x);
      TotalDurationAppend(a, b');
    }
  }

  /** The running `currentTime` when pattern `k` starts. */
  function PatternStart(arr: seq<Pattern>, k: nat): real
    requires k <= |arr|
  {
    TotalDuration(arr[..k])
  }

  /** Pattern `k + 1` starts exactly when the 16 steps of pattern `k` end:
      no gap and no overlap at the boundary. */
  lemma NextPatternStart(arr: seq<Pattern>, k: nat)
    requires k < |arr|
    ensures PatternStart(arr, k + 1) == PatternStart(arr, k) + 16.0 * StepSeconds(arr[k].tempo)
  {
    assert arr[..k + 1][..k] == arr[..k];
  }

  /** The total duration is the start of a pattern that would follow the
      last one. */
  lemma TotalIsEnd(arr: seq<Pattern>)
    ensures PatternStart(arr, |arr|) == TotalDuration(arr)
  {
    assert arr[..|arr|] == arr;
  }

  /** `Math.ceil`. */
  function Ceil(x: real): (r: int)
    ensures x <= r as real < x + 1.0
  {
    var f := x.Floor;
    if f as real == x then f else f + 1
  }

  /** Length in sample frames of the offline context: the whole arrangement
      plus two seconds, at 48 kHz, rounded up. */
  function TotalSamples(arr: seq<Pattern>): (n: int)
    ensures (TotalDuration(arr) + TailSeconds) * SampleRate as real <= n as real
    ensures (n as real) < (TotalDuration(arr) + TailSeconds) * SampleRate as real + 1.0
    ensures n >= 96000
  {
    Ceil((TotalDuration(arr) + TailSeconds) * SampleRate as real)
  }

  // ---------------------------------------------------------------------
  // Step times
  // ---------------------------------------------------------------------

  /** How far into its pattern step `s` fires: `s` whole steps plus the
      swing delay on odd steps, which is not carried over to later steps. */
  function StepOffset(p: Pattern, s: nat): real {
    s as real * StepSeconds(p.tempo) + SwingOffset(p.swing, s, StepSeconds(p.tempo))
  }

  /** The absolute time step `s` of pattern `k` is scheduled at. */
  function StepTime(arr: seq<Pattern>, k: nat, s: nat): real
    requires k < |arr|
  {
    PatternStart(arr, k) + StepOffset(arr[k], s)
  }

  /** Within a pattern each step fires strictly after the one before. */
  lemma StepOffsetIncreasing(p: Pattern, s: nat, s': nat)
    requires s < s'
    ensures StepOffset(p, s) < StepOffset(p, s')
  {
    var d := StepSeconds(p.tempo);
    OffsetOrder(s as real, s' as real, d, SwingOffset(p.swing, s, d), SwingOffset(p.swing, s', d));
  }

  /** Every step of a pattern fires before the next pattern starts. */
  lemma StepBeforeNextPattern(arr: seq<Pattern>, k: nat, s: nat)
    requires k < |arr| && s < StepCount
    ensures PatternStart(arr, k) <= StepTime(arr, k, s) < PatternStart(arr, k + 1)
  {
    NextPatternStart(arr, k);
    StepOffsetWithin(arr[k], s);
  }

  /** A step of a pattern, swing included, fires within its sixteen steps. */
  lemma StepOffsetWithin(p: Pattern, s: nat)
    requires s < StepCount
    ensures 0.0 <= StepOffset(p, s) < 16.0 * StepSeconds(p.tempo)
  {
    OffsetWithin(s as real, 16.0, StepSeconds(p.tempo), SwingOffset(p.swing, s, StepSeconds(p.tempo)));
  }

  /** The three timing scenarios of a single 120 BPM pattern: the straight
      kicks on steps 0, 4, 8 and 12 land on the beats, and with 50% swing
      step 1 is pushed from 0.125 s to 0.166666875 s. */
  lemma Scenario120Bpm(p: Pattern)
    requires p.tempo == 120
    ensures p.swing == 0 ==>
      StepOffset(p, 0) == 0.0 && StepOffset(p, 4) == 0.5 && StepOffset(p, 8) == 1.0 && StepOffset(p, 12) == 1.5
    ensures p.swing == 50 ==> StepOffset(p, 1) == 0.166666875
    ensures TotalSamples([p]) == 192000
  {
    assert TotalDuration([p]) == 2.0 by {
      assert [p][..0] == [];
    }
  }

  // ---------------------------------------------------------------------
  // Events
  // ---------------------------------------------------------------------

  /** What the synthesizer's context points at: the one it had before the
      render, or the offline context. */
  datatype Binding = Original | Offline

  /** `pattern.drumParams[sound]`, which is `undefined` when the pattern
      carries no parameters for that instrument; the renderer passes it on
      to the voice as it is. */
  function ParamsOf(p: Pattern, i: Instrument): (r: Option<VoiceParams>)
    ensures r.Some? <==> i in p.drumParams
    ensures r.Some? ==> r.value == p.drumParams[i]
  {
    if i in p.drumParams then Some(p.drumParams[i]) else None
  }

  /** A voice created during scheduling. */
  datatype Voice =
    | Drum(instrument: Instrument, params: Option<VoiceParams>)
    | ArpNote(
        waveform: Waveform,
        frequency: real,
        gainStart: real,
        gainEnd: real,
        gainEndTime: real,
        stopTime: real,
        cutoff: real,
        resonance: real,
        delayTime: real,
        feedback: real)

  /** One triggered voice: the pattern and step it belongs to, the time it
      starts at, and the context the synthesizer was bound to when it was
      created. */
  datatype Event = Event(pattern: nat, step: nat, time: real, voice: Voice, target: Binding)

  /** Whether the arpeggiator note at step `s` is rendered: the slot must be
      truthy, so a rest and note index 0 are both skipped. */
  predicate ArpTriggers(p: Pattern, s: nat) {
    && p.arp.Some?
    && s < |p.arp.value.pattern|
    && p.arp.value.pattern[s].Some?
    && p.arp.value.pattern[s].value != 0
  }

  /** The rendered arpeggiator note for slot value `note` at time `t`: the
      slot value itself is used as the base frequency; the gain falls from
      0.3 to 0.001 over `noteLength` steps and the oscillator stops twice
      the delay amount later. */
  function OfflineArpVoice(p: Pattern, note: int, t: real): (v: Voice)
    requires p.arp.Some?
    ensures v.ArpNote?
    ensures v.frequency == note as real * Arpeggiator.Pow2(p.arp.value.octaveShift)
    ensures v.gainStart == OfflineArpGain && v.gainEnd == Arpeggiator.GainFloor
    ensures v.gainEndTime == t + p.arp.value.noteLength * StepSeconds(p.tempo)
    ensures v.stopTime == v.gainEndTime + 2.0 * p.arp.value.delayAmount
    ensures v.delayTime == p.arp.value.delayAmount * (60.0 / p.tempo as real)
  {
    var a := p.arp.value;
    var noteLength := a.noteLength * StepSeconds(p.tempo);
    ArpNote(a.waveform, note as real * Arpeggiator.Pow2(a.octaveShift),
            OfflineArpGain, Arpeggiator.GainFloor, t + noteLength,
            t + noteLength + a.delayAmount * 2.0,
            a.cutoff, a.resonance, a.delayAmount * (60.0 / p.tempo as real), a.feedback)
  }

  /** The drum events of step `s` for the first `j` instruments in key
      order. */
  function DrumEvents(p: Pattern, k: nat, s: nat, t: real, j: nat): seq<Event>
    requires j <= |InstrumentOrder|
  {
    if j == 0 then []
    else
      var i := InstrumentOrder[j - 1];
      DrumEvents(p, k, s, t, j - 1)
      + (if Active(p.sequence, i, s) then [Event(k, s, t, Drum(i, ParamsOf(p, i)), Offline)] else [])
  }

  /** Everything step `s` of pattern `p` (arrangement index `k`) triggers
      at time `t`: the active drums, then the arpeggiator note. */
  function StepEvents(p: Pattern, k: nat, s: nat, t: real): seq<Event>
  {
    DrumEvents(p, k, s, t, |InstrumentOrder|)
    + (if ArpTriggers(p, s) then [Event(k, s, t, OfflineArpVoice(p, p.arp.value.pattern[s].value, t), Offline)] else [])
  }

  /** The events of the first `n` steps of a pattern starting at `start`. */
  function StepsEvents(p: Pattern, k: nat, start: real, n: nat): seq<Event>
  {
    if n == 0 then []
    else StepsEvents(p, k, start, n - 1) + StepEvents(p, k, n - 1, start + StepOffset(p, n - 1))
  }

  /** The whole schedule of an arrangement, pattern after pattern. */
  function Schedule(arr: seq<Pattern>): seq<Event>
  {
    if |arr| == 0 then []
    else
      var init := arr[..|arr| - 1];
      Schedule(init) + StepsEvents(arr[|arr| - 1], |arr| - 1, TotalDuration(init), StepCount)
  }

  /** What an event of the schedule must be: it belongs to a real step of a
      real pattern, fires at that step's time, was created while the
      offline context was bound, and is a drum that is on at that step or
      the arpeggiator note of that step. */
  ghost predicate EventOf(arr: seq<Pattern>, e: Event) {
    && e.pattern < |arr|
    && e.step < StepCount
    && e.time == StepTime(arr, e.pattern, e.step)
    && e.target == Offline
    && (e.voice.Drum? ==> Active(arr[e.pattern].sequence, e.voice.instrument, e.step)
                          && e.voice.params == ParamsOf(arr[e.pattern], e.voice.instrument))
    && (e.voice.ArpNote? ==> ArpTriggers(arr[e.pattern], e.step)
                             && e.voice == OfflineArpVoice(arr[e.pattern], arr[e.pattern].arp.value.pattern[e.step].value, e.time))
  }

  lemma {:induction false} DrumEventsSound(arr: seq<Pattern>, k: nat, s: nat, j: nat)
    requires k < |arr| && s < StepCount && j <= |InstrumentOrder|
    ensures forall e | e in DrumEvents(arr[k], k, s, StepTime(arr, k, s), j) :: EventOf(arr, e)
  {
    if j > 0 {
      DrumEventsSound(arr, k, s, j - 1);
    }
  }

  lemma {:induction false} StepsEventsSound(arr: seq<Pattern>, k: nat, n: nat)
    requires k < |arr| && n <= StepCount
    ensures forall e | e in StepsEvents(arr[k], k, PatternStart(arr, k), n) :: EventOf(arr, e)
  {
    if n > 0 {
      StepsEventsSound(arr, k, n - 1);
      DrumEventsSound(arr, k, n - 1, |InstrumentOrder|);
    }
  }

  /** An event that belongs to a prefix of the arrangement belongs to the
      whole arrangement: earlier patterns' times do not depend on later
      patterns. */
  lemma EventOfPrefix(arr: seq<Pattern>, n: nat, e: Event)
    requires n <= |arr| && EventOf(arr[..n], e)
    ensures EventOf(arr, e)
  {
    assert arr[..n][..e.pattern] == arr[..e.pattern];
  }

  /** Soundness of the schedule: every event is a trigger of the
      arrangement at the step time of its pattern and step. */
  lemma {:induction false} ScheduleSound(arr: seq<Pattern>)
    ensures forall e | e in Schedule(arr) :: EventOf(arr, e)
    decreases |arr|
  {
    if |arr| > 0 {
      var n := |arr| - 1;
      var init := arr[..n];
      ScheduleSound(init);
      forall e | e in Schedule(init)
        ensures EventOf(arr, e)
      {
        EventOfPrefix(arr, n, e);
      }
      StepsEventsSound(arr, n, StepCount);
    }
  }

  lemma InstrumentListed(i: Instrument)
    ensures i in InstrumentOrder
  {
    match i
    case Kick => assert InstrumentOrder[0] == i;
    case Snare => assert InstrumentOrder[1] == i;
    case Hihat => assert InstrumentOrder[2] == i;
    case Clap => assert InstrumentOrder[3] == i;
    case Tom => assert InstrumentOrder[4] == i;
    case Crash => assert InstrumentOrder[5] == i;
  }

  lemma {:induction false} DrumEventsComplete(p: Pattern, k: nat, s: nat, t: real, j: nat, i: Instrument)
    requires j <= |InstrumentOrder|
    requires Active(p.sequence, i, s) && i in InstrumentOrder[..j]
    ensures Event(k, s, t, Drum(i, ParamsOf(p, i)), Offline) in DrumEvents(p, k, s, t, j)
  {
    if InstrumentOrder[j - 1] != i {
      assert i in InstrumentOrder[..j - 1] by {
        assert InstrumentOrder[..j] == InstrumentOrder[..j - 1] + [InstrumentOrder[j - 1]];
      }
      DrumEventsComplete(p, k, s, t, j - 1, i);
    }
  }

  lemma {:induction false} StepsEventsHaveStep(p: Pattern, k: nat, start: real, n: nat, s: nat, e: Event)
    requires s < n
    requires e in StepEvents(p, k, s, start + StepOffset(p, s))
    ensures e in StepsEvents(p, k, start, n)
  {
    var before := StepsEvents(p, k, start, n - 1);
    var last := StepEvents(p, k, n - 1, start + StepOffset(p, n - 1));
    assert StepsEvents(p, k, start, n) == before + last;
    if s < n - 1 {
      StepsEventsHaveStep(p, k, start, n - 1, s, e);
      InLeft(before, last, e);
    } else {
      InRight(before, last, e);
    }
  }

  lemma InLeft<T>(a: seq<T>, b: seq<T>, x: T)
    requires x in a
    ensures x in a + b
  {
  }

  lemma InRight<T>(a: seq<T>, b: seq<T>, x: T)
    requires x in b
    ensures x in a + b
  {
  }

  /** A step's time does not depend on the patterns after it. */
  lemma StepTimePrefix(arr: seq<Pattern>, n: nat, k: nat, s: nat)
    requires k < n <= |arr|
    ensures StepTime(arr[..n], k, s) == StepTime(arr, k, s)
  {
    assert arr[..n][..k] == arr[..k];
  }

  /** The schedule of an arrangement extends the schedule of all but its
      last pattern. */
  lemma InScheduleOfInit(arr: seq<Pattern>, e: Event)
    requires |arr| > 0 && e in Schedule(arr[..|arr| - 1])
    ensures e in Schedule(arr)
  {
    var n := |arr| - 1;
    ScheduleLast(arr);
    InLeft(Schedule(arr[..n]), StepsEvents(arr[n], n, TotalDuration(arr[..n]), StepCount), e);
  }

  /** What a step of the last pattern triggers is in the schedule. */
  lemma InScheduleOfLast(arr: seq<Pattern>, e: Event)
    requires |arr| > 0
    requires e in StepsEvents(arr[|arr| - 1], |arr| - 1, TotalDuration(arr[..|arr| - 1]), StepCount)
    ensures e in Schedule(arr)
  {
  }

  /** Everything a step triggers is in the schedule. */
  lemma {:induction false} ScheduleHasStep(arr: seq<Pattern>, k: nat, s: nat, e: Event)
    requires k < |arr| && s < StepCount
    requires e in StepEvents(arr[k], k, s, StepTime(arr, k, s))
    ensures e in Schedule(arr)
    decreases |arr|
  {
    var n := |arr| - 1;
    if k < n {
      StepTimePrefix(arr, n, k, s);
      ScheduleHasStep(arr[..n], k, s, e);
      InScheduleOfInit(arr, e);
    } else {
      StepsEventsHaveStep(arr[n], n, PatternStart(arr, n), StepCount, s, e);
      InScheduleOfLast(arr, e);
    }
  }

  /** Completeness of the schedule for drums: every drum that is on at a
      step of a pattern yields an event at that step's time. */
  lemma ScheduleHasDrum(arr: seq<Pattern>, k: nat, s: nat, i: Instrument)
    requires k < |arr| && s < StepCount
    requires Active(arr[k].sequence, i, s)
    ensures Event(k, s, StepTime(arr, k, s), Drum(i, ParamsOf(arr[k], i)), Offline) in Schedule(arr)
  {
    var p := arr[k];
    var t := StepTime(arr, k, s);
    var e := Event(k, s, t, Drum(i, ParamsOf(p, i)), Offline);
    InstrumentListed(i);
    assert InstrumentOrder[..|InstrumentOrder|] == InstrumentOrder;
    DrumEventsComplete(p, k, s, t, |InstrumentOrder|, i);
    InLeft(DrumEvents(p, k, s, t, |InstrumentOrder|),
           if ArpTriggers(p, s) then [Event(k, s, t, OfflineArpVoice(p, p.arp.value.pattern[s].value, t), Offline)] else [], e);
    ScheduleHasStep(arr, k, s, e);
  }

  /** Completeness of the schedule for the arpeggiator: every truthy slot
      yields its note at that step's time. */
  lemma ScheduleHasArpNote(arr: seq<Pattern>, k: nat, s: nat)
    requires k < |arr| && s < StepCount
    requires ArpTriggers(arr[k], s)
    ensures
      var t := StepTime(arr, k, s);
      Event(k, s, t, OfflineArpVoice(arr[k], arr[k].arp.value.pattern[s].value, t), Offline) in Schedule(arr)
  {
    var p := arr[k];
    var t := StepTime(arr, k, s);
    var e := Event(k, s, t, OfflineArpVoice(p, p.arp.value.pattern[s].value, t), Offline);
    InRight(DrumEvents(p, k, s, t, |InstrumentOrder|), [e], e);
    ScheduleHasStep(arr, k, s, e);
  }

  // ---------------------------------------------------------------------
  // Concatenation
  // ---------------------------------------------------------------------

  function ShiftVoice(v: Voice, d: real): Voice {
    match v
    case Drum(_, _) => v
    case ArpNote(_, _, _, _, _, _, _, _, _, _) => v.(gainEndTime := v.gainEndTime + d, stopTime := v.stopTime + d)
  }

  /** An event moved `m` patterns and `d` seconds later. */
  function Shift(e: Event, m: nat, d: real): Event {
    e.(pattern := e.pattern + m, time := e.time + d, voice := ShiftVoice(e.voice, d))
  }

  function ShiftAll(es: seq<Event>, m: nat, d: real): (r: seq<Event>)
    ensures |r| == |es|
    ensures forall j :: 0 <= j < |es| ==> r[j] == Shift(es[j], m, d)
  {
    seq(|es|, j requires 0 <= j < |es| => Shift(es[j], m, d))
  }

  lemma ShiftAllAppend(a: seq<Event>, b: seq<Event>, m: nat, d: real)
    ensures ShiftAll(a + b, m, d) == ShiftAll(a, m, d) + ShiftAll(b, m, d)
  {
  }

  lemma {:induction false} DrumEventsShift(p: Pattern, k: nat, s: nat, t: real, j: nat, m: nat, d: real)
    requires j <= |InstrumentOrder|
    ensures DrumEvents(p, k + m, s, t + d, j) == ShiftAll(DrumEvents(p, k, s, t, j), m, d)
  {
    if j > 0 {
      DrumEventsShift(p, k, s, t, j - 1, m, d);
      var i := InstrumentOrder[j - 1];
      var tail := if Active(p.sequence, i, s) then [Event(k, s, t, Drum(i, ParamsOf(p, i)), Offline)] else [];
      ShiftAllAppend(DrumEvents(p, k, s, t, j - 1), tail, m, d);
    }
  }

  lemma StepEventsShift(p: Pattern, k: nat, s: nat, t: real, m: nat, d: real)
    ensures StepEvents(p, k + m, s, t + d) == ShiftAll(StepEvents(p, k, s, t), m, d)
  {
    DrumEventsShift(p, k, s, t, |InstrumentOrder|, m, d);
    var tail := if ArpTriggers(p, s) then [Event(k, s, t, OfflineArpVoice(p, p.arp.value.pattern[s].value, t), Offline)] else [];
    ShiftAllAppend(DrumEvents(p, k, s, t, |InstrumentOrder|), tail, m, d);
  }

  lemma {:induction false} StepsEventsShift(p: Pattern, k: nat, start: real, n: nat, m: nat, d: real)
    ensures StepsEvents(p, k + m, start + d, n) == ShiftAll(StepsEvents(p, k, start, n), m, d)
  {
    if n > 0 {
      StepsEventsShift(p, k, start, n - 1, m, d);
      StepEventsShift(p, k, n - 1, start + StepOffset(p, n - 1), m, d);
      assert start + d + StepOffset(p, n - 1) == start + StepOffset(p, n - 1) + d;
      ShiftAllAppend(StepsEvents(p, k, start, n - 1), StepEvents(p, k, n - 1, start + StepOffset(p, n - 1)), m, d);
    }
  }

  /** The last pattern of an arrangement contributes its steps after the
      schedule of the others, starting where they end. */
  lemma ScheduleLast(arr: seq<Pattern>)
    requires |arr| > 0
    ensures Schedule(arr) == Schedule(arr[..|arr| - 1])
                             + StepsEvents(arr[|arr| - 1], |arr| - 1, TotalDuration(arr[..|arr| - 1]), StepCount)
  {
  }

  /** The sequence algebra of one induction step of `ScheduleAppend`. */
  lemma ShiftStep(whole: seq<Event>, init: seq<Event>, first: seq<Event>, second: seq<Event>,
                  second': seq<Event>, last: seq<Event>, last': seq<Event>, m: nat, d: real)
    requires whole == init + last
    requires init == first + ShiftAll(second', m, d)
    requires second == second' + last'
    requires last == ShiftAll(last', m, d)
    ensures whole == first + ShiftAll(second, m, d)
  {
    ShiftAllAppend(second', last', m, d);
  }

  /** Appending `b` to `a` puts `b`'s last pattern after the schedule of
      `a` and the rest of `b`. */
  lemma ScheduleAppendLast(a: seq<Pattern>, b: seq<Pattern>)
    requires |b| > 0
    ensures Schedule(a + b) == Schedule(a + b[..|b| - 1])
                               + StepsEvents(b[|b| - 1], |a + b[..|b| - 1]|, TotalDuration(a + b[..|b| - 1]), StepCount)
  {
    assert (a + b)[..|a + b| - 1] == a + b[..|b| - 1];
    assert (a + b)[|a + b| - 1] == b[|b| - 1];
    ScheduleLast(a + b);
  }

  /** The steps of a pattern, moved `m` patterns and `d` seconds on, are
      its steps scheduled from the later start. */
  lemma StepsMoved(x: Pattern, k: nat, m: nat, moved: nat, start: real, d: real, later: real)
    requires moved == k + m && later == start + d
    ensures StepsEvents(x, moved, later, StepCount) == ShiftAll(StepsEvents(x, k, start, StepCount), m, d)
  {
    StepsEventsShift(x, k, start, StepCount, m, d);
  }

  /** The steps of `b`'s last pattern, scheduled after `a + b`'s other
      patterns, are its steps within `b` moved past `a`. */
  lemma LastPatternShifted(a: seq<Pattern>, b: seq<Pattern>)
    requires |b| > 0
    ensures StepsEvents(b[|b| - 1], |a + b[..|b| - 1]|, TotalDuration(a + b[..|b| - 1]), StepCount)
         == ShiftAll(StepsEvents(b[|b| - 1], |b| - 1, TotalDuration(b[..|b| - 1]), StepCount), |a|, TotalDuration(a))
  {
    var b' := b[..|b| - 1];
    TotalDurationAppend(a, b');
    StepsMoved(b[|b| - 1], |b| - 1, |a|, |a + b'|, TotalDuration(b'), TotalDuration(a), TotalDuration(a + b'));
  }

  /** Scheduling is associative across pattern boundaries: the schedule of
      two arrangements played back to back is the first one's schedule
      followed by the second one's, moved past the first one's patterns
      and duration. */
  lemma {:induction false} ScheduleAppend(a: seq<Pattern>, b: seq<Pattern>)
    ensures Schedule(a + b) == Schedule(a) + ShiftAll(Schedule(b), |a|, TotalDuration(a))
    decreases |b|
  {
    if |b| == 0 {
      assert a + b == a;
    } else {
      var b' := b[..|b| - 1];
      var x := b[|b| - 1];
      ScheduleAppend(a, b');
      ScheduleAppendLast(a, b);
      ScheduleLast(b);
      LastPatternShifted(a, b);
      ShiftStep(Schedule(a + b), Schedule(a + b'), Schedule(a), Schedule(b), Schedule(b'),
                StepsEvents(x, |a + b'|, TotalDuration(a + b'), StepCount),
                StepsEvents(x, |b'|, TotalDuration(b'), StepCount), |a|, TotalDuration(a));
    }
  }

  // ---------------------------------------------------------------------
  // renderArrangement
  // ---------------------------------------------------------------------

  /** What the offline rendering engine produced: a buffer (or nothing), an
      `error` event carrying an optional message, or no completion within
      30 seconds. */
  datatype RenderOutcome = Completed(buffer: Option<Wav.AudioBuffer>) | Failed(message: string) | TimedOut

  /** Whether the abort flag is found set at one of the per-pattern checks;
      `abortAt` is the first check that sees it set. */
  predicate Aborts(abortAt: Option<nat>, patterns: nat) {
    abortAt.Some? && abortAt.value < patterns
  }

  /** `Math.floor((patternIndex / patterns) * 40)`. */
  function SchedulingProgress(index: nat, patterns: nat): (r: int)
    requires index < patterns
    ensures 0 <= r < 40
    ensures r as real <= (index as real / patterns as real) * 40.0 < r as real + 1.0
    ensures index == 0 ==> r == 0
  {
    ((index as real / patterns as real) * 40.0).Floor
  }

  /** The progress values reported before patterns 0..n-1. */
  function ProgressMarks(n: nat, patterns: nat): (r: seq<int>)
    requires n <= patterns
    ensures |r| == n
    ensures forall j :: 0 <= j < n ==> r[j] == SchedulingProgress(j, patterns)
  {
    seq(n, j requires 0 <= j < n => SchedulingProgress(j, patterns))
  }

  predicate NonDecreasing(xs: seq<int>) {
    forall i, j :: 0 <= i < j < |xs| ==> xs[i] <= xs[j]
  }

  lemma ProgressMarksNonDecreasing(n: nat, patterns: nat)
    requires n <= patterns
    ensures NonDecreasing(ProgressMarks(n, patterns))
  {
    var r := ProgressMarks(n, patterns);
    forall i, j | 0 <= i < j < n
      ensures r[i] <= r[j]
    {
      ProgressMonotone(i, j, patterns);
    }
  }

  /** A later pattern never reports less scheduling progress. */
  lemma ProgressMonotone(i: nat, j: nat, patterns: nat)
    requires i <= j < patterns
    ensures SchedulingProgress(i, patterns) <= SchedulingProgress(j, patterns)
  {
    var d := patterns as real;
    QuotientMonotone(i as real, j as real, d);
    ScaleMonotone(i as real / d, j as real / d, 40.0);
  }

  lemma QuotientMonotone(a: real, b: real, d: real)
    requires a <= b && d > 0.0
    ensures a / d <= b / d
  {
    assert b / d - a / d == (b - a) / d;
    DivNonneg(b - a, d);
  }

  lemma DivNonneg(x: real, d: real)
    requires x >= 0.0 && d > 0.0
    ensures x / d >= 0.0
  {
  }

  lemma ScaleMonotone(x: real, y: real, c: real)
    requires x <= y && c >= 0.0
    ensures x * c <= y * c
  {
    MulNonneg(y - x, c);
    assert (y - x) * c == y * c - x * c;
  }

  /** Appending the fixed milestones 50, 60, 95 and 100 after the
      scheduling marks keeps the progress non-decreasing and in 0..100. */
  lemma ProgressWithMilestones(n: nat, patterns: nat, tail: seq<int>)
    requires n <= patterns
    requires tail in {[], [50, 60], [50, 60, 95], [50, 60, 95, 100]}
    ensures NonDecreasing(ProgressMarks(n, patterns) + tail)
    ensures forall j :: 0 <= j < |ProgressMarks(n, patterns) + tail| ==> 0 <= (ProgressMarks(n, patterns) + tail)[j] <= 100
  {
    ProgressMarksNonDecreasing(n, patterns);
  }

  /** What the render leaves behind besides its result. */
  datatype RenderTrace = RenderTrace(
    totalSamples: int,
    events: seq<Event>,
    progress: seq<int>,
    binding: Binding)

  /** The `reduce` over the arrangement. */
  method ArrangementDuration(arr: seq<Pattern>) returns (total: real)
    ensures total == TotalDuration(arr)
  {
    total := 0.0;
    var k := 0;
    while k < |arr|
      invariant k <= |arr|
      invariant total == TotalDuration(arr[..k])
    {
      assert arr[..k + 1][..k] == arr[..k];
      total := total + StepSeconds(arr[k].tempo) * 16.0;
      k := k + 1;
    }
    assert arr[..|arr|] == arr;
  }

  /** The body of the step loop: each active drum, in key order, then the
      arpeggiator note, each created with the synthesizer bound to the
      offline context and restored right after. */
  method ScheduleStep(p: Pattern, k: nat, step: nat, actualTime: real) returns (events: seq<Event>)
    ensures events == StepEvents(p, k, step, actualTime)
  {
    var binding := Original;
    events := [];
    var j := 0;
    while j < |InstrumentOrder|
      invariant j <= |InstrumentOrder|
      invariant events == DrumEvents(p, k, step, actualTime, j)
      invariant binding == Original
    {
      var sound := InstrumentOrder[j];
      if Active(p.sequence, sound, step) {
        binding := Offline;
        events := events + [Event(k, step, actualTime, Drum(sound, ParamsOf(p, sound)), binding)];
        binding := Original;
      }
      j := j + 1;
    }
    if ArpTriggers(p, step) {
      binding := Offline;
      var note := OfflineArpVoice(p, p.arp.value.pattern[step].value, actualTime);
      events := events + [Event(k, step, actualTime, note, binding)];
      binding := Original;
    }
  }

  /** One turn of the step loop: the step fires at the loop's
      `currentTime + step * stepTime + swingOffset`, which is its offset
      from the pattern start. */
  lemma StepsEventsNext(p: Pattern, k: nat, start: real, n: nat, actualTime: real)
    requires actualTime == start + n as real * StepSeconds(p.tempo) + SwingOffset(p.swing, n, StepSeconds(p.tempo))
    ensures StepsEvents(p, k, start, n + 1) == StepsEvents(p, k, start, n) + StepEvents(p, k, n, actualTime)
  {
    assert actualTime == start + StepOffset(p, n);
  }

  /** The 16 steps of one pattern starting at `currentTime`. */
  method SchedulePattern(p: Pattern, k: nat, currentTime: real) returns (events: seq<Event>)
    ensures events == StepsEvents(p, k, currentTime, StepCount)
  {
    events := [];
    var stepTime := StepSeconds(p.tempo);
    var step := 0;
    while step < StepCount
      invariant step <= StepCount
      invariant events == StepsEvents(p, k, currentTime, step)
    {
      var swingOffset := SwingOffset(p.swing, step, stepTime);
      var actualTime := currentTime + step as real * stepTime + swingOffset;
      StepsEventsNext(p, k, currentTime, step, actualTime);
      var stepEvents := ScheduleStep(p, k, step, actualTime);
      events := events + stepEvents;
      step := step + 1;
    }
  }

  /** One more pattern of the arrangement adds its steps at the running
      time and its length to the running time. */
  lemma PrefixNext(arr: seq<Pattern>, pi: nat)
    requires pi < |arr|
    ensures Schedule(arr[..pi + 1]) == Schedule(arr[..pi]) + StepsEvents(arr[pi], pi, TotalDuration(arr[..pi]), StepCount)
    ensures TotalDuration(arr[..pi + 1]) == TotalDuration(arr[..pi]) + StepSeconds(arr[pi].tempo) * 16.0
  {
    assert arr[..pi + 1][..pi] == arr[..pi];
    assert arr[..pi + 1][pi] == arr[pi];
  }

  lemma ProgressMarksNext(pi: nat, patterns: nat)
    requires pi < patterns
    ensures ProgressMarks(pi + 1, patterns) == ProgressMarks(pi, patterns) + [SchedulingProgress(pi, patterns)]
  {
  }

  /** The pattern loop: checks the abort flag before each pattern, reports
      progress, and schedules the pattern at the running time. Stops at the
      first check that finds the flag set. */
  method ScheduleArrangement(arr: seq<Pattern>, abortAt: Option<nat>)
    returns (events: seq<Event>, progress: seq<int>, aborted: bool)
    ensures aborted == Aborts(abortAt, |arr|)
    ensures aborted ==> events == Schedule(arr[..abortAt.value]) && progress == ProgressMarks(abortAt.value, |arr|)
    ensures !aborted ==> events == Schedule(arr) && progress == ProgressMarks(|arr|, |arr|)
    ensures forall e | e in events :: EventOf(arr, e)
  {
    events := [];
    progress := [];
    var currentTime := 0.0;
    var pi := 0;
    while pi < |arr|
      invariant pi <= |arr|
      invariant currentTime == TotalDuration(arr[..pi])
      invariant events == Schedule(arr[..pi])
      invariant progress == ProgressMarks(pi, |arr|)
      invariant abortAt.Some? ==> pi <= abortAt.value
    {
      if abortAt.Some? && abortAt.value <= pi {
        ScheduleSound(arr[..pi]);
        forall e | e in events
          ensures EventOf(arr, e)
        {
          EventOfPrefix(arr, pi, e);
        }
        return events, progress, true;
      }
      ProgressMarksNext(pi, |arr|);
      progress := progress + [SchedulingProgress(pi, |arr|)];
      var p := arr[pi];
      var patternEvents := SchedulePattern(p, pi, currentTime);
      PrefixNext(arr, pi);
      events := events + patternEvents;
      currentTime := currentTime + StepSeconds(p.tempo) * 16.0;
      pi := pi + 1;
    }
    assert arr[..pi] == arr;
    ScheduleSound(arr);
    aborted := false;
  }

  /** The buffer the offline context of `arr` renders into: two channels
      at 48000 Hz, `TotalSamples(arr)` frames long. */
  predicate ContextShaped(arr: seq<Pattern>, buffer: Option<Wav.AudioBuffer>) {
    && buffer.Some?
    && Wav.Channels(buffer.value) == RenderChannels
    && buffer.value.sampleRate == SampleRate
    && buffer.value.length == TotalSamples(arr)
  }

  /** A buffer of the context's shape encodes to a file whose size and
      header follow from the arrangement alone: 44 bytes of header and four
      bytes per frame, two channels at 48000 Hz. */
  lemma ContextWav(arr: seq<Pattern>, buffer: Option<Wav.AudioBuffer>)
    requires ContextShaped(arr, buffer)
    ensures var r := Wav.AudioBufferToWav(buffer);
      && r.Ok?
      && |r.value| == Wav.HeaderSize + 4 * TotalSamples(arr)
      && r.value[..Wav.HeaderSize] == Wav.Header(RenderChannels, SampleRate, 4 * TotalSamples(arr))
  {
    var b := buffer.value;
    assert b.length * Wav.Channels(b) * Wav.BytesPerSample == 4 * TotalSamples(arr);
  }

  /** Every drum the arrangement plays has parameters. The drum voices
      read their parameters by destructuring their argument, so a played
      drum without parameters throws during scheduling. */
  predicate PlayedDrumsHaveParams(arr: seq<Pattern>) {
    forall k, i, s :: 0 <= k < |arr| && i in arr[k].sequence && 0 <= s < |arr[k].sequence[i]| && Active(arr[k].sequence, i, s)
                      ==> i in arr[k].drumParams
  }

  /** `renderArrangement`: rejects an empty arrangement; otherwise computes
      the context length, schedules the arrangement, then reports the
      engine's outcome, encoding a completed buffer as WAV. The synthesizer
      ends up bound to its original context on every path. */
  method RenderArrangement(arr: seq<Pattern>, abortAt: Option<nat>, outcome: RenderOutcome)
    returns (r: Result<seq<Wav.Byte>>, trace: RenderTrace)
    requires PlayedDrumsHaveParams(arr)
    ensures r.Ok? <==> |arr| > 0 && !Aborts(abortAt, |arr|) && outcome.Completed? && Wav.AudioBufferToWav(outcome.buffer).Ok?
    ensures r.Ok? ==> r == Wav.AudioBufferToWav(outcome.buffer)
    ensures trace.binding == Original
    ensures |arr| == 0 ==> r == Err("No patterns to render") && trace.events == [] && trace.progress == []
    ensures |arr| > 0 ==> trace.totalSamples == TotalSamples(arr)
    ensures forall e | e in trace.events :: EventOf(arr, e)
    ensures |arr| > 0 && Aborts(abortAt, |arr|) ==>
      && r == Err("Rendering aborted")
      && trace.events == Schedule(arr[..abortAt.value])
      && trace.progress == ProgressMarks(abortAt.value, |arr|)
    ensures |arr| > 0 && !Aborts(abortAt, |arr|) ==>
      && trace.events == Schedule(arr)
      && (outcome.TimedOut? ==> r == Err(TimeoutMessage) && trace.progress == ProgressMarks(|arr|, |arr|) + [50, 60])
      && (outcome.Failed? ==> r == Err(outcome.message) && trace.progress == ProgressMarks(|arr|, |arr|) + [50, 60])
      && (outcome.Completed? ==> r == Wav.AudioBufferToWav(outcome.buffer))
      && (outcome.Completed? && r.Ok? ==> trace.progress == ProgressMarks(|arr|, |arr|) + [50, 60, 95, 100])
      && (outcome.Completed? && r.Err? ==> trace.progress == ProgressMarks(|arr|, |arr|) + [50, 60, 95])
      && (outcome.Completed? && ContextShaped(arr, outcome.buffer) ==>
            && r.Ok?
            && |r.value| == Wav.HeaderSize + 4 * TotalSamples(arr)
            && r.value[..Wav.HeaderSize] == Wav.Header(RenderChannels, SampleRate, 4 * TotalSamples(arr)))
    ensures NonDecreasing(trace.progress)
    ensures forall j :: 0 <= j < |trace.progress| ==> 0 <= trace.progress[j] <= 100
  {
    if |arr| == 0 {
      return Err("No patterns to render"), RenderTrace(0, [], [], Original);
    }

    var total := ArrangementDuration(arr);
    var totalSamples := Ceil((total + TailSeconds) * SampleRate as real);

    var events, marks, aborted := ScheduleArrangement(arr, abortAt);
    var binding := Original;
    if aborted {
      ProgressWithMilestones(abortAt.value, |arr|, []);
      assert marks + [] == marks;
      return Err("Rendering aborted"), RenderTrace(totalSamples, events, marks, binding);
    }

    binding := Offline;
    var milestones := [50, 60];
    match outcome {
      case TimedOut =>
        r := Err(TimeoutMessage);
      case Failed(message) =>
        r := Err(message);
      case Completed(buffer) =>
        milestones := [50, 60, 95];
        r := Wav.AudioBufferToWav(buffer);
        if ContextShaped(arr, buffer) {
          ContextWav(arr, buffer);
        }
        if r.Ok? {
          milestones := [50, 60, 95, 100];
        }
    }
    ProgressWithMilestones(|arr|, |arr|, milestones);
    binding := Original;
    trace := RenderTrace(totalSamples, events, marks + milestones, binding);
  }

  // ---------------------------------------------------------------------
  // Where the export differs from live playback
  // ---------------------------------------------------------------------

  /** An arpeggiator slot holding note index 0 plays live but is skipped in
      the export; every other slot is treated the same by both. */
  lemma ArpTriggersVersusLive(p: Pattern, s: nat)
    requires p.arp.Some? && s < |p.arp.value.pattern|
    ensures ArpTriggers(p, s) <==> Arpeggiator.LiveTriggers(true, p.arp.value, s) && p.arp.value.pattern[s] != Some(0)
  {
  }

  lemma BaseNotesAtLeast(i: int)
    requires 0 <= i < |Arpeggiator.BaseNotes|
    ensures Arpeggiator.BaseNotes[i] >= Arpeggiator.BaseNotes[0]
  {
    Arpeggiator.BaseNotesAscending();
  }

  /** The exported note uses the note index itself as its base frequency
      where live playback looks it up in the note table, so every exported
      arpeggiator note is far below the one heard live (under 16 Hz before
      the octave shift). */
  lemma ExportedArpFrequencyBelowLive(p: Pattern, note: int, t: real, now: real)
    requires p.arp.Some? && Arpeggiator.ValidNote(note)
    ensures OfflineArpVoice(p, note, t).frequency < Arpeggiator.PlayNote(p.tempo, p.arp.value, note, now).frequency
  {
    var e := Arpeggiator.Pow2(p.arp.value.octaveShift);
    BaseNotesAtLeast(note);
    assert note as real < Arpeggiator.BaseNotes[note];
    assert note as real * e < Arpeggiator.BaseNotes[note] * e;
  }

  /** The exported echo delay is the delay amount scaled by a beat length,
      the live one is the delay amount in seconds: they agree only without
      delay or at 60 BPM. */
  lemma ExportedDelayVersusLive(p: Pattern, note: int, t: real, now: real)
    requires p.arp.Some? && Arpeggiator.ValidNote(note)
    ensures OfflineArpVoice(p, note, t).delayTime == Arpeggiator.PlayNote(p.tempo, p.arp.value, note, now).delayTime
            <==> p.arp.value.delayAmount == 0.0 || p.tempo == 60
  {
    var d := p.arp.value.delayAmount;
    var b := 60.0 / p.tempo as real;
    if d != 0.0 && d * b == d {
      assert d * b == d * 1.0;
      assert b == 1.0;
    }
  }
}
