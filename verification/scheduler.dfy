/** Live playback and export of an arrangement (src/Arrangement.jsx): a
    look-ahead scheduler that walks the arrangement step by step, the
    play/pause and reset buttons, and the export button that runs the
    offline renderer. The 25 ms interval timer is not modelled: each call
    of `Tick` is one firing of it, with the audio clock passed in. */
module Scheduler {
  import opened Wrappers
  import opened Patterns
  import opened Timing
  import Renderer
  import Wav

  /** How far ahead of the audio clock steps are scheduled, in seconds. */
  const ScheduleAheadTime: real := 0.1

  const NotInitialized: string := "Audio system not initialized"
  const ExportFallback: string := "Failed to export arrangement"

  // ---------------------------------------------------------------------
  // Accumulated step times
  // ---------------------------------------------------------------------

  /** `actualStepTime`: what step `s` of `p` adds to the scheduler's
      running time. The swing delay of an odd step is added to the running
      time, so it also pushes every later step back. */
  function StepAdvance(p: Pattern, s: nat): real {
    StepSeconds(p.tempo) + SwingOffset(p.swing, s, StepSeconds(p.tempo))
  }

  /** The running time after the first `n` steps of a pattern. */
  function LiveSteps(p: Pattern, n: nat): real {
    if n == 0 then 0.0 else LiveSteps(p, n - 1) + StepAdvance(p, n - 1)
  }

  /** After `n` steps the scheduler is `n` whole steps plus one swing delay
      per odd step already played (`n / 2` of them) further on. */
  lemma {:induction false} LiveStepsClosedForm(p: Pattern, n: nat)
    ensures LiveSteps(p, n) == n as real * StepSeconds(p.tempo) + (n / 2) as real * OddStepDelay(p.swing, StepSeconds(p.tempo))
  {
    if n > 0 {
      LiveStepsClosedForm(p, n - 1);
      var d := StepSeconds(p.tempo);
      var o := OddStepDelay(p.swing, d);
      if IsOdd(n - 1) {
        assert n / 2 == (n - 1) / 2 + 1;
        assert SwingOffset(p.swing, n - 1, d) == o;
      } else {
        assert n / 2 == (n - 1) / 2;
      }
    }
  }

  /** A whole pattern lasts 16 steps plus eight swing delays live, where
      the export gives it exactly 16 steps. */
  lemma LivePatternSeconds(p: Pattern)
    ensures LiveSteps(p, StepCount) == Renderer.PatternSeconds(p) + 8.0 * OddStepDelay(p.swing, StepSeconds(p.tempo))
  {
    LiveStepsClosedForm(p, StepCount);
    assert StepCount / 2 == 8;
  }

  /** The running time at the start of pattern `k`. */
  function LiveStart(arr: seq<Pattern>, k: nat): real
    requires k <= |arr|
  {
    if k == 0 then 0.0 else LiveStart(arr, k - 1) + LiveSteps(arr[k - 1], StepCount)
  }

  /** A place in the arrangement: a pattern index and a step within it. */
  datatype Position = Position(pattern: nat, step: StepIndex)

  /** Where the scheduler goes after scheduling `p`: the next step, or the
      first step of the next pattern after step 15. */
  function Next(p: Position): (r: Position)
    ensures r.pattern == p.pattern + (if p.step == 15 then 1 else 0)
  {
    if p.step == 15 then Position(p.pattern + 1, 0) else Position(p.pattern, p.step + 1)
  }

  /** Running time, from the start of the arrangement, at which the
      scheduler reaches position `p`. */
  function LiveOffset(arr: seq<Pattern>, p: Position): real
    requires p.pattern <= |arr|
  {
    LiveStart(arr, p.pattern) + (if p.pattern < |arr| then LiveSteps(arr[p.pattern], p.step) else 0.0)
  }

  /** Scheduling one step moves the running time on by that step's
      `actualStepTime`. */
  lemma LiveOffsetNext(arr: seq<Pattern>, p: Position)
    requires p.pattern < |arr|
    ensures LiveOffset(arr, Next(p)) == LiveOffset(arr, p) + StepAdvance(arr[p.pattern], p.step)
  {
  }

  // ---------------------------------------------------------------------
  // The scheduler
  // ---------------------------------------------------------------------

  /** `schedulerRef.current`: when the next step is due, and which step of
      which pattern it is. */
  datatype Cursor = Cursor(nextStepTime: real, at: Position)

  /** The component state the scheduler and the buttons touch.
      `currentStep` counts the patterns finished (step 15 scheduled) since play was pressed. */
  datatype Transport = Transport(
    playing: bool,
    currentStep: nat,
    currentPatternStep: nat,
    cursor: Cursor,
    error: Option<string>)

  const Home: Cursor := Cursor(0.0, Position(0, 0))

  /** `handleReset`: stop, rewind the counters and the cursor; an export
      error on screen stays. */
  function Reset(t: Transport): (r: Transport)
    ensures !r.playing && r.currentStep == 0 && r.currentPatternStep == 0
    ensures r.cursor.nextStepTime == 0.0 && r.cursor.at == Position(0, 0)
    ensures r.error == t.error
  {
    t.(playing := false, currentStep := 0, currentPatternStep := 0, cursor := Home)
  }

  /** `handlePlayPause` at audio time `now`. Without an audio context and
      synthesizer it only shows an error. Starting rewinds to the first
      step of the first pattern, due now; pausing leaves the cursor where
      it is. */
  function PlayPause(t: Transport, audioReady: bool, now: real): (r: Transport)
    ensures !audioReady ==> r == t.(error := Some(NotInitialized))
    ensures audioReady ==> r.playing == !t.playing && r.error == t.error
    ensures audioReady && !t.playing ==>
      r.cursor == Cursor(now, Position(0, 0)) && r.currentStep == 0 && r.currentPatternStep == 0
    ensures audioReady && t.playing ==> r == t.(playing := false)
  {
    if !audioReady then t.(error := Some(NotInitialized))
    else if !t.playing then
      t.(playing := true, currentStep := 0, currentPatternStep := 0, cursor := Cursor(now, Position(0, 0)))
    else t.(playing := false)
  }

  /** Pausing and pressing play again does not resume: playback restarts
      from the top of the arrangement. */
  lemma PauseThenPlayRestarts(t: Transport, now: real)
    requires t.playing
    ensures PlayPause(PlayPause(t, true, now), true, now).cursor == Cursor(now, Position(0, 0))
    ensures PlayPause(PlayPause(t, true, now), true, now).playing
  {
  }

  /** Positions scheduled one after the other, starting at `from`. */
  ghost predicate Walk(ps: seq<Position>, from: Position) {
    && (|ps| > 0 ==> ps[0] == from)
    && (forall j :: 0 <= j < |ps| - 1 ==> ps[j + 1] == Next(ps[j]))
  }

  /** A walk extends by the position the cursor reached. */
  lemma WalkExtends(ps: seq<Position>, from: Position, at: Position)
    requires Walk(ps, from)
    requires |ps| == 0 ==> at == from
    requires |ps| > 0 ==> Next(ps[|ps| - 1]) == at
    ensures Walk(ps + [at], from)
  {
    var ext := ps + [at];
    forall j | 0 <= j < |ext| - 1
      ensures ext[j + 1] == Next(ext[j])
    {
      if j < |ps| - 1 {
        assert ext[j + 1] == ps[j + 1];
      }
    }
  }

  function Steps(from: Position, n: nat): Position {
    if n == 0 then from else Next(Steps(from, n - 1))
  }

  /** One firing of the scheduler interval at audio time `now`: while the
      next step is due before `now + 0.1`, schedule it and move on; when the
      cursor has run past the last pattern, reset instead. `played` lists
      the positions scheduled, in order. The interval only runs while
      playing with the audio system ready. */
  method Tick(arr: seq<Pattern>, t: Transport, audioReady: bool, now: real)
    returns (r: Transport, played: seq<Position>)
    ensures !(t.playing && audioReady) ==> r == t && played == []
    ensures t.playing && audioReady ==> Walk(played, t.cursor.at)
    ensures forall j :: 0 <= j < |played| ==> played[j].pattern < |arr|
    ensures r.error == t.error
    ensures t.playing && audioReady && r.playing ==>
      && r.cursor.nextStepTime >= now + ScheduleAheadTime
      && r.cursor.at == Steps(t.cursor.at, |played|)
      && r.currentStep == t.currentStep + (r.cursor.at.pattern - t.cursor.at.pattern)
      && (|played| > 0 ==> r.currentPatternStep == played[|played| - 1].step)
    ensures t.playing && audioReady && !r.playing ==>
      r == Reset(t) && Steps(t.cursor.at, |played|).pattern >= |arr|
    ensures t.playing && audioReady && t.cursor.at.pattern <= |arr| ==>
      forall j :: 0 <= j < |played| ==>
        t.cursor.nextStepTime + (LiveOffset(arr, played[j]) - LiveOffset(arr, t.cursor.at)) < now + ScheduleAheadTime
    ensures t.playing && audioReady && r.playing && t.cursor.at.pattern <= |arr| ==>
      && r.cursor.at.pattern <= |arr|
      && r.cursor.nextStepTime - LiveOffset(arr, r.cursor.at) == t.cursor.nextStepTime - LiveOffset(arr, t.cursor.at)
  {
    r := t;
    played := [];
    if !(t.playing && audioReady) {
      return;
    }
    while r.cursor.nextStepTime < now + ScheduleAheadTime
      invariant r.playing && r.error == t.error
      invariant Walk(played, t.cursor.at) && r.cursor.at == Steps(t.cursor.at, |played|)
      invariant |played| > 0 ==> Next(played[|played| - 1]) == r.cursor.at
      invariant forall j :: 0 <= j < |played| ==> played[j].pattern < |arr|
      invariant r.currentStep == t.currentStep + (r.cursor.at.pattern - t.cursor.at.pattern)
      invariant r.cursor.at.pattern >= t.cursor.at.pattern
      invariant |played| > 0 ==> r.currentPatternStep == played[|played| - 1].step
      invariant t.cursor.at.pattern <= |arr| ==> r.cursor.at.pattern <= |arr|
      invariant t.cursor.at.pattern <= |arr| ==>
        r.cursor.nextStepTime - LiveOffset(arr, r.cursor.at) == t.cursor.nextStepTime - LiveOffset(arr, t.cursor.at)
      invariant t.cursor.at.pattern <= |arr| ==>
        forall j :: 0 <= j < |played| ==>
          t.cursor.nextStepTime + (LiveOffset(arr, played[j]) - LiveOffset(arr, t.cursor.at)) < now + ScheduleAheadTime
      decreases if r.cursor.at.pattern < |arr| then (|arr| - r.cursor.at.pattern) * 16 - r.cursor.at.step else 0
    {
      var at := r.cursor.at;
      if at.pattern >= |arr| {
        r := Reset(t);
        return;
      }
      var stepTime := StepAdvance(arr[at.pattern], at.step);
      WalkExtends(played, t.cursor.at, at);
      played := played + [at];
      LiveOffsetNext(arr, at);
      var next := Next(at);
      r := r.(currentPatternStep := at.step,
              cursor := Cursor(r.cursor.nextStepTime + stepTime, next),
              currentStep := if at.step == 15 then r.currentStep + 1 else r.currentStep);
    }
  }

  // ---------------------------------------------------------------------
  // Live playback against the export
  // ---------------------------------------------------------------------

  lemma {:induction false} StraightStartsAgree(arr: seq<Pattern>, k: nat)
    requires k <= |arr|
    requires forall j :: 0 <= j < |arr| ==> arr[j].swing == 0
    ensures LiveStart(arr, k) == Renderer.PatternStart(arr, k)
  {
    if k > 0 {
      StraightStartsAgree(arr, k - 1);
      LivePatternSeconds(arr[k - 1]);
      Renderer.NextPatternStart(arr, k - 1);
    }
  }

  /** The live scheduler's nominal step times (its `nextStepTime`) agree
      with the export's step times at every step exactly when no pattern
      swings. With swing, the live scheduler accumulates each odd step's
      delay while the export applies it to that step alone, so some
      nominal step time differs from the export's. */
  lemma LiveMatchesExportIffNoSwing(arr: seq<Pattern>)
    ensures (forall k, s :: 0 <= k < |arr| && 0 <= s < StepCount ==>
               LiveOffset(arr, Position(k, s)) == Renderer.StepTime(arr, k, s))
            <==> (forall k :: 0 <= k < |arr| ==> arr[k].swing == 0)
  {
    if forall k :: 0 <= k < |arr| ==> arr[k].swing == 0 {
      StraightMatches(arr);
    } else {
      var k :| 0 <= k < |arr| && arr[k].swing != 0;
      SwungPatternMisplaced(arr, k);
    }
  }

  /** Without swing every live step falls where the export puts it. */
  lemma StraightMatches(arr: seq<Pattern>)
    requires forall k :: 0 <= k < |arr| ==> arr[k].swing == 0
    ensures forall k, s :: 0 <= k < |arr| && 0 <= s < StepCount ==>
              LiveOffset(arr, Position(k, s)) == Renderer.StepTime(arr, k, s)
  {
    forall k, s | 0 <= k < |arr| && 0 <= s < StepCount
      ensures LiveOffset(arr, Position(k, s)) == Renderer.StepTime(arr, k, s)
    {
      StraightStepMatches(arr, k, s);
    }
  }

  lemma StraightStepMatches(arr: seq<Pattern>, k: nat, s: StepIndex)
    requires k < |arr| && arr[k].swing == 0
    requires forall j :: 0 <= j < |arr| ==> arr[j].swing == 0
    ensures LiveOffset(arr, Position(k, s)) == Renderer.StepTime(arr, k, s)
  {
    StraightStartsAgree(arr, k);
    StraightSteps(arr[k], s);
  }

  /** Without swing a pattern's running time after `s` steps is the
      export's offset of step `s`. */
  lemma StraightSteps(p: Pattern, s: nat)
    requires p.swing == 0
    ensures LiveSteps(p, s) == Renderer.StepOffset(p, s)
  {
    LiveStepsClosedForm(p, s);
    ZeroDelay(p.tempo, (s / 2) as real);
  }

  lemma ZeroDelay(tempo: Tempo, h: real)
    ensures h * OddStepDelay(0, StepSeconds(tempo)) == 0.0
  {
    assert OddStepDelay(0, StepSeconds(tempo)) == 0.0 * (StepSeconds(tempo) * SwingFactor);
  }

  /** A swung pattern has a step the live player misplaces: its first step
      if it starts late already, else its third, which live playback
      delays by the swing of the second. */
  lemma SwungPatternMisplaced(arr: seq<Pattern>, k: nat)
    requires k < |arr| && arr[k].swing != 0
    ensures || LiveOffset(arr, Position(k, 0)) != Renderer.StepTime(arr, k, 0)
            || LiveOffset(arr, Position(k, 2)) != Renderer.StepTime(arr, k, 2)
  {
    var p := arr[k];
    var d := StepSeconds(p.tempo);
    var start := Renderer.PatternStart(arr, k);
    assert Renderer.StepTime(arr, k, 0) == start + Renderer.StepOffset(p, 0);
    assert Renderer.StepOffset(p, 0) == 0.0;
    assert Renderer.StepTime(arr, k, 2) == start + Renderer.StepOffset(p, 2);
    assert Renderer.StepOffset(p, 2) == 2.0 * d;
    assert LiveSteps(p, 1) == d;
    assert LiveSteps(p, 2) == 2.0 * d + SwingOffset(p.swing, 1, d);
    assert SwingOffset(p.swing, 1, d) > 0.0;
  }

  // ---------------------------------------------------------------------
  // Export
  // ---------------------------------------------------------------------

  /** Whether the audio context and synthesizer exist, and whether the
      context is suspended. */
  datatype AudioSystem = AudioSystem(hasContext: bool, hasSynthesizer: bool, suspended: bool)

  /** `validateAudioSystem`: the first missing piece, in this order. */
  function ValidateAudioSystem(a: AudioSystem): (r: Outcome)
    ensures r.Pass? <==> a.hasContext && a.hasSynthesizer && !a.suspended
    ensures !a.hasContext ==> r == Fail("Audio context not initialized")
    ensures a.hasContext && !a.hasSynthesizer ==> r == Fail("Synthesizer not initialized")
    ensures a.hasContext && a.hasSynthesizer && a.suspended ==> r == Fail("Audio context is suspended")
  {
    if !a.hasContext then Fail("Audio context not initialized")
    else if !a.hasSynthesizer then Fail("Synthesizer not initialized")
    else if a.suspended then Fail("Audio context is suspended")
    else Pass
  }

  /** `toISOString().replace(/[:.]/g, '-')`. */
  function Sanitize(s: string): (r: string)
    ensures |r| == |s|
    ensures forall k :: 0 <= k < |s| ==> r[k] == (if s[k] == ':' || s[k] == '.' then '-' else s[k])
    ensures forall k :: 0 <= k < |r| ==> r[k] != ':' && r[k] != '.'
  {
    seq(|s|, k requires 0 <= k < |s| => if s[k] == ':' || s[k] == '.' then '-' else s[k])
  }

  const FilePrefix: string := "drumsmith-arrangement-"
  const FileSuffix: string := ".wav"

  /** The download name for an export started at `timestamp`. */
  function FileName(timestamp: string): (r: string)
    ensures |r| == |FilePrefix| + |timestamp| + |FileSuffix|
    ensures r[..|FilePrefix|] == FilePrefix && r[|r| - |FileSuffix|..] == FileSuffix
    ensures r[|FilePrefix|..|r| - |FileSuffix|] == Sanitize(timestamp)
  {
    FilePrefix + Sanitize(timestamp) + FileSuffix
  }

  /** The message shown for a failed export: the error's message, or a
      fallback when it has none. */
  function ExportMessage(message: string): (r: string)
    ensures |r| > 0
    ensures message != "" ==> r == message
  {
    if message == "" then ExportFallback else message
  }

  datatype Download = Download(fileName: string, wav: seq<Wav.Byte>)

  /** `handleExport`: refuses an empty arrangement, validates the audio
      system, renders with a renderer of its own, and offers the WAV for
      download under a timestamped name; any failure becomes the message
      on screen. Nothing calls `abort()` on that renderer, so the render
      it starts is never aborted. */
  method HandleExport(arr: seq<Pattern>, audio: AudioSystem,
                      outcome: Renderer.RenderOutcome, timestamp: string)
    returns (r: Result<Download>)
    requires Renderer.PlayedDrumsHaveParams(arr)
    ensures |arr| == 0 ==> r == Err("No patterns to export")
    ensures |arr| > 0 && ValidateAudioSystem(audio).Fail? ==> r == Err(ValidateAudioSystem(audio).message)
    ensures r.Err? ==> |r.message| > 0
    ensures |arr| > 0 && ValidateAudioSystem(audio).Pass? ==>
      && (outcome.TimedOut? ==> r == Err(Renderer.TimeoutMessage))
      && (outcome.Failed? ==> r == Err(ExportMessage(outcome.message)))
      && (outcome == Renderer.Completed(None) ==> r == Err("Invalid audio buffer"))
      && (outcome.Completed? && outcome.buffer.Some? && Wav.Channels(outcome.buffer.value) == 0 ==> r == Err("Invalid audio buffer"))
      && (outcome.Completed? && Renderer.ContextShaped(arr, outcome.buffer) ==>
            && r.Ok?
            && |r.value.wav| == Wav.HeaderSize + 4 * Renderer.TotalSamples(arr)
            && r.value.wav[..Wav.HeaderSize]
               == Wav.Header(Renderer.RenderChannels, Renderer.SampleRate, 4 * Renderer.TotalSamples(arr)))
    ensures r.Ok? ==> |arr| > 0 && ValidateAudioSystem(audio).Pass? && outcome.Completed?
                      && r.value.fileName == FileName(timestamp)
                      && Wav.AudioBufferToWav(outcome.buffer) == Ok(r.value.wav)
    ensures (&& |arr| > 0 && ValidateAudioSystem(audio).Pass?
             && outcome.Completed? && Wav.AudioBufferToWav(outcome.buffer).Ok?) ==> r.Ok?
  {
    if |arr| == 0 {
      return Err("No patterns to export");
    }
    var valid := ValidateAudioSystem(audio);
    if valid.Fail? {
      return Err(ExportMessage(valid.message));
    }
    var rendered, _ := Renderer.RenderArrangement(arr, None, outcome);
    match rendered {
      case Err(message) =>
        r := Err(ExportMessage(message));
      case Ok(wav) =>
        r := Ok(Download(FileName(timestamp), wav));
    }
  }
}
