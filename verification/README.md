# Drumsmith core in Dafny

This project models the deterministic core of Drumsmith, a browser drum machine. It has a 16-step grid of six drum voices, an arpeggiator track, an 8-slot pattern bank and an arrangement of saved patterns. An arrangement can be played live or exported as a 16-bit PCM WAV file. The model covers these parts:

- **Timing.** The tempo and swing arithmetic of three players:
  - the offline renderer, which exports an arrangement (`renderer.dfy`);
  - the live arrangement scheduler, with its 0.1 s lookahead (`scheduler.dfy`);
  - the single-pattern live clock of the sequencer (`liveclock.dfy`).

  All three compute a sixteenth-note step as `(60 / tempo) / 4` and push odd steps back by `(swing / 100) * (step * 0.66667)`. The constant is the literal 0.66667, not 2/3. Time is an exact `real` (`timing.dfy`).
- **The renderer's event schedule.** The render becomes a list of trigger events, each with the pattern, step, time and voice parameters it was created for. The model proves it sound, complete and compositional over concatenated arrangements. It also models:
  - the render length in samples;
  - the progress reports;
  - the abort, failure and timeout paths;
  - the binding of the synthesizer's context. During scheduling it is bound to the offline context only while a voice is created, and each event records that binding. It is bound to the offline context again from the start of rendering through the WAV encoding. On every path it ends bound to its original context.
- **The WAV encoder** (`wav.dfy`). It writes the canonical 44-byte RIFF/WAVE header followed by interleaved, clamped, little-endian int16 samples. A reference reader recovers channels, sample rate and samples from the output.
- **Editing** (`edits.dfy`, `bank.dfy`, `arpeggiator.dfy`):
  - step toggles and drum-parameter changes;
  - arrangement add, move, copy and delete;
  - the sparse 8-slot bank, where delete leaves a hole, and its 8-slot view;
  - arpeggiator note editing with wrap-around, and the octave and note-length clamps.

`patterns.dfy` holds the shared data model:
- instruments;
- the step grid as a map from instrument to a row of booleans;
- drum parameters as nested maps;
- the arpeggiator state;
- patterns, with tempo restricted to 60..180 and swing to 0..100 as in the sliders.

`wrappers.dfy` holds `Option`, `Result` and `Outcome`.

## How the players differ

The three players do not agree once swing is non-zero, and the model states each one as written:

- **Offline renderer.** It places step `s` of a pattern at `start + s·step + swing offset`, so an odd step is delayed and the next even step is back on the grid. Every pattern lasts exactly `16·step`.
- **Live arrangement scheduler.** It adds `step + swing offset` to a running `nextStepTime` after each step, so the delay accumulates. A pattern lasts `16·step + 8·offset`. `Scheduler.LiveMatchesExportIffNoSwing` proves that its nominal step times agree with the export's at every step iff no pattern swings.
- **Live sequencer clock.** It starts its first timeout with the plain step length. After a reset the first step it sounds is step 1, not step 0. After each step it waits the plain length plus the swing offset of the step it just played, so the wait after an odd step is the long one. `LiveClock.SwingFollowsOddStep` shows that this wait is the one that stretches. The offline renderer instead delays the odd step itself.
- **Arpeggiator note in the export.** It differs from the live one in three ways:
  - it uses the slot's note index itself as the base frequency, not the note table;
  - it skips note index 0, because 0 is falsy;
  - its echo delay is `delayAmount·60/tempo` rather than `delayAmount`.

## Model

| member | source | states |
|---|---|---|
| Timing.StepSeconds | src/AudioRenderer.jsx:21 | A step lasts 15/tempo seconds, which lies between 1/12 s and 1/4 s for tempos 60..180 |
| Timing.SwingOffset | src/AudioRenderer.jsx:58-59 | The swing delay is zero exactly on even steps or at zero swing, and is below one step |
| Renderer.PatternSeconds | src/AudioRenderer.jsx:20-24 | A pattern lasts 240/tempo seconds, between 4/3 s and 4 s |
| Renderer.TotalDurationAppend | src/AudioRenderer.jsx:20-24 | The total duration of two arrangements played in sequence is the sum of their durations |
| Renderer.NextPatternStart | src/AudioRenderer.jsx:41-60 | Pattern k+1 starts exactly 16 steps of pattern k after pattern k, with no gap or overlap |
| Renderer.TotalSamples | src/AudioRenderer.jsx:26-34 | The render length is the least whole number of samples covering the duration plus 2 s at 48000 Hz, and is at least 96000 |
| Renderer.StepOffsetIncreasing | src/AudioRenderer.jsx:53-60 | Steps within a pattern fire in strictly increasing time even with full swing |
| Renderer.StepBeforeNextPattern | src/AudioRenderer.jsx:53-60 | Every step of a pattern, swung or not, fires before the next pattern starts |
| Renderer.Scenario120Bpm | src/AudioRenderer.jsx:53-60 | At 120 BPM without swing, steps 0, 4, 8 and 12 fall at 0, 0.5, 1.0 and 1.5 s. At swing 50, step 1 falls at 0.166666875 s. One pattern renders 192000 samples |
| Renderer.OfflineArpVoice | src/AudioRenderer.jsx:113-151 | An exported arpeggiator note has frequency index·2^octave, gain from 0.3 to 0.001 at noteLength steps, stops 2·delayAmount later, and has delay delayAmount·60/tempo |
| Renderer.ScheduleSound | src/AudioRenderer.jsx:41-159 | Every scheduled event is an active drum or a truthy arpeggiator slot of a real step, fired at that step's time while the offline context was bound |
| Renderer.ScheduleHasStep | src/AudioRenderer.jsx:41-159 | Everything one step of one pattern triggers appears in the schedule of the whole arrangement |
| Renderer.ScheduleHasDrum | src/AudioRenderer.jsx:61-100 | Every drum that is on at a step yields an event at that step's time, carrying the pattern's parameters for that drum, or none when the pattern has none for it |
| Renderer.ScheduleHasArpNote | src/AudioRenderer.jsx:102-152 | Every truthy arpeggiator slot yields its note at that step's time |
| Renderer.ScheduleAppend | src/AudioRenderer.jsx:41-159 | The schedule of two arrangements in sequence is the first's events followed by the second's, shifted by the first's pattern count and duration |
| Renderer.SchedulingProgress | src/AudioRenderer.jsx:51 | The progress reported before pattern i of n is the floor of i/n·40: the largest integer not above it, 0 for the first pattern and always within 0..39 |
| Renderer.ScheduleStep | src/AudioRenderer.jsx:58-155 | One step produces exactly the reference step events: each active drum in instrument order, then the arpeggiator note when the slot is truthy, all at the step's actual time and each created while bound to the offline context |
| Renderer.SchedulePattern | src/AudioRenderer.jsx:52-157 | The 16-step loop produces exactly the reference events of the pattern at its start time, step by step in order |
| Renderer.ProgressWithMilestones | src/AudioRenderer.jsx:51 | The per-pattern progress values followed by the milestones 50, 60, 95 and 100 never decrease and stay within 0..100 |
| Renderer.ArrangementDuration | src/AudioRenderer.jsx:20-24 | The reduce over the arrangement computes the total duration |
| Renderer.ScheduleArrangement | src/AudioRenderer.jsx:41-160 | The scheduling loop checks the abort flag before each pattern, reports progress, and emits the schedule of the patterns reached |
| Renderer.RenderArrangement | src/AudioRenderer.jsx:12-217 | Covers every path of the render. An empty arrangement fails with "No patterns to render" and schedules nothing. An abort fails with "Rendering aborted" after the earlier patterns. A timeout fails with the 30-second message. A rendering error is passed on. Otherwise the WAV of the rendered buffer is returned. The render succeeds exactly when the arrangement is non-empty, is not aborted, completes, and encodes. When the engine hands back a buffer of the offline context's shape (2 channels, 48000 Hz, TotalSamples frames), the render succeeds with a file of 44 + 4·TotalSamples bytes whose header says 2 channels at 48000 Hz. The synthesizer always ends bound to its original context, and progress never decreases. Every drum the arrangement plays must carry parameters |
| Renderer.ContextWav | src/AudioRenderer.jsx:27-34 | A buffer of the offline context's shape encodes to 44 + 4·TotalSamples(arr) bytes whose header says 2 channels at 48000 Hz: the exported file's size and header follow from the arrangement alone |
| Renderer.ArpTriggersVersusLive | src/AudioRenderer.jsx:103 | An arpeggiator slot is rendered iff it would play live and is not note index 0 |
| Renderer.ExportedArpFrequencyBelowLive | src/AudioRenderer.jsx:115-120 | The exported note's frequency is always below the live frequency of the same note |
| Renderer.ExportedDelayVersusLive | src/AudioRenderer.jsx:133-136 | The exported echo delay equals the live one iff the delay amount is 0 or the tempo is 60 |
| Wav.U32LE | src/AudioRenderer.jsx:249-260 | Four bytes that decode little-endian to the value mod 2^32 |
| Wav.I16LE | src/AudioRenderer.jsx:274 | Two bytes that decode as a little-endian signed 16-bit integer to the value |
| Wav.Quantize | src/AudioRenderer.jsx:273-274 | The sample is clamped to [-1, 1] and scaled asymmetrically. The result is in [-32768, 32767], saturates at both ends, and is non-negative iff the input is above -1/32768 |
| Wav.QuantizeMonotonic | src/AudioRenderer.jsx:273-274 | Quantization preserves order |
| Wav.AudioBufferToWav | src/AudioRenderer.jsx:225-284 | A missing or channel-less buffer fails with "Invalid audio buffer". Otherwise the output is exactly 44 + frames·channels·2 bytes: the header, then the interleaved samples |
| Wav.Header | src/AudioRenderer.jsx:235-236 | The header is always 44 bytes, the fixed part of the file length 44 + dataLength |
| Wav.HeaderFields | src/AudioRenderer.jsx:248-260 | For any channel count, rate and data length, the header holds RIFF, 36+dataLength, WAVE, "fmt ", 16, 1, channels, sample rate, byte rate and block align, 16, "data" and dataLength, each at its offset, as little-endian values modulo their width |
| Wav.HeaderLayout | src/AudioRenderer.jsx:248-260 | The header holds, at fixed offsets: RIFF, 36+dataLength, WAVE, "fmt ", 16, 1, channels, sample rate, byte rate, block align, 16, "data", dataLength |
| Wav.SampleLayout | src/AudioRenderer.jsx:262-277 | Sample c of frame i is the int16 at byte 44 + 2·(i·channels + c) |
| Wav.RoundTrip | src/AudioRenderer.jsx:225-284 | A reader recovers the channel count, the sample rate and the quantized interleaved samples from the encoding |
| Wav.SilenceRoundTrip | src/AudioRenderer.jsx:26-34 | A silent stereo render of n frames encodes to 44 + 4n bytes that read back as 2n zero samples at 48000 Hz |
| Scheduler.LiveStepsClosedForm | src/Arrangement.jsx:53-56 | n live steps advance the clock by n·step plus one swing offset per odd step passed |
| Scheduler.LivePatternSeconds | src/Arrangement.jsx:108 | A live pattern lasts its exported length plus 8 swing offsets |
| Scheduler.LiveOffsetNext | src/Arrangement.jsx:107-116 | Handling a step moves its nominal time forward by the step length plus that step's swing offset |
| Scheduler.Reset | src/Arrangement.jsx:146-156 | Reset stops playback and zeroes the step counters, the cursor and nextStepTime |
| Scheduler.PlayPause | src/Arrangement.jsx:127-144 | Without an audio system it sets "Audio system not initialized" and changes nothing else. From stopped it restarts at (now, pattern 0, step 0) with zero counters. From playing it only stops |
| Scheduler.PauseThenPlayRestarts | src/Arrangement.jsx:133-143 | Pausing and playing again restarts from the beginning at the current time |
| Scheduler.Tick | src/Arrangement.jsx:92-119 | Plays consecutive positions while they are due within the 0.1 s lookahead. It resets when it runs past the last pattern, and otherwise leaves nextStepTime beyond now + 0.1. It keeps nextStepTime at the start time plus the live offset of its position, and counts each finished pattern |
| Scheduler.StraightStartsAgree | src/Arrangement.jsx:108 | Without swing, live pattern starts equal the exported ones |
| Scheduler.LiveMatchesExportIffNoSwing | src/Arrangement.jsx:53-56 | The live scheduler's nominal step times (its nextStepTime) and the exported step times agree at every step iff every pattern has zero swing |
| Scheduler.SwungPatternMisplaced | src/Arrangement.jsx:53-56 | In a swung pattern live playback misplaces its first step or its third, which it delays by the second step's swing |
| Scheduler.ValidateAudioSystem | src/Arrangement.jsx:158-168 | Passes iff there is a running context and a synthesizer, and otherwise names the first missing piece |
| Scheduler.ExportMessage | src/Arrangement.jsx:216 | The message shown for a failed export is never empty: the error's own message when it has one, otherwise "Failed to export arrangement" |
| Scheduler.Sanitize | src/Arrangement.jsx:201 | Every ':' and '.' of the timestamp becomes '-', nothing else changes, and none remain |
| Scheduler.FileName | src/Arrangement.jsx:201-207 | The download name is "drumsmith-arrangement-", the sanitised timestamp, then ".wav" |
| Scheduler.HandleExport | src/Arrangement.jsx:170-221 | An empty arrangement fails with "No patterns to export" and a broken audio system with its message, both before rendering. It renders with a renderer of its own that nothing aborts. After that, a timeout the 30-second message, an engine error its message or "Failed to export arrangement" when it has none, and a missing or channel-less buffer "Invalid audio buffer". Every failure message is non-empty. Success downloads the rendered WAV under FileName, and a buffer of the offline context's shape always succeeds with 44 + 4·TotalSamples bytes and a 2-channel, 48000 Hz header |
| LiveClock.NextStep | src/App.jsx:575 | The next step is one more, wrapping from 15 to 0 |
| LiveClock.DelayAfter | src/App.jsx:578-594 | The wait is never below the plain step length, and equals it iff the step is even or swing is 0 |
| LiveClock.Fire | src/App.jsx:572-600 | One timeout moves one step on, wrapping from 15 to 0, sounds exactly the instruments whose row is on at that step, and arms a wait of one base step plus the odd-step swing delay when the new step is odd |
| LiveClock.FiringsAreFires | src/App.jsx:572-603 | The firing chain is Fire iterated: firing j lands on the step Fire takes the previously active step to, sounds what Fire sounds there, and firing j + 1 follows after the delay Fire arms |
| LiveClock.WaitsClosedForm | src/App.jsx:568-594 | n waits of the live clock add up to n base steps plus one swing delay for each of the n / 2 odd steps among them |
| LiveClock.StepOfFiringClosedForm | src/App.jsx:575 | The j-th firing after step `start` plays step (start + j + 1) mod 16 |
| LiveClock.FiringTimeFromReset | src/App.jsx:568-605 | After a reset, firing j happens after the waits following steps 0..j: j+1 plain waits plus one swing offset per odd step among them |
| LiveClock.SwingFollowsOddStep | src/App.jsx:578-598 | With swing, the first step fires after one plain wait, the wait after step 1 is longer, and the wait after step 2 is plain |
| LiveClock.SixteenFiringsComeBack | src/App.jsx:575 | Sixteen firings bring the clock back to the step it started from |
| LiveClock.BarLength | src/App.jsx:568-605 | Sixteen firings after a reset take exactly as long, in milliseconds, as one pattern played by the live arrangement scheduler |
| Edits.ToggleStep | src/App.jsx:627-634 | Exactly the chosen step of the chosen instrument flips; its row length and all other rows are unchanged |
| Edits.ToggleTwice | src/App.jsx:627-634 | Toggling the same step twice restores the grid |
| Edits.ToggleKeepsShape | src/App.jsx:627-634 | A grid with six 16-step rows keeps that shape |
| Edits.SetDrumParam | src/App.jsx:617-625 | Sets exactly one parameter of one instrument and keeps every other parameter and instrument |
| Edits.SetDrumParamLastWins | src/App.jsx:617-625 | Of two changes to the same knob the last one wins |
| Edits.SetDrumParamCommutes | src/App.jsx:617-625 | Changes to different knobs commute |
| Edits.Add | src/App.jsx:515-517 | Appends the pattern, keeping everything before it |
| Edits.Move | src/App.jsx:521-531 | An in-range move takes the element out and puts it back at from+direction, keeping length and contents as a multiset. An out-of-range move changes nothing |
| Edits.MoveBack | src/App.jsx:521-531 | Moving back by the opposite direction undoes a move |
| Edits.MoveOneSwaps | src/App.jsx:521-531 | A move by one place swaps two neighbours |
| Edits.Copy | src/App.jsx:533-544 | Inserts a renamed copy with a fresh id after the index, or at the end when the index is the last or beyond it |
| Edits.Delete | src/App.jsx:547-549 | Removes exactly the element at an in-range index, keeping the order of the rest; other indices change nothing |
| Edits.DeleteCopy | src/App.jsx:533-549 | Deleting the copy just made restores the arrangement |
| Bank.Load | src/App.jsx:442-449 | The editor takes the pattern's tempo, swing, sequence, drum parameters and arpeggiator state; the step reset that follows is in Bank.PlayPattern |
| Bank.StopPattern | src/App.jsx:689-692 | Nothing plays afterwards, and the bank, the editor and the step shown are unchanged |
| Bank.Dispatch | src/App.jsx:683-694 | The panel's callbacks: only play changes the editor and the step; only save and delete change the bank; play of another pattern loads it and plays it, stop or play of the playing pattern stops; saving fills the chosen slot with the editor's snapshot and leaves the player alone; delete empties the slot holding the id |
| Bank.LoadSnapshot | src/App.jsx:405-449 | Loading a saved pattern restores the editor state it was saved from |
| Bank.SaveCurrent | src/App.jsx:405-422 | With 8 or more entries, counting holes, it alerts and changes nothing. Otherwise it appends the editor state named by the new length |
| Bank.SaveCurrentCount | src/App.jsx:405-422 | Saving keeps the bank within 8 entries and adds one occupied slot when it succeeds |
| Bank.SaveToSlot | src/App.jsx:424-440 | Overwrites exactly slot i with the editor state named i+1, padding with holes when i is past the end |
| Bank.FindId | src/App.jsx:489 | Finds the first slot holding the id, or reports that none does |
| Bank.DeletePattern | src/App.jsx:486-502 | Empties the first slot with that id without compacting. An unknown id changes nothing. Deleting the playing pattern stops playback |
| Bank.DeleteCount | src/App.jsx:486-497 | A delete frees exactly one occupied slot, or none for an unknown id |
| Bank.DeleteDoesNotMakeRoom | src/App.jsx:405-408 | Once the array has 8 entries a delete leaves a hole, and saving still reports the bank full |
| Bank.PlayPattern | src/App.jsx:504-513 | Playing the playing pattern stops it. Any other pattern is loaded into the editor and played |
| Bank.View | src/PatternBank.jsx:26-40 | A slot shows as empty exactly when it holds no pattern, and then its save button targets its own index. A filled slot shows its pattern and the 16 kick steps, marks swing iff the swing is above 0, shows as playing iff its id is the playing id, and its delete button targets its id |
| Bank.SlotViews | src/PatternBank.jsx:26-40 | Exactly 8 slots are shown. Slot i shows pattern i, or an empty slot whose save button targets i |
| Bank.DisplayedCountMatchesSlots | src/PatternBank.jsx:21 | The displayed count is the number of occupied slots among the 8 shown |
| Bank.BannerWithHole | src/PatternBank.jsx:127-131 | After a delete from a full bank, the full banner still shows while the count reads 7 |
| Bank.PlayButtonToggles | src/PatternBank.jsx:69 | A slot's play button stops its pattern if it is playing and plays it otherwise |
| Bank.SlotButtonTargetsOwnSlot | src/PatternBank.jsx:103-115 | With distinct ids, a filled slot's delete button empties that slot and no other. An empty slot's save button stores the editor's snapshot named after that slot. For an empty slot shown past the end of the list, it extends the list up to that slot with empty slots in between |
| Arpeggiator.SynthNotes | src/ArpeggiatorSynth.jsx:137-142 | The table is the 16 base frequencies times 2^octave, strictly ascending |
| Arpeggiator.StepNoteInverse | src/ArpeggiatorSynth.jsx:233-252 | The down arrow undoes the up arrow and vice versa |
| Arpeggiator.SixteenPressesCycle | src/ArpeggiatorSynth.jsx:243-245 | Sixteen presses of one arrow return to the same note |
| Arpeggiator.AdjustNote | src/ArpeggiatorSynth.jsx:233-252 | Only that step changes. A rest counts as note 7. Up wraps 15 to 0 and down wraps 0 to 15. Notes stay within 0..15 |
| Arpeggiator.HandleStepClick | src/ArpeggiatorSynth.jsx:209-231 | Clicking the selected step clears and deselects it. Clicking another step selects it, fills a rest with 7 and keeps an existing note |
| Arpeggiator.DoubleClickOnRest | src/ArpeggiatorSynth.jsx:209-231 | Clicking a rest twice restores the pattern and leaves nothing selected |
| Arpeggiator.OctaveDown | src/ArpeggiatorSynth.jsx:264 | One octave down, but never below -2, even from an octave already under it |
| Arpeggiator.OctaveUp | src/ArpeggiatorSynth.jsx:270 | One octave up, but never above 2, even from an octave already over it |
| Arpeggiator.OctaveButtons | src/ArpeggiatorSynth.jsx:264-270 | The octave stays within [-2, 2], and each button undoes the other away from the bound |
| Arpeggiator.LengthUp | src/ArpeggiatorSynth.jsx:301 | Length + adds 0.2 while that stays within 2.0, otherwise gives 2.0 |
| Arpeggiator.LengthDown | src/ArpeggiatorSynth.jsx:308 | Length - takes off 0.2 while that stays at least 0.2, otherwise gives 0.2 |
| Arpeggiator.LengthButtons | src/ArpeggiatorSynth.jsx:301-308 | The note length stays within [0.2, 2.0], and minus undoes plus below the cap |
| Arpeggiator.LiveTriggers | src/ArpeggiatorSynth.jsx:203-207 | The live arpeggiator plays at a step iff the transport is playing and the slot is not a rest; a slot holding note index 0 plays |
| Arpeggiator.PlayNote | src/ArpeggiatorSynth.jsx:156-201 | A live note has the table frequency, and its gain goes from 0.7 to 0.001. It is scheduled to stop after noteLength steps, and its echo delay is delayAmount. When it really falls silent is AudibleEnd |
| Arpeggiator.FirstStop | src/ArpeggiatorSynth.jsx:156-200 | The earliest of note i's own stop and the cleanup timers of earlier notes that fire after note i starts. It is never after the own stop, strictly after the note's start, no later than any such timer, and equal to one of them |
| Arpeggiator.AudibleEnd | src/ArpeggiatorSynth.jsx:156-200 | A live note falls silent no later than its scheduled stop and no later than the next note's start, because playNote first calls cleanupSound |
| Arpeggiator.AudibleEndBounds | src/ArpeggiatorSynth.jsx:156-200 | A live note sounds for a positive time of at most noteLength steps. It sounds for all of them iff the next note starts no earlier than its stop and every earlier note's cleanup timer has fired by the time it starts |
| Arpeggiator.StaleTimerCutsNote | src/ArpeggiatorSynth.jsx:156-200 | At 120 BPM with two-step notes on steps 0 and 1 and a rest on step 2, the first note ends at 0.125 s, cut off by the second. The second ends at 0.25 s, stopped by the first note's timer, instead of at its scheduled 0.375 s |

## Left out

- Web Audio voice synthesis: the drum voices, the filter/delay node graphs and the noise buffers. A triggered sound is a record of the parameters it is created with. `startRendering` and its events are an input outcome of the render.
- Timers: `setTimeout`/`setInterval` pacing and the 30 s `Promise.race`. The render's outcome (completed, failed or timed out) is a parameter, and each scheduler tick takes the current time as a parameter.
- `AbortController`: where the abort flag is first seen set is a parameter (`abortAt`) of the render. The controller is created fresh just before the synchronous scheduling loop (src/AudioRenderer.jsx:17), so the flag can only be seen set at a check k ≥ 1, after a caller's own progress callback has called `abort()`; `abortAt = Some(0)` does not happen in the source. `handleExport` builds its own renderer and never calls `abort()`, so `Scheduler.HandleExport` renders with `abortAt = None`.
- Audio-context creation and resumption on the first interaction. `audioReady` and `AudioSystem` are parameters.
- React state plumbing, JSX rendering, toast messages, console logging, and the Blob/object-URL/anchor download. The download is the pair of file name and WAV bytes.
- Knob gesture mapping (drag and angle maths): UI trigonometry.
- IEEE-754 doubles: all arithmetic is exact `real`. `Math.floor`, `Math.ceil` and the truncating int16 store are written out, but double rounding is not.
- `Date.now()` ids and `new Date().toISOString()` are opaque inputs.
- The arrangement view shows patterns through a hidden arpeggiator component whose live playback is not modelled. Nor is the live scheduler's use of `context.currentTime` instead of its `time` argument: the model keeps the nominal `nextStepTime`.
- The `if (stepTime)` guard in the scheduler loop is always true, because tempo is at least 60, so it is not a branch of the model.
- The 440 Hz fallback in the export is unreachable, because a triggered slot always holds a number.
- `Object.entries` key order is assumed to be the fixed instrument order Kick, Snare, Hihat, Clap, Tom, Crash.
- `handleEditPattern`, `handleArpeggiatorStateChange`, the live `handlePlayPause`/`handleReset` of the sequencer and the restart of the sequencer effect when its dependencies change are React state plumbing. Only the part that loads a pattern into the editor (`Load`) is modelled.
- Renderer.RenderArrangement: requires every drum the arrangement plays to carry parameters (PlayedDrumsHaveParams). The drum voices destructure their argument, so in the source a played drum without parameters throws a TypeError during scheduling and the render fails; the editor always creates parameters for all six instruments, so only a hand-built pattern could lack them.
- Scheduler.HandleExport: inherits the requirement PlayedDrumsHaveParams from the render. For a played drum without parameters, the source fails the export and shows the TypeError's message, which is not modelled.
- Arpeggiator.PlayNote: the live effect that calls it re-fires whenever `isPlaying`, `pattern` or `playNote` changes, not only on a new step. So pressing play sounds the current arpeggiator step at once, step 0 after a reset, while the drum clock starts at step 1; a knob change during playback re-triggers the current note. These re-triggers are not modelled. AudibleEnd takes the start times of the notes as given, and one common duration for all notes, whereas `playNote` recomputes the duration from the tempo and noteLength at each call.
- Renderer.RenderArrangement: the buffer the engine hands back is an input and is not assumed to have the offline context's shape. The model therefore keeps the "Invalid audio buffer" path (and progress stopping at 95) reachable, which a real offline context never takes; what follows from a buffer of the context's shape is stated as a separate clause.
- Wav.AudioBufferToWav: the `catch` that rethrows "Failed to convert audio to WAV format" around the sample loop is not modelled. With exact arithmetic nothing in the loop can throw.
- Edits.ToggleStep: requires the instrument to have a row in the grid. The source would throw otherwise.
- Edits.Move: requires `from` to be an index of the arrangement, as the UI only passes the index of a shown pattern.
- Bank.SaveToSlot: requires the slot to be one of the 8 shown, the only indices the view passes.
