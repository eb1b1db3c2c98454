# PWM square-wave player: a Dafny model

The player is a single-page control panel. It plays a pulse-width-modulated
square wave. The panel holds four values:

- the period `lambda` (µs);
- the pulse width `width` (µs);
- whether the second channel is inverted;
- whether the loop is playing.

There are two kernels:

- **`panel.dfy`, module `PanelState`.** The input handlers, each an atomic
  transition on a `Panel` record. Editing the period clamps the pulse to it.
  Editing the frequency sets the period to `1e6 / f` and rescales the pulse,
  so the duty cycle is kept. Editing the duty cycle sets the pulse to that
  share of the period. Editing the pulse width takes the number as typed.
  The checkbox and the two buttons each set one flag. An `Event` / `Step` /
  `Run` layer dispatches actions to the handlers. It is used to prove that
  the pulse stays inside a positive period over any run of "tame" edits:
  a positive period or frequency, a pulse between 0 and the period, a duty
  between 0 and 100 %.
- **`waveform.dfy`, module `Waveform`.** Construction of the one-period
  buffer that the player loops, written imperatively.
  - The length is `floor(sampleRate * lambda / 1e6)`. Nothing is built
    while stopped, or when that length is below one sample.
  - An `AudioBuffer` is allocated with one or two zeroed channel arrays.
  - Channel 0 is filled with 1, then with -1 from the pulse end onward.
  - When inverted, channel 1 gets the opposite pattern.
  - `Fill` is `%TypedArray%.prototype.fill(value, start)` (ECMA-262,
    section 23.2.3.9). The start is truncated toward zero. A negative start
    counts back from the end. The result is clamped into the array.

Times are exact reals and `Math.floor` is `.Floor`; IEEE-754 rounding is not
modelled. The sample rate is a parameter, since it comes from the platform.

There is no DC-cut step: both levels are the constants 1 and -1
(src/App.tsx:73-74).

## Model

| member | source | states |
|---|---|---|
| PanelState.Min | src/App.tsx:19 | `Math.min`: the result is at most both arguments and is one of them |
| PanelState.LambdaChanged | src/App.tsx:16-20 | the period becomes the typed value; the pulse is kept when it fits and is cut to the new period otherwise, so it never exceeds the period; flags unchanged |
| PanelState.FreqChanged | src/App.tsx:21-25 | the new panel's frequency is exactly the typed one and its duty cycle equals the old one; flags unchanged |
| PanelState.PulseChanged | src/App.tsx:26-28 | only the pulse changes, to exactly the typed value, with no clamping against the period |
| PanelState.DutyChanged | src/App.tsx:29-31 | the period is unchanged and the new duty cycle times 100 is the typed percentage; flags unchanged |
| PanelState.InvertChanged | src/App.tsx:32-34 | only the invert flag changes, to the checkbox state |
| PanelState.PlayClicked | src/App.tsx:35-37 | playing becomes true; period, pulse and invert flag unchanged |
| PanelState.StopClicked | src/App.tsx:38-40 | playing becomes false; period, pulse and invert flag unchanged |
| PanelState.LambdaChangedIdempotent | src/App.tsx:16-20 | typing the same period twice has the effect of typing it once |
| PanelState.FreqRoundTrip | src/App.tsx:21-25 | typing back the panel's own frequency leaves the panel exactly as it was |
| PanelState.DutyRoundTrip | src/App.tsx:29-31 | typing back the panel's own duty percentage leaves the panel exactly as it was |
| PanelState.PulseRoundTrip | src/App.tsx:26-28 | typing back the panel's own pulse width leaves the panel as it was |
| PanelState.InitialWellFormed | src/App.tsx:11-14 | the initial 20000 µs period and 1500 µs pulse are well formed: 50 Hz at a 7.5 % duty cycle |
| PanelState.LambdaKeepsPulseInside | src/App.tsx:16-20 | a positive period edit keeps 0 <= width <= lambda |
| PanelState.FreqKeepsPulseInside | src/App.tsx:21-25 | a positive frequency edit keeps 0 <= width <= lambda |
| PanelState.DutyKeepsPulseInside | src/App.tsx:29-31 | a duty edit within 0..100 % keeps 0 <= width <= lambda |
| PanelState.PulseKeepsPulseInside | src/App.tsx:26-28 | a pulse edit within 0..lambda keeps 0 <= width <= lambda |
| PanelState.PulseMayOverrunPeriod | src/App.tsx:26-28 | a pulse edit can leave a well-formed panel with a pulse longer than its period |
| PanelState.PulseAtInputMaxMayOverrunPeriod | src/App.tsx:89 | after typing 30 Hz the period is fractional; a pulse at the input's limit `Math.ceil(lambda)` is not tame and overruns the period |
| PanelState.Step | src/App.tsx:85-98 | dispatch of each input or button to its handler; flags move only on their own actions, and flag actions never move timing |
| PanelState.StepKeepsPulseInside | src/App.tsx:16-40 | every tame action is defined and keeps 0 <= width <= lambda |
| PanelState.Run | src/App.tsx:16-40 | the panel after a run of actions; without an invert action in the run the invert flag is unchanged |
| PanelState.TameRunKeepsPulseInside | src/App.tsx:16-40 | from a well-formed panel, every run of tame actions is defined and ends in a well-formed panel |
| PanelState.FlagRunKeepsTiming | src/App.tsx:32-40 | from any panel, a run of invert, play and stop actions is defined and leaves period and pulse unchanged |
| Waveform.Truncate | src/App.tsx:73 | conversion of the fractional start index to an integer truncates toward zero |
| Waveform.RelativeStart | src/App.tsx:73 | the fill start lies in [0, len]: the truncated start when inside, len past the end, counted back from the end when negative, 0 below -len |
| Waveform.LoopLength | src/App.tsx:64 | the loop length is the floor of sampleRate * lambda / 1e6 |
| Waveform.HighCount | src/App.tsx:73 | the number of leading high samples never exceeds the buffer length |
| Waveform.TwoLevelCount | src/App.tsx:73-74 | a run of k samples at one level followed by n - k at another holds exactly k and n - k of each |
| Waveform.SquareWaveShape | src/App.tsx:73 | channel 0's pattern: every sample is 1 or -1, a sample is 1 iff its index is below k, and there are exactly k ones |
| Waveform.InvertedIsNegation | src/App.tsx:74 | the inverted channel's pattern is the sample-wise negation of channel 0's and has n - k ones |
| Waveform.HighCountIsClampedFloor | src/App.tsx:73 | for a non-negative pulse and sample rate, the number of high samples is min(loop length, floor(width * sampleRate / 1e6)) |
| Waveform.HighCountTracksPulse | src/App.tsx:73 | for a non-negative pulse that fits, the number of high samples is the pulse end rounded down |
| Waveform.PulseInsidePeriodNeedsNoClamp | src/App.tsx:64-73 | for a well-formed panel and a non-negative sample rate the pulse end never passes the loop's end, so the high count is the truncated pulse end |
| Waveform.OverlongPulseIsAllHigh | src/App.tsx:64-73 | a pulse at least as long as the period makes every sample of channel 0 high |
| Waveform.NegativePulseCountsFromEnd | src/App.tsx:73 | a pulse end in [-n, 0) counts back from the end of the buffer: the high count is n plus the truncated end |
| Waveform.AudioBuffer.constructor | src/App.tsx:68-72 | the buffer has the requested length, sample rate and channel count, with distinct fresh zeroed channel arrays |
| Waveform.Fill | src/App.tsx:73-74 | `fill(value, start)`: elements from the relative start on become value, earlier ones keep their values |
| Waveform.BuildLoop | src/App.tsx:53-74 | no buffer iff stopped or the loop length is below 1; otherwise the length is the loop length, there are 2 channels iff inverted, channel 0 is k highs then lows, and channel 1 is its negation |

## Left out

- Audio context and playback node: creating, closing, suspending and resuming the context, and building, connecting, starting, stopping and disconnecting the looping source node (src/App.tsx:42-62, 75-78). These are platform calls; only the buffer they play is modelled.
- BuildLoop: the early return when no audio context exists yet (src/App.tsx:50-52) is not modelled; the platform sample rate is a parameter.
- React state, refs and effect re-runs, and the batching of state updates: each handler is one atomic transition that reads the state it was rendered with.
- Rendering and the `min`/`max`/`step` attributes of the inputs (src/App.tsx:81-101), including the `freqMin`/`freqMax` constants (src/App.tsx:3-4) that feed them. Browsers do not enforce these on typed numbers. The invariant lemmas instead take the `Tame` predicate as their hypothesis. It does not match the attributes. Its pulse bound is the period itself, which is tighter than the input's `Math.ceil(lambda)` (src/App.tsx:89; `PulseAtInputMaxMayOverrunPeriod` shows a pulse at that limit overrunning a fractional period). Its period and frequency bounds are only "positive", looser than the attributes' 50..50000 µs and 20..20000 Hz.
- Display rounding of period, frequency, pulse and duty (src/App.tsx:85-90), and all IEEE-754 behaviour: rounding, NaN, and infinities from `valueAsNumber` or from division.
- FreqChanged: requires a non-zero typed frequency and a non-zero current period. With either at zero the source divides by zero and stores an infinite or NaN value, which has no counterpart among reals.
- Channel samples are 32-bit floats on the platform. They are modelled as `int`, since only the levels 1 and -1 are ever written.
