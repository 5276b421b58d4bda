# Developer behavioural signal engine: a Dafny model

This project models the signal pipeline of a VS Code extension that watches how a developer
edits. The editor wiring and the dashboard are not part of it. The pipeline has four parts:

- the **tracker** (`Tracker.Tracker`). It has two event counters that editor callbacks bump,
  and `getData`, a destructive read. `getData` turns the keystroke count into keys per minute
  since the last reset, then clears both counters and restarts the window;
- the **analyzer** (`Analyzer.Analyze`). It derives a focus band (20/50/80) from file switches,
  a burnout label from that band, and a rounded stability index;
- the **profile classifier** (`ProfileGenerator.GenerateProfile`). It has three rules in
  priority order, and the first match wins;
- the **interval body** (`Extension.Engine.Tick`). It runs every 5 s and does six things:
  session accumulation, flow-episode detection, the legacy deep-work signal, the dashboard
  post, the edge-triggered cognitive-state machine, and the ten-minute session summary with
  its reset.

The interval body's module-level variables are the fields of class `Extension.Engine`.
`Tick` updates them in the source's order through four step methods. Each step is proved
against one specification function: `Accumulate`, `FlowStep`, `ClassifyState` or `Flush`.
Together they make `TickStep`. `Run` fires `TickStep` over a sequence of tick inputs.
`ExtensionProperties` proves the promised behaviour about these functions. Notifications
come back as a list of `Event`s, in the order the body sends them:

- flow active;
- legacy deep work;
- the dashboard payload;
- a state change;
- the session summary.

`Rules.FirstMatch` is an independent, data-driven rule table. Both if-cascades (the profile
rules and the state rules) are proved equal to it.

Modelling decisions:

- **Time.** Time is an explicit parameter in milliseconds. The interval reads the clock twice:
  once inside `getData`, and again as `now`. So `Extension.Interval` takes `sampledAt` and `now`
  separately.
- **Reals.** Speeds and the stability score are exact `real`s. `Math.round(x)` is
  `Floor(x + 0.5)`.
- **`isFocused`.** The flow test reads `isFocused` from the raw sample, but the tracker never
  produces that field. `Tick` therefore takes it as an explicit `bool`. `Interval`, the
  composed system, passes `false`. `ComposedRunHasNoFlow` shows that flow then never fires.
- **`lastState`.** Its initial value is the empty string. The model writes it as `None`.
- **`flowStart`.** The test that opens an episode is JavaScript's falsy check `!flowStart`.
  So a `flowStart` of 0 counts as "no episode", just like null (`IsFalsy`,
  `FlowStartAtZeroIsForgotten`).
- **As written.** The model follows the code as written:
  - focus comes from file switches (src/analyzer.ts:3-6);
  - burnout comes from the focus band (src/analyzer.ts:8-11);
  - typing speed has no cap, and every `getData` resets the counters and the window
    (src/tracker.ts:24,32-34);
  - the stability index uses speed cap 120, weight 30 and a burnout bonus of 10/5/0
    (src/analyzer.ts:16-20);
  - the average focus has no divide-by-zero guard; `intervalCount >= 1` whenever the
    summary is computed (src/extension.ts:48,185), which is `AverageFocus`'s precondition.

## Model

| member | source | states |
|---|---|---|
| Numeric.Round | src/analyzer.ts:16 | Math.round on exact reals: the result is within half a unit of x, with halves rounded up |
| Analyzer.FocusScore | src/analyzer.ts:3-6 | the focus score is always one of 20, 50, 80 |
| Analyzer.Analyze | src/analyzer.ts:1-28 | typing speed passes through unchanged; for a non-negative speed the stability index lies in [12, 88] |
| Analyzer.FocusBands | src/analyzer.ts:3-6 | focus is 20 iff switches > 10, 50 iff switches in 6..10, 80 iff switches <= 5 |
| Analyzer.FocusNonIncreasing | src/analyzer.ts:3-6 | more file switches never give a higher focus score |
| Analyzer.BurnoutFollowsFocus | src/analyzer.ts:8-11 | High iff focus < 30 iff switches > 10; Moderate iff focus 50 iff 6..10 switches; Low iff focus 80 iff <= 5 switches |
| Analyzer.StabilityInPercentRange | src/analyzer.ts:15-20 | for a non-negative speed the index lies in 0..100, as the comment promises |
| Analyzer.StabilityMonotoneInSpeed | src/analyzer.ts:16-20 | at a fixed switch count the index is non-decreasing in typing speed |
| Analyzer.StabilitySaturates | src/analyzer.ts:18 | at 120 keys/min or more, the speed no longer changes the index |
| Analyzer.StabilityExample | src/analyzer.ts:16-20 | 0 switches at 60 keys/min gives focus 80, Low, and stability round(48 + 15 + 10) = 73 |
| ProfileGenerator.GenerateProfile | src/profileGenerator.ts:1-21 | context switcher iff focus < 30; hyper productive iff not that and speed > 100; balanced otherwise; exactly one of the three |
| ProfileGenerator.GenerateProfileMatchesRules | src/profileGenerator.ts:1-21 | the if-cascade equals the first-match evaluation of the two-rule table with fallback "balanced" |
| ProfileGenerator.ContextSwitcherIffManySwitches | src/profileGenerator.ts:3-8 | composed with the analyzer, the context-switcher profile is chosen iff file switches > 10 |
| Tracker.Sample | src/tracker.ts:20-29 | switches are reported as counted; speed is 0 when no time has passed, else keystrokes * 60000 / elapsed; never negative |
| Tracker.IdleSampleIsEmpty | src/tracker.ts:22-34 | with both counters at zero, every sample is speed 0 and 0 switches |
| Tracker.Tracker.constructor | src/tracker.ts:5-7 | a new tracker has both counters at zero and its window starting at the creation time |
| Tracker.Tracker.OnTextDocumentChange | src/tracker.ts:11-13 | adds exactly 1 to keystrokes; nothing else changes |
| Tracker.Tracker.OnActiveEditorChange | src/tracker.ts:15-17 | adds exactly 1 to fileSwitches; nothing else changes |
| Tracker.Tracker.GetData | src/tracker.ts:20-37 | returns the sample of the counts before the call, including the old fileSwitches; afterwards both counters are 0 and lastReset is now |
| Tracker.GetDataTwice | src/tracker.ts:20-37 | a second read at the same instant returns speed 0 and 0 switches |
| Extension.Engine.constructor | src/extension.ts:9-25 | the initial state: empty last state, no flow episode, all accumulators 0, session starting at load time |
| Extension.Engine.CountSample | src/extension.ts:48-57 | one more interval, focus added to the total, peak raised to the speed if larger, burnout counted on High ticks |
| Extension.Engine.TrackFlow | src/extension.ts:63-93 | updates flowStart and maxFlowDuration as FlowStep says, and returns the flow notification exactly when FlowStep confirms one |
| Extension.Engine.UpdateState | src/extension.ts:120-175 | last state becomes the classified state; a notification is returned iff it differs from the previous one |
| Extension.Engine.FlushSession | src/extension.ts:181-202 | performs Flush: summary and reset iff more than 600000 ms into the session |
| Extension.Engine.Tick | src/extension.ts:40-204 | the new state and the event list are those of TickStep on the old state; the invariant burnoutCount <= intervalCount, maxFlowDuration >= 0, peak >= 0 is kept |
| Extension.Interval | src/extension.ts:36-204 | one firing in the composed system: tracker reset, engine advanced by TickStep on Analyze of the tracker's sample, with isFocused false |
| Extension.TickPreservesInv | src/extension.ts:48-57 | every tick keeps burnoutCount <= intervalCount, maxFlowDuration >= 0 and peakTypingSpeed >= 0 |
| ExtensionProperties.ClassifyStatePriority | src/extension.ts:120-136 | each of the five states holds exactly when all earlier rules fail and its own condition holds |
| ExtensionProperties.ClassifyStateMatchesRules | src/extension.ts:120-136 | the state cascade equals the first-match evaluation of the four-rule table with fallback normal |
| ExtensionProperties.ContextSwitchUnreachable | src/extension.ts:122-129 | on the analyzer's output contextSwitch is never selected |
| ExtensionProperties.ComposedStates | src/extension.ts:120-136 | on the analyzer's output: burnout iff > 10 switches; deepFocus iff <= 5 switches and speed > 120; thinking iff <= 5 switches and speed 0; normal otherwise |
| ExtensionProperties.TickNotifiesOnChange | src/extension.ts:138-175 | a tick announces exactly the classified state iff it differs from the last state, else nothing; afterwards the last state is the classified one |
| ExtensionProperties.FirstTickNotifies | src/extension.ts:9 | from the initial state the first tick always announces its state |
| ExtensionProperties.SustainedStateNotifiesOnce | src/extension.ts:138-175 | k >= 1 consecutive ticks with the same state c announce [c] once if c was not the last state, and nothing otherwise |
| ExtensionProperties.RunPreservesInv | src/extension.ts:48-57 | the invariant, including burnoutCount <= intervalCount, holds after any run of ticks |
| ExtensionProperties.TickWithinSession | src/extension.ts:48-57 | without a flush, a tick adds 1 to the count and the focus to the total, counts High ticks, raises the peak to max(peak, speed), does not lower maxFlowDuration, and reports no summary |
| ExtensionProperties.TickFlushesSession | src/extension.ts:181-202 | past 600000 ms the last event is the summary, counting this tick; every accumulator and maxFlowDuration is 0 and sessionStart is now, while flowStart and lastState keep this tick's values |
| ExtensionProperties.RunWithinSession | src/extension.ts:48-57 | within one session, a run adds the number of ticks, the sum of their focus and their High ticks; the peak covers every speed seen; maxFlowDuration does not decrease; there are no summaries |
| ExtensionProperties.ComposedAverageFocus | src/extension.ts:185 | with the analyzer's focus bands, the session totals stay within 20..80 per tick and any reported average focus is in 20..80 |
| ExtensionProperties.ComposedLegacyDeepWork | src/extension.ts:99-101 | on the analyzer's output the legacy deep-work signal fires iff switches <= 5 and speed > 100 |
| ExtensionProperties.FlowOpens | src/extension.ts:69-73 | a qualifying tick with no open episode opens one at now and confirms nothing |
| ExtensionProperties.FlowContinues | src/extension.ts:75-89 | on an open episode the longest duration becomes max(longest, duration); at >= 30000 ms it is confirmed once and closed, otherwise kept open |
| ExtensionProperties.FlowInterrupted | src/extension.ts:91-93 | a non-qualifying tick closes the episode silently and keeps the longest duration |
| ExtensionProperties.FlowLongestMonotone | src/extension.ts:77-79 | the flow step never lowers the longest duration |
| ExtensionProperties.FlowStartAtZeroIsForgotten | src/extension.ts:71-73 | an episode recorded at timestamp 0 is treated as no episode (the falsy test) |
| ExtensionProperties.FlowSevenTicks | src/extension.ts:63-93 | seven qualifying ticks 5 s apart: one confirmation, on the seventh at 30000 ms, and then the episode is closed |
| ExtensionProperties.ComposedRunHasNoFlow | src/extension.ts:63-67 | with isFocused absent (false), no run emits a flow notification and the episode stays closed |

## Left out

- src/webview.ts: the dashboard panel, its HTML and chart code, and its copy of the burnout label are presentation only. The dashboard payload is the `Dashboard` event.
- Editor wiring is not modelled: `activate`/`deactivate`, `setInterval`/`clearInterval`, the `onDidChange*` subscriptions and the console log. The callbacks are the two `Tracker` methods, and one interval firing is `Interval`.
- The calls to `showInformationMessage`, `showWarningMessage` and `setStatusBarMessage` are not modelled. They become `Event` values. Their message text, emoji and status-bar timeouts are dropped.
- The profile title and insight strings are not modelled. A three-value `Profile` enum stands for them.
- `Date.now()` is not modelled. It becomes the parameters `now` and `sampledAt`.
- IEEE-754 rounding of the divisions and of `* 0.6` is not modelled, because all arithmetic is on exact reals. The same holds for NaN, which cannot arise: at the summary `intervalCount >= 1`.
- The summary's text formatting is not modelled (`toFixed`, minutes with two decimals). The summary event carries the longest flow in milliseconds.
