/**
 * The body of the extension's 5-second interval: session accumulation, flow-episode
 * detection, the legacy deep-work signal, the edge-triggered cognitive-state machine
 * and the ten-minute session summary. Notifications are returned as events.
 */
module Extension {
  import opened Numeric
  import opened Analyzer
  import opened ProfileGenerator
  import opened Tracker

  datatype Option<T> = None | Some(value: T)

  datatype CogState = Burnout | DeepFocus | ContextSwitch | Thinking | Normal

  /** What one tick sends out, in the order the interval body sends it. */
  datatype Event =
    | FlowActive(durationMs: int)
    | DeepWorkLegacy
    | Dashboard(typingSpeed: real, focus: int, burnout: Risk, stability: int, profile: Profile)
    | StateChanged(state: CogState)
    | SessionSummary(avgFocus: int, peakTypingSpeed: real, burnoutEvents: nat, longestFlowMs: int)

  /** Sustained flow needed before a flow notification, in milliseconds. */
  const FlowThreshold: int := 30000
  /** Length of a session, in milliseconds. */
  const SessionLength: int := 600000

  /**
   * The module-level state of the interval body. `lastState == None` stands for the
   * initial empty string; `flowStart == None` for null.
   */
  datatype EngineState = EngineState(
    lastState: Option<CogState>,
    flowStart: Option<int>,
    maxFlowDuration: int,
    sessionStart: int,
    totalFocusScore: int,
    intervalCount: nat,
    burnoutCount: nat,
    peakTypingSpeed: real)

  /** The state when the extension is loaded at time `start`. */
  function Initial(start: int): EngineState {
    EngineState(None, None, 0, start, 0, 0, 0, 0.0)
  }

  /** What every reachable state satisfies. */
  predicate Inv(s: EngineState) {
    s.burnoutCount <= s.intervalCount && s.maxFlowDuration >= 0 && s.peakTypingSpeed >= 0.0
  }

  datatype TickResult = TickResult(state: EngineState, events: seq<Event>)

  // ---- Session metrics tracking ----

  function Accumulate(s: EngineState, a: Analyzed): EngineState {
    s.(intervalCount := s.intervalCount + 1,
       totalFocusScore := s.totalFocusScore + a.focusScore,
       peakTypingSpeed := if a.typingSpeed > s.peakTypingSpeed then a.typingSpeed else s.peakTypingSpeed,
       burnoutCount := if a.burnoutRisk == High then s.burnoutCount + 1 else s.burnoutCount)
  }

  // ---- Flow state detection ----

  predicate IsFlowCandidate(a: Analyzed, isFocused: bool) {
    a.focusScore > 75 && 80.0 <= a.typingSpeed <= 160.0 && isFocused
  }

  /** JavaScript's `!flowStart`: null and the timestamp 0 are both falsy. */
  predicate IsFalsy(flowStart: Option<int>) {
    flowStart.None? || flowStart.value == 0
  }

  datatype FlowOutcome = FlowOutcome(flowStart: Option<int>, maxFlowDuration: int, confirmed: Option<int>)

  function FlowStep(flowStart: Option<int>, maxFlowDuration: int, now: int, candidate: bool): FlowOutcome {
    if candidate then
      var start := if IsFalsy(flowStart) then now else flowStart.value;
      var duration := now - start;
      var longest := if duration > maxFlowDuration then duration else maxFlowDuration;
      if duration >= FlowThreshold then FlowOutcome(None, longest, Some(duration))
      else FlowOutcome(Some(start), longest, None)
    else FlowOutcome(None, maxFlowDuration, None)
  }

  // ---- Deep work detection (legacy) ----

  predicate LegacyDeepWork(a: Analyzed) {
    a.focusScore > 75 && a.typingSpeed > 100.0
  }

  // ---- Smart state engine ----

  function ClassifyState(a: Analyzed): CogState {
    if a.burnoutRisk == High then Burnout
    else if a.focusScore > 75 && a.typingSpeed > 120.0 then DeepFocus
    else if a.focusScore < 40 && a.typingSpeed < 40.0 then ContextSwitch
    else if a.typingSpeed == 0.0 && a.focusScore > 70 then Thinking
    else Normal
  }

  // ---- Session summary ----

  datatype FlushOutcome = FlushOutcome(state: EngineState, summary: seq<Event>)

  /** Average focus over the session, rounded; only reached once a tick has been counted. */
  function AverageFocus(totalFocusScore: int, intervalCount: nat): int
    requires intervalCount >= 1
  {
    Round(totalFocusScore as real / intervalCount as real)
  }

  function Flush(s: EngineState, now: int): FlushOutcome
    requires s.intervalCount >= 1
  {
    if now - s.sessionStart > SessionLength then
      var summary := SessionSummary(AverageFocus(s.totalFocusScore, s.intervalCount),
                                    s.peakTypingSpeed, s.burnoutCount, s.maxFlowDuration);
      FlushOutcome(s.(sessionStart := now, totalFocusScore := 0, intervalCount := 0,
                      burnoutCount := 0, peakTypingSpeed := 0.0, maxFlowDuration := 0),
                   [summary])
    else FlushOutcome(s, [])
  }

  /** One run of the interval body at time `now` on the analyzed sample. */
  function TickStep(s: EngineState, now: int, a: Analyzed, isFocused: bool): TickResult {
    var counted := Accumulate(s, a);
    var flow := FlowStep(counted.flowStart, counted.maxFlowDuration, now, IsFlowCandidate(a, isFocused));
    var current := ClassifyState(a);
    var changed := Some(current) != counted.lastState;
    var decided := counted.(flowStart := flow.flowStart, maxFlowDuration := flow.maxFlowDuration,
                            lastState := if changed then Some(current) else counted.lastState);
    var flushed := Flush(decided, now);
    var events :=
      (if flow.confirmed.Some? then [FlowActive(flow.confirmed.value)] else [])
      + (if LegacyDeepWork(a) then [DeepWorkLegacy] else [])
      + [Dashboard(a.typingSpeed, a.focusScore, a.burnoutRisk, a.stabilityIndex, GenerateProfile(a))]
      + (if changed then [StateChanged(current)] else [])
      + flushed.summary;
    TickResult(flushed.state, events)
  }

  /** The module-level variables of the extension, as one object. */
  class Engine {
    var lastState: Option<CogState>
    var flowStart: Option<int>
    var maxFlowDuration: int
    var sessionStart: int
    var totalFocusScore: int
    var intervalCount: nat
    var burnoutCount: nat
    var peakTypingSpeed: real

    function State(): EngineState
      reads this
    {
      EngineState(lastState, flowStart, maxFlowDuration, sessionStart,
                  totalFocusScore, intervalCount, burnoutCount, peakTypingSpeed)
    }

    predicate Valid()
      reads this
    {
      Inv(State())
    }

    constructor (start: int)
      ensures State() == Initial(start) && Valid()
    {
      lastState := None;
      flowStart := None;
      maxFlowDuration := 0;
      sessionStart := start;
      totalFocusScore := 0;
      intervalCount := 0;
      burnoutCount := 0;
      peakTypingSpeed := 0.0;
    }

    /** Session metrics tracking: count the tick, sum focus, keep the peak speed, count High ticks. */
    method CountSample(analyzed: Analyzed)
      modifies this
      ensures State() == Accumulate(old(State()), analyzed)
    {
      intervalCount := intervalCount + 1;
      totalFocusScore := totalFocusScore + analyzed.focusScore;
      if analyzed.typingSpeed > peakTypingSpeed {
        peakTypingSpeed := analyzed.typingSpeed;
      }
      if analyzed.burnoutRisk == High {
        burnoutCount := burnoutCount + 1;
      }
    }

    /** Flow state detection: open, measure, confirm or drop the current episode. */
    method TrackFlow(now: int, candidate: bool) returns (flowEvents: seq<Event>)
      modifies this
      ensures var flow := FlowStep(old(flowStart), old(maxFlowDuration), now, candidate);
        && State() == old(State()).(flowStart := flow.flowStart, maxFlowDuration := flow.maxFlowDuration)
        && flowEvents == if flow.confirmed.Some? then [FlowActive(flow.confirmed.value)] else []
    {
      flowEvents := [];
      if candidate {
        if IsFalsy(flowStart) {
          flowStart := Some(now);
        }
        var duration := now - flowStart.value;
        if duration > maxFlowDuration {
          maxFlowDuration := duration;
        }
        if duration >= FlowThreshold {
          flowEvents := [FlowActive(duration)];
          flowStart := None;
        }
      } else {
        flowStart := None;
      }
    }

    /** Smart state engine: classify, and notify only when the state differs from the last one. */
    method UpdateState(analyzed: Analyzed) returns (changeEvents: seq<Event>)
      modifies this
      ensures var current := ClassifyState(analyzed);
        && State() == old(State()).(lastState := Some(current))
        && changeEvents == if Some(current) != old(lastState) then [StateChanged(current)] else []
    {
      changeEvents := [];
      var currentState := ClassifyState(analyzed);
      if Some(currentState) != lastState {
        lastState := Some(currentState);
        changeEvents := [StateChanged(currentState)];
      }
    }

    /** Session summary: after more than ten minutes, report and reset the accumulators. */
    method FlushSession(now: int) returns (summary: seq<Event>)
      requires intervalCount >= 1
      modifies this
      ensures State() == Flush(old(State()), now).state
      ensures summary == Flush(old(State()), now).summary
    {
      summary := [];
      var sessionDuration := now - sessionStart;
      if sessionDuration > SessionLength {
        var avgFocus := AverageFocus(totalFocusScore, intervalCount);
        summary := [SessionSummary(avgFocus, peakTypingSpeed, burnoutCount, maxFlowDuration)];
        sessionStart := now;
        totalFocusScore := 0;
        intervalCount := 0;
        burnoutCount := 0;
        peakTypingSpeed := 0.0;
        maxFlowDuration := 0;
      }
    }

    /** The interval body, in the order the source runs it. */
    method Tick(now: int, analyzed: Analyzed, isFocused: bool) returns (events: seq<Event>)
      requires Valid()
      modifies this
      ensures Valid()
      ensures State() == TickStep(old(State()), now, analyzed, isFocused).state
      ensures events == TickStep(old(State()), now, analyzed, isFocused).events
    {
      CountSample(analyzed);
      var flowEvents := TrackFlow(now, IsFlowCandidate(analyzed, isFocused));
      var legacyEvents := if LegacyDeepWork(analyzed) then [DeepWorkLegacy] else [];
      var dashboard := Dashboard(analyzed.typingSpeed, analyzed.focusScore, analyzed.burnoutRisk,
                                 analyzed.stabilityIndex, GenerateProfile(analyzed));
      var changeEvents := UpdateState(analyzed);
      var summary := FlushSession(now);
      events := flowEvents + legacyEvents + [dashboard] + changeEvents + summary;
      TickPreservesInv(old(State()), now, analyzed, isFocused);
    }
  }

  /** Every tick keeps the invariant; in particular burnoutCount never exceeds intervalCount. */
  lemma TickPreservesInv(s: EngineState, now: int, a: Analyzed, isFocused: bool)
    requires Inv(s)
    ensures Inv(TickStep(s, now, a, isFocused).state)
  {
  }

  /**
   * One firing of the interval in the composed system: the tracker is read at
   * `sampledAt`, the clock is read again as `now`, and `isFocused` is absent from
   * the tracker's data, so it is false.
   */
  method Interval(tracker: Tracker, engine: Engine, sampledAt: int, now: int) returns (events: seq<Event>)
    requires engine.Valid()
    modifies tracker, engine
    ensures engine.Valid()
    ensures tracker.keystrokes == 0 && tracker.fileSwitches == 0 && tracker.lastReset == sampledAt
    ensures var data := Sample(old(tracker.keystrokes), old(tracker.fileSwitches), old(tracker.lastReset), sampledAt);
      && engine.State() == TickStep(old(engine.State()), now, Analyze(data), false).state
      && events == TickStep(old(engine.State()), now, Analyze(data), false).events
  {
    var rawData := tracker.GetData(sampledAt);
    var analyzed := Analyze(rawData);
    events := engine.Tick(now, analyzed, false);
  }
}
