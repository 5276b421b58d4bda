// Properties of the interval body, one tick at a time and over runs of ticks.
module ExtensionProperties {
  import opened Numeric
  import opened Rules
  import opened Analyzer
  import opened Extension

  // ---- State classification ----

  /** The five states in priority order: each holds exactly when every earlier rule fails and its own fires. */
  lemma ClassifyStatePriority(a: Analyzed)
    ensures ClassifyState(a) == Burnout <==> a.burnoutRisk == High
    ensures ClassifyState(a) == DeepFocus <==>
      a.burnoutRisk != High && a.focusScore > 75 && a.typingSpeed > 120.0
    ensures ClassifyState(a) == ContextSwitch <==>
      a.burnoutRisk != High && !(a.focusScore > 75 && a.typingSpeed > 120.0)
      && a.focusScore < 40 && a.typingSpeed < 40.0
    ensures ClassifyState(a) == Thinking <==>
      a.burnoutRisk != High && !(a.focusScore > 75 && a.typingSpeed > 120.0)
      && !(a.focusScore < 40 && a.typingSpeed < 40.0)
      && a.typingSpeed == 0.0 && a.focusScore > 70
    ensures ClassifyState(a) == Normal <==>
      a.burnoutRisk != High && !(a.focusScore > 75 && a.typingSpeed > 120.0)
      && !(a.focusScore < 40 && a.typingSpeed < 40.0)
      && !(a.typingSpeed == 0.0 && a.focusScore > 70)
  {
  }

  function StateRules(): seq<Rule<Analyzed, CogState>> {
    [ Rule((a: Analyzed) => a.burnoutRisk == High, Burnout),
      Rule((a: Analyzed) => a.focusScore > 75 && a.typingSpeed > 120.0, DeepFocus),
      Rule((a: Analyzed) => a.focusScore < 40 && a.typingSpeed < 40.0, ContextSwitch),
      Rule((a: Analyzed) => a.typingSpeed == 0.0 && a.focusScore > 70, Thinking) ]
  }

  /** The if-cascade of the state engine and the first-match rule table agree on every input. */
  lemma ClassifyStateMatchesRules(a: Analyzed)
    ensures ClassifyState(a) == FirstMatch(StateRules(), a, Normal)
  {
    var rules := StateRules();
    if a.burnoutRisk == High {
      FirstMatchPicksFirst(rules, a, Normal, 0);
    } else if a.focusScore > 75 && a.typingSpeed > 120.0 {
      FirstMatchPicksFirst(rules, a, Normal, 1);
    } else if a.focusScore < 40 && a.typingSpeed < 40.0 {
      FirstMatchPicksFirst(rules, a, Normal, 2);
    } else if a.typingSpeed == 0.0 && a.focusScore > 70 {
      FirstMatchPicksFirst(rules, a, Normal, 3);
    } else {
      FirstMatchFallback(rules, a, Normal);
    }
  }

  /**
   * On the analyzer's output contextSwitch never fires: focus below 40 means focus 20,
   * which is High burnout, caught by the first rule.
   */
  lemma ContextSwitchUnreachable(data: RawData)
    ensures ClassifyState(Analyze(data)) != ContextSwitch
  {
  }

  /** The states the composed system can reach, in terms of the tracker's sample. */
  lemma ComposedStates(data: RawData)
    ensures var c := ClassifyState(Analyze(data));
      && (c == Burnout <==> data.fileSwitches > 10)
      && (c == DeepFocus <==> data.fileSwitches <= 5 && data.typingSpeed > 120.0)
      && (c == Thinking <==> data.fileSwitches <= 5 && data.typingSpeed == 0.0)
      && (c == Normal <==>
            (data.fileSwitches <= 10
             && !(data.fileSwitches <= 5 && (data.typingSpeed > 120.0 || data.typingSpeed == 0.0))))
  {
  }

  // ---- Transition notifications ----

  /** The state-change notifications among some events, in order. */
  function Changes(events: seq<Event>): seq<CogState> {
    if |events| == 0 then []
    else (if events[0].StateChanged? then [events[0].state] else []) + Changes(events[1..])
  }

  lemma {:induction false} ChangesAppend(e1: seq<Event>, e2: seq<Event>)
    ensures Changes(e1 + e2) == Changes(e1) + Changes(e2)
    decreases |e1|
  {
    if |e1| > 0 {
      assert (e1 + e2)[1..] == e1[1..] + e2;
      ChangesAppend(e1[1..], e2);
    } else {
      assert e1 + e2 == e2;
    }
  }

  /** A tick notifies iff its state differs from the last one, and then remembers that state. */
  lemma TickNotifiesOnChange(s: EngineState, now: int, a: Analyzed, isFocused: bool)
    ensures var r := TickStep(s, now, a, isFocused);
      && r.state.lastState == Some(ClassifyState(a))
      && Changes(r.events) == if s.lastState == Some(ClassifyState(a)) then [] else [ClassifyState(a)]
  {
    var counted := Accumulate(s, a);
    var flow := FlowStep(counted.flowStart, counted.maxFlowDuration, now, IsFlowCandidate(a, isFocused));
    var current := ClassifyState(a);
    var changed := Some(current) != counted.lastState;
    var decided := counted.(flowStart := flow.flowStart, maxFlowDuration := flow.maxFlowDuration,
                            lastState := if changed then Some(current) else counted.lastState);
    var flushed := Flush(decided, now);
    var e1 := if flow.confirmed.Some? then [FlowActive(flow.confirmed.value)] else [];
    var e2 := if LegacyDeepWork(a) then [DeepWorkLegacy] else [];
    var e3 := [Dashboard(a.typingSpeed, a.focusScore, a.burnoutRisk, a.stabilityIndex, ProfileGenerator.GenerateProfile(a))];
    var e4 := if changed then [StateChanged(current)] else [];
    var e5 := flushed.summary;
    assert TickStep(s, now, a, isFocused).events == e1 + e2 + e3 + e4 + e5;
    ChangesAppend(e1, e2);
    ChangesAppend(e1 + e2, e3);
    ChangesAppend(e1 + e2 + e3, e4);
    ChangesAppend(e1 + e2 + e3 + e4, e5);
  }

  /** Because the last state starts out empty, the first tick always notifies. */
  lemma FirstTickNotifies(start: int, now: int, a: Analyzed, isFocused: bool)
    ensures Changes(TickStep(Initial(start), now, a, isFocused).events) == [ClassifyState(a)]
  {
    TickNotifiesOnChange(Initial(start), now, a, isFocused);
  }

  // ---- Runs of ticks ----

  datatype TickInput = TickInput(now: int, analyzed: Analyzed, isFocused: bool)

  /** The interval body fired once per input, in order. */
  function Run(s: EngineState, ins: seq<TickInput>): TickResult
    decreases |ins|
  {
    if |ins| == 0 then TickResult(s, [])
    else
      var first := TickStep(s, ins[0].now, ins[0].analyzed, ins[0].isFocused);
      var rest := Run(first.state, ins[1..]);
      TickResult(rest.state, first.events + rest.events)
  }

  /** Hysteresis: a state held over k >= 1 consecutive ticks is announced at most once, on the first. */
  lemma {:induction false} SustainedStateNotifiesOnce(s: EngineState, ins: seq<TickInput>, c: CogState)
    requires |ins| >= 1
    requires forall i :: 0 <= i < |ins| ==> ClassifyState(ins[i].analyzed) == c
    ensures Run(s, ins).state.lastState == Some(c)
    ensures Changes(Run(s, ins).events) == if s.lastState == Some(c) then [] else [c]
    decreases |ins|
  {
    var first := TickStep(s, ins[0].now, ins[0].analyzed, ins[0].isFocused);
    TickNotifiesOnChange(s, ins[0].now, ins[0].analyzed, ins[0].isFocused);
    var rest := Run(first.state, ins[1..]);
    ChangesAppend(first.events, rest.events);
    if |ins| > 1 {
      SustainedStateNotifiesOnce(first.state, ins[1..], c);
    }
  }

  /** Every state reachable by ticks keeps the invariant. */
  lemma {:induction false} RunPreservesInv(s: EngineState, ins: seq<TickInput>)
    requires Inv(s)
    ensures Inv(Run(s, ins).state)
    decreases |ins|
  {
    if |ins| > 0 {
      var first := TickStep(s, ins[0].now, ins[0].analyzed, ins[0].isFocused);
      TickPreservesInv(s, ins[0].now, ins[0].analyzed, ins[0].isFocused);
      RunPreservesInv(first.state, ins[1..]);
    }
  }

  // ---- Session accumulation and flush ----

  function SumFocus(ins: seq<TickInput>): int {
    if |ins| == 0 then 0 else ins[0].analyzed.focusScore + SumFocus(ins[1..])
  }

  function HighTicks(ins: seq<TickInput>): nat {
    if |ins| == 0 then 0 else (if ins[0].analyzed.burnoutRisk == High then 1 else 0) + HighTicks(ins[1..])
  }

  /** The summaries among some events. */
  function Summaries(events: seq<Event>): seq<Event> {
    if |events| == 0 then []
    else (if events[0].SessionSummary? then [events[0]] else []) + Summaries(events[1..])
  }

  /** A tick that stays within the session only accumulates; the flow tracker and last state move as their own steps say. */
  lemma TickWithinSession(s: EngineState, now: int, a: Analyzed, isFocused: bool)
    requires now - s.sessionStart <= SessionLength
    ensures var r := TickStep(s, now, a, isFocused).state;
      && r.intervalCount == s.intervalCount + 1
      && r.totalFocusScore == s.totalFocusScore + a.focusScore
      && r.burnoutCount == s.burnoutCount + (if a.burnoutRisk == High then 1 else 0)
      && r.peakTypingSpeed == Max(s.peakTypingSpeed, a.typingSpeed)
      && r.sessionStart == s.sessionStart
      && r.maxFlowDuration >= s.maxFlowDuration
    ensures forall e :: e in TickStep(s, now, a, isFocused).events ==> !e.SessionSummary?
  {
  }

  /**
   * A tick more than ten minutes after the session start reports the session, counting
   * this tick, and zeroes the five accumulators and the longest flow; the flow start and
   * the last state are left as this tick set them.
   */
  lemma TickFlushesSession(s: EngineState, now: int, a: Analyzed, isFocused: bool)
    requires now - s.sessionStart > SessionLength
    ensures var r := TickStep(s, now, a, isFocused);
      var flow := FlowStep(s.flowStart, s.maxFlowDuration, now, IsFlowCandidate(a, isFocused));
      && r.state == EngineState(Some(ClassifyState(a)), flow.flowStart, 0, now, 0, 0, 0, 0.0)
      && r.events[|r.events| - 1] == SessionSummary(
           Round((s.totalFocusScore + a.focusScore) as real / (s.intervalCount + 1) as real),
           Max(s.peakTypingSpeed, a.typingSpeed),
           s.burnoutCount + (if a.burnoutRisk == High then 1 else 0),
           flow.maxFlowDuration)
  {
  }

  /** Within one session the accumulators sum, count and bound exactly the ticks seen. */
  lemma {:induction false} RunWithinSession(s: EngineState, ins: seq<TickInput>)
    requires forall i :: 0 <= i < |ins| ==> ins[i].now - s.sessionStart <= SessionLength
    ensures var r := Run(s, ins).state;
      && r.sessionStart == s.sessionStart
      && r.intervalCount == s.intervalCount + |ins|
      && r.totalFocusScore == s.totalFocusScore + SumFocus(ins)
      && r.burnoutCount == s.burnoutCount + HighTicks(ins)
      && r.peakTypingSpeed >= s.peakTypingSpeed
      && (forall i :: 0 <= i < |ins| ==> r.peakTypingSpeed >= ins[i].analyzed.typingSpeed)
      && r.maxFlowDuration >= s.maxFlowDuration
    ensures Summaries(Run(s, ins).events) == []
    decreases |ins|
  {
    if |ins| > 0 {
      var first := TickStep(s, ins[0].now, ins[0].analyzed, ins[0].isFocused);
      TickWithinSession(s, ins[0].now, ins[0].analyzed, ins[0].isFocused);
      assert forall i :: 0 <= i < |ins[1..]| ==> ins[1..][i].now - first.state.sessionStart <= SessionLength by {
        forall i | 0 <= i < |ins[1..]|
          ensures ins[1..][i].now - first.state.sessionStart <= SessionLength
        {
          assert ins[1..][i] == ins[i + 1];
        }
      }
      RunWithinSession(first.state, ins[1..]);
      var rest := Run(first.state, ins[1..]);
      SummariesAppend(first.events, rest.events);
      NoSummaries(first.events);
      forall i | 0 <= i < |ins|
        ensures Run(s, ins).state.peakTypingSpeed >= ins[i].analyzed.typingSpeed
      {
        if i > 0 {
          assert ins[1..][i - 1] == ins[i];
        }
      }
    }
  }

  lemma {:induction false} SummariesAppend(e1: seq<Event>, e2: seq<Event>)
    ensures Summaries(e1 + e2) == Summaries(e1) + Summaries(e2)
    decreases |e1|
  {
    if |e1| > 0 {
      assert (e1 + e2)[1..] == e1[1..] + e2;
      SummariesAppend(e1[1..], e2);
    } else {
      assert e1 + e2 == e2;
    }
  }

  lemma {:induction false} NoSummaries(events: seq<Event>)
    requires forall e :: e in events ==> !e.SessionSummary?
    ensures Summaries(events) == []
    decreases |events|
  {
    if |events| > 0 {
      assert events[0] in events;
      assert forall e :: e in events[1..] ==> e in events;
      NoSummaries(events[1..]);
    }
  }

  /** The session sums stay between 20 and 80 per tick when every focus score is one of the analyzer's bands. */
  predicate FocusWithinBands(s: EngineState) {
    20 * s.intervalCount <= s.totalFocusScore <= 80 * s.intervalCount
  }

  /** In the composed system the reported average focus is always between 20 and 80. */
  lemma ComposedAverageFocus(s: EngineState, now: int, data: RawData, isFocused: bool)
    requires FocusWithinBands(s)
    ensures var r := TickStep(s, now, Analyze(data), isFocused);
      && FocusWithinBands(r.state)
      && forall e :: e in r.events && e.SessionSummary? ==> 20 <= e.avgFocus <= 80
  {
    var a := Analyze(data);
    var count := s.intervalCount + 1;
    var total := s.totalFocusScore + a.focusScore;
    assert 20 * count <= total <= 80 * count;
    QuotientWithin(total, count, 20, 80);
    RoundWithin(total as real / count as real, 20, 80);
    assert 20 <= AverageFocus(total, count) <= 80;
  }

  // ---- Deep work detection (legacy) ----

  /** In the composed system the legacy deep-work signal fires iff at most five switches and over 100 keys/min. */
  lemma ComposedLegacyDeepWork(s: EngineState, now: int, data: RawData, isFocused: bool)
    ensures DeepWorkLegacy in TickStep(s, now, Analyze(data), isFocused).events <==>
      data.fileSwitches <= 5 && data.typingSpeed > 100.0
  {
  }

  // ---- Flow episodes ----

  /** A qualifying tick with no open episode opens one at `now`; nothing is confirmed yet. */
  lemma FlowOpens(flowStart: Option<int>, longest: int, now: int)
    requires IsFalsy(flowStart)
    ensures var f := FlowStep(flowStart, longest, now, true);
      && f.flowStart == Some(now) && f.confirmed == None
      && f.maxFlowDuration >= longest && f.maxFlowDuration >= 0
      && (f.maxFlowDuration == longest || f.maxFlowDuration == 0)
  {
  }

  /** A qualifying tick on an open episode raises the longest duration and confirms it once it reaches 30 s, closing it. */
  lemma FlowContinues(start: int, longest: int, now: int)
    requires start != 0
    ensures var f := FlowStep(Some(start), longest, now, true);
      && f.maxFlowDuration >= longest && f.maxFlowDuration >= now - start
      && (f.maxFlowDuration == longest || f.maxFlowDuration == now - start)
      && (now - start >= FlowThreshold ==> f.confirmed == Some(now - start) && f.flowStart == None)
      && (now - start < FlowThreshold ==> f.confirmed == None && f.flowStart == Some(start))
  {
  }

  /** A tick that does not qualify closes any open episode silently and keeps the longest duration. */
  lemma FlowInterrupted(flowStart: Option<int>, longest: int, now: int)
    ensures FlowStep(flowStart, longest, now, false) == FlowOutcome(None, longest, None)
  {
  }

  /** The longest flow duration never decreases within a tick's flow step. */
  lemma FlowLongestMonotone(flowStart: Option<int>, longest: int, now: int, candidate: bool)
    ensures FlowStep(flowStart, longest, now, candidate).maxFlowDuration >= longest
  {
  }

  /** As written, an episode opened at timestamp 0 reads as no episode and is reopened on the next tick. */
  lemma FlowStartAtZeroIsForgotten(longest: int, now: int)
    ensures FlowStep(Some(0), longest, now, true) == FlowStep(None, longest, now, true)
  {
  }

  /**
   * Seven qualifying ticks five seconds apart from `t0`: the episode opens on the first,
   * is confirmed exactly once, on the seventh (30 s in), and is then closed.
   */
  lemma FlowSevenTicks(t0: int)
    requires t0 != 0
    ensures var f1 := FlowStep(None, 0, t0, true);
      var f2 := FlowStep(f1.flowStart, f1.maxFlowDuration, t0 + 5000, true);
      var f3 := FlowStep(f2.flowStart, f2.maxFlowDuration, t0 + 10000, true);
      var f4 := FlowStep(f3.flowStart, f3.maxFlowDuration, t0 + 15000, true);
      var f5 := FlowStep(f4.flowStart, f4.maxFlowDuration, t0 + 20000, true);
      var f6 := FlowStep(f5.flowStart, f5.maxFlowDuration, t0 + 25000, true);
      var f7 := FlowStep(f6.flowStart, f6.maxFlowDuration, t0 + 30000, true);
      && f1.confirmed == f2.confirmed == f3.confirmed == f4.confirmed == f5.confirmed == f6.confirmed == None
      && f6.flowStart == Some(t0)
      && f7 == FlowOutcome(None, 30000, Some(30000))
  {
  }

  /** In the composed system isFocused is absent, so no tick ever opens an episode or reports flow. */
  lemma {:induction false} ComposedRunHasNoFlow(s: EngineState, ins: seq<TickInput>)
    requires forall i :: 0 <= i < |ins| ==> !ins[i].isFocused
    ensures forall e :: e in Run(s, ins).events ==> !e.FlowActive?
    ensures |ins| > 0 ==> Run(s, ins).state.flowStart == None
    decreases |ins|
  {
    if |ins| > 0 {
      var first := TickStep(s, ins[0].now, ins[0].analyzed, ins[0].isFocused);
      assert forall i :: 0 <= i < |ins[1..]| ==> !ins[1..][i].isFocused by {
        forall i | 0 <= i < |ins[1..]| ensures !ins[1..][i].isFocused {
          assert ins[1..][i] == ins[i + 1];
        }
      }
      ComposedRunHasNoFlow(first.state, ins[1..]);
    }
  }
}
