// The signal analyzer: a pure map from a raw sample to the derived signals.
module Analyzer {
  import opened Numeric

  datatype Risk = Low | Moderate | High

  /** One sample as the tracker reports it: keys per minute and file switches. */
  datatype RawData = RawData(typingSpeed: real, fileSwitches: nat)

  datatype Analyzed = Analyzed(typingSpeed: real, focusScore: int, burnoutRisk: Risk, stabilityIndex: int)

  /** Focus band from the number of file switches in the sample. */
  function FocusScore(fileSwitches: int): (f: int)
    ensures f in {20, 50, 80}
  {
    if fileSwitches > 10 then 20
    else if fileSwitches > 5 then 50
    else 80
  }

  /** Burnout label from the focus score (not from the typing speed). */
  function BurnoutRisk(focusScore: int): Risk {
    if focusScore < 30 then High
    else if focusScore < 60 then Moderate
    else Low
  }

  function BurnoutBonus(risk: Risk): real {
    match risk
    case Low => 10.0
    case Moderate => 5.0
    case High => 0.0
  }

  /** The stability index before rounding: focus weight 0.6, speed cap 120, speed weight 30. */
  function StabilityScore(focusScore: int, typingSpeed: real, risk: Risk): real {
    focusScore as real * 0.6 + Min(typingSpeed, 120.0) / 120.0 * 30.0 + BurnoutBonus(risk)
  }

  function Analyze(data: RawData): (a: Analyzed)
    ensures a.typingSpeed == data.typingSpeed
    ensures data.typingSpeed >= 0.0 ==> 12 <= a.stabilityIndex <= 88
  {
    var focusScore := FocusScore(data.fileSwitches);
    var burnoutRisk := BurnoutRisk(focusScore);
    var stability := StabilityScore(focusScore, data.typingSpeed, burnoutRisk);
    var index := Round(stability);
    assert data.typingSpeed >= 0.0 ==> 12 <= index <= 88 by {
      if data.typingSpeed >= 0.0 {
        RoundWithin(stability, 12, 88);
      }
    }
    Analyzed(data.typingSpeed, focusScore, burnoutRisk, index)
  }

  /** The focus score is one of three bands, chosen by the switch count. */
  lemma FocusBands(fileSwitches: nat)
    ensures FocusScore(fileSwitches) == 20 <==> fileSwitches > 10
    ensures FocusScore(fileSwitches) == 50 <==> 6 <= fileSwitches <= 10
    ensures FocusScore(fileSwitches) == 80 <==> fileSwitches <= 5
  {
  }

  /** More file switches never raise the focus score. */
  lemma FocusNonIncreasing(s1: int, s2: int)
    requires s1 <= s2
    ensures FocusScore(s2) <= FocusScore(s1)
  {
  }

  /** The burnout label follows the focus band, so ultimately the switch count. */
  lemma BurnoutFollowsFocus(data: RawData)
    ensures var a := Analyze(data);
      && (a.burnoutRisk == High <==> a.focusScore < 30)
      && (a.burnoutRisk == High <==> data.fileSwitches > 10)
      && (a.burnoutRisk == Moderate <==> a.focusScore == 50)
      && (a.burnoutRisk == Moderate <==> 6 <= data.fileSwitches <= 10)
      && (a.burnoutRisk == Low <==> a.focusScore == 80)
      && (a.burnoutRisk == Low <==> data.fileSwitches <= 5)
  {
  }

  /** For a non-negative speed the stability index stays within 0..100: a corollary of the 12..88 bound in Analyze's contract. */
  lemma StabilityInPercentRange(data: RawData)
    requires data.typingSpeed >= 0.0
    ensures 0 <= Analyze(data).stabilityIndex <= 100
  {
  }

  /** With the switch count fixed, a faster typist is never less stable. */
  lemma StabilityMonotoneInSpeed(fileSwitches: nat, v1: real, v2: real)
    requires v1 <= v2
    ensures Analyze(RawData(v1, fileSwitches)).stabilityIndex <= Analyze(RawData(v2, fileSwitches)).stabilityIndex
  {
    var f := FocusScore(fileSwitches);
    var r := BurnoutRisk(f);
    assert StabilityScore(f, v1, r) <= StabilityScore(f, v2, r);
    RoundMonotone(StabilityScore(f, v1, r), StabilityScore(f, v2, r));
  }

  /** Above the 120 keys/min cap the speed no longer changes the index. */
  lemma StabilitySaturates(fileSwitches: nat, v1: real, v2: real)
    requires v1 >= 120.0 && v2 >= 120.0
    ensures Analyze(RawData(v1, fileSwitches)).stabilityIndex == Analyze(RawData(v2, fileSwitches)).stabilityIndex
  {
  }

  /** No switches at 60 keys/min: round(48 + 15 + 10) = 73. */
  lemma StabilityExample()
    ensures Analyze(RawData(60.0, 0)) == Analyzed(60.0, 80, Low, 73)
  {
    RoundOfInt(73);
  }
}
