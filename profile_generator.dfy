// The profile classifier: three rules in priority order, first match wins.
module ProfileGenerator {
  import opened Analyzer
  import opened Rules

  datatype Profile = HighContextSwitcher | HyperProductive | BalancedDeveloper

  function GenerateProfile(analyzed: Analyzed): (p: Profile)
    ensures p == HighContextSwitcher <==> analyzed.focusScore < 30
    ensures p == HyperProductive <==> analyzed.focusScore >= 30 && analyzed.typingSpeed > 100.0
    ensures p == BalancedDeveloper <==> analyzed.focusScore >= 30 && analyzed.typingSpeed <= 100.0
  {
    if analyzed.focusScore < 30 then HighContextSwitcher
    else if analyzed.typingSpeed > 100.0 then HyperProductive
    else BalancedDeveloper
  }

  /** The classifier as a data-driven rule table. */
  function ProfileRules(): seq<Rule<Analyzed, Profile>> {
    [ Rule((a: Analyzed) => a.focusScore < 30, HighContextSwitcher),
      Rule((a: Analyzed) => a.typingSpeed > 100.0, HyperProductive) ]
  }

  /** The if-cascade and the first-match table agree on every input. */
  lemma GenerateProfileMatchesRules(analyzed: Analyzed)
    ensures GenerateProfile(analyzed) == FirstMatch(ProfileRules(), analyzed, BalancedDeveloper)
  {
    var rules := ProfileRules();
    if analyzed.focusScore < 30 {
      FirstMatchPicksFirst(rules, analyzed, BalancedDeveloper, 0);
    } else if analyzed.typingSpeed > 100.0 {
      FirstMatchPicksFirst(rules, analyzed, BalancedDeveloper, 1);
    } else {
      FirstMatchFallback(rules, analyzed, BalancedDeveloper);
    }
  }

  /** Composed with the analyzer, the context-switcher profile means more than ten switches. */
  lemma ContextSwitcherIffManySwitches(data: RawData)
    ensures GenerateProfile(Analyze(data)) == HighContextSwitcher <==> data.fileSwitches > 10
  {
  }
}
