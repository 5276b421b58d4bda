/**
 * Ordered (guard, result) rule tables evaluated top-down, first match wins.
 * Used as an independent reference definition for the if-cascades of the
 * profile classifier and of the cognitive-state engine.
 */
module Rules {

  datatype Rule<!In, Out> = Rule(guard: In -> bool, result: Out)

  /** The result of the first rule whose guard holds of x, or fallback when none does. */
  function FirstMatch<In, Out>(rules: seq<Rule<In, Out>>, x: In, fallback: Out): Out
    decreases |rules|
  {
    if |rules| == 0 then fallback
    else if rules[0].guard(x) then rules[0].result
    else FirstMatch(rules[1..], x, fallback)
  }

  /** The first rule that fires decides the outcome, whatever follows it. */
  lemma {:induction false} FirstMatchPicksFirst<In, Out>(rules: seq<Rule<In, Out>>, x: In, fallback: Out, i: nat)
    requires i < |rules| && rules[i].guard(x)
    requires forall j :: 0 <= j < i ==> !rules[j].guard(x)
    ensures FirstMatch(rules, x, fallback) == rules[i].result
    decreases i
  {
    if i > 0 {
      assert !rules[0].guard(x);
      FirstMatchPicksFirst(rules[1..], x, fallback, i - 1);
    }
  }

  /** When no guard holds, the fallback is the outcome. */
  lemma {:induction false} FirstMatchFallback<In, Out>(rules: seq<Rule<In, Out>>, x: In, fallback: Out)
    requires forall j :: 0 <= j < |rules| ==> !rules[j].guard(x)
    ensures FirstMatch(rules, x, fallback) == fallback
    decreases |rules|
  {
    if |rules| > 0 {
      assert !rules[0].guard(x);
      FirstMatchFallback(rules[1..], x, fallback);
    }
  }
}
