/**
 * Both fusion functions are early-return ladders: the conditions are tried in a fixed
 * order and the first one that holds decides the result. This module states that
 * evaluation order once, as an ordered rule table, so that each ladder can be proved
 * equal to its table.
 */
module RuleLadder {

  /** One rung: whether its condition holds, and what it returns when it is the first to hold. */
  datatype Rule<D> = Rule(fires: bool, decision: D)

  /** Index of the first rule whose condition holds, or |rules| when none does. */
  function FirstFiring<D>(rules: seq<Rule<D>>): (k: nat)
    ensures k <= |rules|
    ensures forall j :: 0 <= j < k ==> !rules[j].fires
    ensures k < |rules| ==> rules[k].fires
  {
    if rules == [] then 0
    else if rules[0].fires then 0
    else 1 + FirstFiring(rules[1..])
  }

  /** The decision of the first rule that fires, or the fallback when none does. */
  function FirstMatch<D>(rules: seq<Rule<D>>, fallback: D): D {
    var k := FirstFiring(rules);
    if k < |rules| then rules[k].decision else fallback
  }
}
