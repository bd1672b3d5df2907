/** The IKZF1 cascade as data: an ordered list of rules, each a predicate
    and an outcome, evaluated by one generic first-match-wins evaluator.
    This is the reference definition `Ikzf1Plus.Ikzf1PlusDecision` is proved
    equal to, and the place where rule priority is stated. */
module Ikzf1Cascade {
  import opened Decision
  import opened Ikzf1Plus

  datatype Rule =
    | Iamp21
    | ProtectiveErgDux4
    | Ikzf1PlusRule
    | GenPr
    | Ikzf1Btg1Double
    | Par1DupOnly
    | Etv6Deletion
    | SimpleIkzf1

  /** The evaluation order of logic.ts. */
  const Cascade: seq<Rule> := [
    Iamp21, ProtectiveErgDux4, Ikzf1PlusRule, GenPr,
    Ikzf1Btg1Double, Par1DupOnly, Etv6Deletion, SimpleIkzf1]

  /** Each rule's own predicate, taken on its own, without the rules
      before it. */
  predicate Fires(rule: Rule, s: Ikzf1Status) {
    var p := s.par1Genes;
    match rule
    case Iamp21 => s.iamp21
    case ProtectiveErgDux4 => s.ergDel || s.dux4Rearrange
    case Ikzf1PlusRule => s.ikzf1Del && (s.cdkn2abDel || s.pax5Del || p.Has(Del))
    case GenPr => s.ikzf1Del || p.Has(Del) || s.ebf1Del || s.rb1Del
    case Ikzf1Btg1Double => s.ikzf1Del && s.btg1Del
    case Par1DupOnly => p.Has(Dup) && !p.Has(Del) && !s.ikzf1Del
    case Etv6Deletion => s.etv6Del
    case SimpleIkzf1 => s.ikzf1Del
  }

  function RuleResult(rule: Rule, s: Ikzf1Status): DecisionResult {
    match rule
    case Iamp21 => Iamp21Result
    case ProtectiveErgDux4 => ProtectiveResult(s.ergDel)
    case Ikzf1PlusRule => Ikzf1PlusResult
    case GenPr => GenPrResult
    case Ikzf1Btg1Double => Btg1DoubleResult
    case Par1DupOnly => Par1DupResult
    case Etv6Deletion => Etv6Result
    case SimpleIkzf1 => SimpleIkzf1Result
  }

  /** The position of the first rule that fires, or `|rules|` when none
      does. */
  function FirstFiring(rules: seq<Rule>, s: Ikzf1Status): (k: nat)
    ensures k <= |rules|
    ensures k < |rules| ==> Fires(rules[k], s)
    ensures forall j :: 0 <= j < k ==> !Fires(rules[j], s)
  {
    if rules == [] then 0
    else if Fires(rules[0], s) then 0
    else 1 + FirstFiring(rules[1..], s)
  }

  /** First match wins; the default when no rule fires. */
  function Evaluate(rules: seq<Rule>, s: Ikzf1Status): DecisionResult {
    var k := FirstFiring(rules, s);
    if k < |rules| then RuleResult(rules[k], s) else DefaultResult
  }

  /** The if-cascade of logic.ts is the table evaluated in its order. */
  lemma DecisionIsCascade(s: Ikzf1Status)
    ensures Ikzf1PlusDecision(s) == Evaluate(Cascade, s)
  {
    Par1Scans(s.par1Genes);
    var k := FirstFiring(Cascade, s);
    if Fires(Cascade[0], s) { assert k == 0; }
    else if Fires(Cascade[1], s) { assert k == 1; }
    else if Fires(Cascade[2], s) { assert k == 2; }
    else if Fires(Cascade[3], s) { assert k == 3; }
    // Rules 5 and 8 (Cascade[4], Cascade[7]) are never first: rule 4 covers them.
    else if Fires(Cascade[5], s) { assert k == 5; }
    else if Fires(Cascade[6], s) { assert k == 6; }
    else { assert k == 8; }
  }

  /** Different rules have different outcomes (their titles differ). */
  lemma OutcomesDistinct(a: Rule, b: Rule, s: Ikzf1Status)
    requires a != b
    ensures RuleResult(a, s).title != RuleResult(b, s).title
  {
  }

  /** Rule priority: a rule that fires decides the outcome if and only if no
      earlier rule fires. */
  lemma Priority(s: Ikzf1Status, k: nat)
    requires k < |Cascade| && Fires(Cascade[k], s)
    ensures Ikzf1PlusDecision(s) == RuleResult(Cascade[k], s) <==>
            forall j :: 0 <= j < k ==> !Fires(Cascade[j], s)
  {
    DecisionIsCascade(s);
    var f := FirstFiring(Cascade, s);
    if f != k {
      assert f < k;
      OutcomesDistinct(Cascade[f], Cascade[k], s);
    }
  }

  /** Rules 5 and 8 are satisfiable on their own yet never decide: whenever
      either fires, rule 4 or an earlier rule fires as well. */
  lemma Rules5And8Unreachable(s: Ikzf1Status)
    ensures Fires(Ikzf1Btg1Double, NoAlterations.(ikzf1Del := true, btg1Del := true))
    ensures Fires(SimpleIkzf1, NoAlterations.(ikzf1Del := true))
    ensures var k := FirstFiring(Cascade, s);
      k < |Cascade| ==> Cascade[k] != Ikzf1Btg1Double && Cascade[k] != SimpleIkzf1
  {
    if s.ikzf1Del {
      assert Fires(Cascade[3], s);
    }
  }
}
