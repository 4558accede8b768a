/**
 * The rule engine shared by the deductive and saving wealth agents
 * (act_4/src/agentes/saving_agent.py and act_4/src/agentes/deductive_agent.py,
 * which hold the same `next` and the same two rules): the first action of
 * `actions` that some rule of `rules` accepts.
 */
module WealthRules {
  import opened Wrappers

  datatype WealthAction = Transfer | Save

  datatype Rule = RuleTransfer | RuleSave

  /** `self.actions`, in their order. */
  const ACTIONS: seq<WealthAction> := [Transfer, Save]
  /** `self.rules`, in their order. */
  const RULES: seq<Rule> := [RuleTransfer, RuleSave]

  /** `rule_transfer` and `rule_save`. */
  predicate Accepts(rule: Rule, act: WealthAction, wealth: int, hasPartner: bool) {
    match rule
    case RuleTransfer => wealth > 5 && hasPartner && act == Transfer
    case RuleSave => wealth <= 5 && act == Save
  }

  /** Whether some rule of `rules` accepts `act`. */
  predicate SomeRuleAccepts(rules: seq<Rule>, act: WealthAction, wealth: int, hasPartner: bool) {
    exists k :: 0 <= k < |rules| && Accepts(rules[k], act, wealth, hasPartner)
  }

  /** The first action of `actions` that some rule accepts. */
  function FirstAccepted(actions: seq<WealthAction>, rules: seq<Rule>, wealth: int, hasPartner: bool): Option<WealthAction>
    decreases |actions|
  {
    if actions == [] then None
    else if SomeRuleAccepts(rules, actions[0], wealth, hasPartner) then Some(actions[0])
    else FirstAccepted(actions[1..], rules, wealth, hasPartner)
  }

  /**
   * `next`: transfer exactly when wealth is above 5 and a partner is set,
   * save exactly when wealth is at most 5, and no action otherwise.
   */
  method Next(wealth: int, hasPartner: bool) returns (r: Option<WealthAction>)
    ensures r == Some(Transfer) <==> wealth > 5 && hasPartner
    ensures r == Some(Save) <==> wealth <= 5
    ensures r == None <==> wealth > 5 && !hasPartner
  {
    var i := 0;
    while i < |ACTIONS|
      invariant 0 <= i <= |ACTIONS|
      invariant FirstAccepted(ACTIONS, RULES, wealth, hasPartner) == FirstAccepted(ACTIONS[i..], RULES, wealth, hasPartner)
    {
      var action := ACTIONS[i];
      assert ACTIONS[i..][0] == action && ACTIONS[i..][1..] == ACTIONS[i + 1..];
      var j := 0;
      while j < |RULES|
        invariant 0 <= j <= |RULES|
        invariant forall k :: 0 <= k < j ==> !Accepts(RULES[k], action, wealth, hasPartner)
      {
        if Accepts(RULES[j], action, wealth, hasPartner) {
          r := Some(action);
          NextDecides(wealth, hasPartner);
          return;
        }
        j := j + 1;
      }
      i := i + 1;
    }
    assert ACTIONS[i..] == [];
    r := None;
    NextDecides(wealth, hasPartner);
  }

  /** The decision table of the two rules over the two actions. */
  lemma NextDecides(wealth: int, hasPartner: bool)
    ensures FirstAccepted(ACTIONS, RULES, wealth, hasPartner)
         == if wealth > 5 && hasPartner then Some(Transfer) else if wealth <= 5 then Some(Save) else None
  {
    assert ACTIONS[1..] == [Save] && ACTIONS[1..][1..] == [];
    if wealth > 5 && hasPartner {
      assert Accepts(RULES[0], Transfer, wealth, hasPartner);
    } else if wealth <= 5 {
      assert Accepts(RULES[1], Save, wealth, hasPartner);
    }
  }
}
