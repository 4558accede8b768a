/**
 * The deductive saving agent (act_4/src/agentes/saving_agent.py): it picks a
 * partner among the other agents, lets the shared rule engine choose between
 * transferring and saving, and transfers one unit only when it has some.
 * The partner choice (`self.model.random.choice`) is the entry at `pick`
 * modulo the number of candidates.
 */
module SavingAgents {
  import opened Wrappers
  import opened WealthRules

  /** `[agent for agent in agents if agent.id != id]`. */
  function OtherAgents(agents: seq<SavingAgent>, id: int): (r: seq<SavingAgent>)
    ensures forall k :: 0 <= k < |r| ==> r[k] in agents && r[k].id != id
    ensures forall k :: 0 <= k < |agents| && agents[k].id != id ==> agents[k] in r
    decreases |agents|
  {
    if agents == [] then []
    else
      var rest := OtherAgents(agents[1..], id);
      assert forall k :: 1 <= k < |agents| ==> agents[k] == agents[1..][k - 1];
      (if agents[0].id != id then [agents[0]] else []) + rest
  }

  class SavingAgent {
    const id: int
    var wealth: int
    /** `beliefs['partner']` */
    var partner: SavingAgent?

    /** The partner, when one is set. */
    function Partners(): set<SavingAgent>
      reads this`partner
    {
      if partner == null then {} else {partner}
    }

    /** `setup`; the initial wealth is the draw of `np.random.randint(1, 10)`. */
    constructor (id: int, wealth: int)
      requires 1 <= wealth < 10
      ensures this.id == id && this.wealth == wealth && partner == null
    {
      this.id := id;
      this.wealth := wealth;
      partner := null;
    }

    /** `see`: the partner becomes one of the other agents; with no other agent it stays as it was. */
    method See(agents: seq<SavingAgent>, pick: nat)
      modifies this`partner
      ensures OtherAgents(agents, id) == [] ==> partner == old(partner)
      ensures OtherAgents(agents, id) != [] ==> partner == OtherAgents(agents, id)[pick % |OtherAgents(agents, id)|]
      ensures OtherAgents(agents, id) != [] ==> partner in agents && partner.id != id
    {
      var possiblePartners := OtherAgents(agents, id);
      if possiblePartners != [] {
        partner := possiblePartners[pick % |possiblePartners|];
      }
    }

    /**
     * `transfer_wealth`: with a partner and positive wealth, one unit moves to
     * the partner; otherwise nothing changes.  The sum of both wealths is
     * kept, and a wealth that was not negative does not become negative.
     */
    method TransferWealth()
      modifies this`wealth, Partners()`wealth
      ensures partner != null && partner != this && old(wealth) > 0 ==>
                wealth == old(wealth) - 1 && partner.wealth == old(partner.wealth) + 1
      ensures partner != null && partner != this ==> wealth + partner.wealth == old(wealth + partner.wealth)
      ensures partner == null || partner == this || old(wealth) <= 0 ==> wealth == old(wealth)
      ensures partner != null && old(wealth) <= 0 ==> partner.wealth == old(partner.wealth)
      ensures old(wealth) >= 0 ==> wealth >= 0
    {
      if partner != null && wealth > 0 {
        var transferAmount := 1;
        partner.wealth := partner.wealth + transferAmount;
        wealth := wealth - transferAmount;
      }
    }

    /** `action`: `None` does nothing, a chosen action runs; saving changes nothing. */
    method Action(act: Option<WealthAction>)
      modifies this`wealth, Partners()`wealth
      ensures act != Some(Transfer) ==> wealth == old(wealth) && (partner != null ==> partner.wealth == old(partner.wealth))
      ensures act == Some(Transfer) && partner != null && partner != this && old(wealth) > 0 ==>
                wealth == old(wealth) - 1 && partner.wealth == old(partner.wealth) + 1
      ensures act == Some(Transfer) && (partner == null || partner == this || old(wealth) <= 0) ==> wealth == old(wealth)
      ensures partner != null && partner != this ==> wealth + partner.wealth == old(wealth + partner.wealth)
    {
      if act == Some(Transfer) {
        TransferWealth();
      }
    }

    /**
     * `step`: see, decide, act.  One unit goes to the newly chosen partner
     * exactly when the agent had more than 5 and another agent to pick; no
     * other agent's wealth changes.
     */
    method Step(agents: seq<SavingAgent>, pick: nat)
      modifies this`partner, this`wealth, Partners()`wealth, (set a | a in agents)`wealth
      ensures OtherAgents(agents, id) == [] ==> partner == old(partner)
      ensures OtherAgents(agents, id) != [] ==> partner == OtherAgents(agents, id)[pick % |OtherAgents(agents, id)|]
      ensures var p := partner; p != null && p != this && old(wealth) > 5 ==>
                wealth == old(wealth) - 1 && p.wealth == old(p.wealth) + 1
      ensures var p := partner; p != null && p != this ==> wealth + p.wealth == old(wealth + p.wealth)
      ensures partner == null || partner == this || old(wealth) <= 5 ==> wealth == old(wealth)
      ensures wealth >= old(wealth) - 1 && (old(wealth) >= 0 ==> wealth >= 0)
      ensures forall a :: a in agents && a != this && a != partner ==> a.wealth == old(a.wealth)
      ensures var q := old(partner); q != null && q != this && q != partner ==> q.wealth == old(q.wealth)
    {
      See(agents, pick);
      var act := Next(wealth, partner != null);
      Action(act);
    }
  }
}
