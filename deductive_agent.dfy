/**
 * The deductive agent of act_4/src/agentes/deductive_agent.py: the same rule
 * engine as the saving agent, but `see` draws the partner from all agents,
 * itself included, and a transfer does not check the agent's own wealth.
 * The draw (`self.model.random.choice`) is the entry at `pick` modulo the
 * number of agents.
 */
module DeductiveAgents {
  import opened Wrappers
  import opened WealthRules

  class SavingAgent {
    const id: int
    var wealth: int
    /** `beliefs['partner']` */
    var partner: SavingAgent?

    /** The partner, when one is set. */
    function Partners(): set<SavingAgent>
      reads this`partner
    {
      if partner == null then {} else {partner}
    }

    /** `setup`; the initial wealth is the draw of `np.random.randint(1, 10)`. */
    constructor (id: int, wealth: int)
      requires 1 <= wealth < 10
      ensures this.id == id && this.wealth == wealth && partner == null
    {
      this.id := id;
      this.wealth := wealth;
      partner := null;
    }

    /** `see`: any agent, this one included, may become the partner; `random.choice` needs a non-empty list. */
    method See(agents: seq<SavingAgent>, pick: nat)
      requires |agents| > 0
      modifies this`partner
      ensures partner == agents[pick % |agents|]
    {
      partner := agents[pick % |agents|];
    }

    /**
     * `transfer_wealth`: with a partner, one unit moves to it, whatever the
     * agent's own wealth; to itself that is no change.  The sum of both
     * wealths is kept.
     */
    method TransferWealth()
      modifies this`wealth, Partners()`wealth
      ensures partner == null || partner == this ==> wealth == old(wealth)
      ensures partner != null && partner != this ==>
                wealth == old(wealth) - 1 && partner.wealth == old(partner.wealth) + 1
      ensures partner != null && partner != this ==> wealth + partner.wealth == old(wealth + partner.wealth)
    {
      if partner != null {
        partner.wealth := partner.wealth + 1;
        wealth := wealth - 1;
      }
    }

    /** `action`: `None` does nothing, a chosen action runs; `save_wealth` is a no-op. */
    method Action(act: Option<WealthAction>)
      modifies this`wealth, Partners()`wealth
      ensures act != Some(Transfer) ==> wealth == old(wealth) && (partner != null ==> partner.wealth == old(partner.wealth))
      ensures act == Some(Transfer) && (partner == null || partner == this) ==> wealth == old(wealth)
      ensures act == Some(Transfer) && partner != null && partner != this ==>
                wealth == old(wealth) - 1 && partner.wealth == old(partner.wealth) + 1
    {
      if act == Some(Transfer) {
        TransferWealth();
      }
    }

    /**
     * `step`: see, decide, act.  A transfer happens only from a wealth above
     * 5, so the agent never ends a step below 5 because of its own transfer.
     */
    method Step(agents: seq<SavingAgent>, pick: nat)
      requires |agents| > 0
      modifies this`partner, this`wealth, (set a | a in agents)`wealth
      ensures partner == agents[pick % |agents|]
      ensures var p := partner; p != this && old(wealth) > 5 ==>
                wealth == old(wealth) - 1 && p.wealth == old(p.wealth) + 1
      ensures partner == this || old(wealth) <= 5 ==> wealth == old(wealth)
      ensures wealth != old(wealth) ==> old(wealth) > 5 && wealth >= 5
      ensures var p := partner; p != this ==> wealth + p.wealth == old(wealth + p.wealth)
      ensures forall a :: a in agents && a != this && a != partner ==> a.wealth == old(a.wealth)
    {
      See(agents, pick);
      var act := Next(wealth, partner != null);
      Action(act);
    }
  }
}
