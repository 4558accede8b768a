/**
 * The hybrid agent (act_5/hybrid_agent.py): a reactive layer that saves when
 * wealth is low, a deliberative layer that transfers when wealth is high and
 * a partner is set, and an integration in which the reactive layer wins.
 * The partner draw (`self.model.random.choice`) is the entry at `pick`
 * modulo the number of agents, this agent included.
 */
module HybridAgents {
  import opened Wrappers
  import opened WealthRules

  /** `react`: save when wealth is below 3, and no decision otherwise. */
  function React(wealth: int): (r: Option<WealthAction>)
    ensures r == Some(Save) <==> wealth < 3
    ensures r.None? <==> wealth >= 3
  {
    if wealth < 3 then Some(Save) else None
  }

  /** `deliberate`: transfer when a partner is set and wealth is above 5, and no decision otherwise. */
  function Deliberate(wealth: int, hasPartner: bool): (r: Option<WealthAction>)
    ensures r == Some(Transfer) <==> hasPartner && wealth > 5
    ensures r.None? <==> !(hasPartner && wealth > 5)
  {
    if hasPartner && wealth > 5 then Some(Transfer) else None
  }

  /** `integrate`: the reactive decision when there is one, else the deliberative one. */
  function Integrate(wealth: int, hasPartner: bool): Option<WealthAction> {
    var reactive := React(wealth);
    if reactive.Some? then reactive else Deliberate(wealth, hasPartner)
  }

  /**
   * The layers never disagree on an input: saving for wealth below 3,
   * transferring for wealth above 5 with a partner, and nothing for wealth
   * from 3 to 5 or above 5 without a partner.
   */
  lemma IntegrateDecides(wealth: int, hasPartner: bool)
    ensures Integrate(wealth, hasPartner) == Some(Save) <==> wealth < 3
    ensures Integrate(wealth, hasPartner) == Some(Transfer) <==> wealth > 5 && hasPartner
    ensures Integrate(wealth, hasPartner).None? <==> 3 <= wealth <= 5 || (wealth > 5 && !hasPartner)
    ensures React(wealth).Some? ==> Integrate(wealth, hasPartner) == React(wealth)
  {
  }

  class HybridAgent {
    var wealth: int
    /** `beliefs['partner']` */
    var partner: HybridAgent?

    /** The partner, when one is set. */
    function Partners(): set<HybridAgent>
      reads this`partner
    {
      if partner == null then {} else {partner}
    }

    /** `setup`; the initial wealth is the draw of `np.random.randint(1, 10)`. */
    constructor (wealth: int)
      requires 1 <= wealth < 10
      ensures this.wealth == wealth && partner == null
    {
      this.wealth := wealth;
      partner := null;
    }

    /** `see`: any agent, this one included, may become the partner; `random.choice` needs a non-empty list. */
    method See(agents: seq<HybridAgent>, pick: nat)
      requires |agents| > 0
      modifies this`partner
      ensures partner == agents[pick % |agents|]
    {
      partner := agents[pick % |agents|];
    }

    /** `transfer_wealth`: with a partner, one unit moves to it; to itself that is no change. */
    method TransferWealth()
      modifies this`wealth, Partners()`wealth
      ensures partner == null || partner == this ==> wealth == old(wealth)
      ensures partner != null && partner != this ==>
                wealth == old(wealth) - 1 && partner.wealth == old(partner.wealth) + 1
      ensures partner != null && partner != this ==> wealth + partner.wealth == old(wealth + partner.wealth)
    {
      if partner != null {
        partner.wealth := partner.wealth + 1;
        wealth := wealth - 1;
      }
    }

    /**
     * `step`: see, integrate, run the chosen action (`save_wealth` is a
     * no-op).  A transfer starts from wealth above 5, so it ends at 5 or more.
     */
    method Step(agents: seq<HybridAgent>, pick: nat)
      requires |agents| > 0
      modifies this`partner, this`wealth, (set a | a in agents)`wealth
      ensures partner == agents[pick % |agents|]
      ensures var p := partner; p != this && old(wealth) > 5 ==>
                wealth == old(wealth) - 1 && p.wealth == old(p.wealth) + 1
      ensures partner == this || old(wealth) <= 5 ==> wealth == old(wealth)
      ensures wealth != old(wealth) ==> old(wealth) > 5 && wealth >= 5
      ensures var p := partner; p != this ==> wealth + p.wealth == old(wealth + p.wealth)
      ensures forall a :: a in agents && a != this && a != partner ==> a.wealth == old(a.wealth)
    {
      See(agents, pick);
      var action := Integrate(wealth, partner != null);
      if action == Some(Transfer) {
        TransferWealth();
      }
    }
  }
}
