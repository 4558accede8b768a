/**
 * The practical-reasoning agent (act_4/src/agentes/practical_agent.py): all
 * of its wealth lives in `beliefs['wealth']`, which starts at 1.  It desires
 * to transfer while it believes it has wealth and has a partner, and each
 * step runs at most one action, the last intention.  The partner draw
 * (`self.model.agents.random()`) is the entry at `pick` modulo the number of
 * agents, this agent included.
 */
module PracticalAgents {
  import opened WealthRules

  const TRANSFER_DESIRE := "transfer_wealth"

  class PracticalAgent {
    /** `beliefs['wealth']` */
    var believedWealth: int
    /** `beliefs['partner']` */
    var partner: PracticalAgent?
    var desires: seq<string>
    var intentions: seq<WealthAction>
    var plan: seq<WealthAction>

    /** The partner, when one is set. */
    function Partners(): set<PracticalAgent>
      reads this`partner
    {
      if partner == null then {} else {partner}
    }

    /** `setup`: believed wealth 1, no partner, nothing desired, intended or planned. */
    constructor ()
      ensures believedWealth == 1 && partner == null
      ensures desires == [] && intentions == [] && plan == []
    {
      believedWealth := 1;
      partner := null;
      desires := [];
      intentions := [];
      plan := [];
    }

    /** `perceive`: any agent, this one included, may become the partner. */
    method Perceive(agents: seq<PracticalAgent>, pick: nat)
      requires |agents| > 0
      modifies this`partner
      ensures partner == agents[pick % |agents|]
    {
      partner := agents[pick % |agents|];
    }

    /** `deliberate`: the transfer desire exactly when the believed wealth is positive and a partner is set. */
    method Deliberate()
      modifies this`desires
      ensures desires == [TRANSFER_DESIRE] <==> believedWealth > 0 && partner != null
      ensures desires == [] <==> !(believedWealth > 0 && partner != null)
    {
      desires := [];
      if believedWealth > 0 && partner != null {
        desires := desires + [TRANSFER_DESIRE];
      }
    }

    /** `filter_intentions`: the transfer intention exactly when it is desired. */
    method FilterIntentions()
      modifies this`intentions
      ensures intentions == (if TRANSFER_DESIRE in desires then [Transfer] else [])
    {
      intentions := [];
      if TRANSFER_DESIRE in desires {
        intentions := intentions + [Transfer];
      }
    }

    /**
     * `transfer_wealth`: with a partner, one unit of believed wealth moves to
     * it; to itself that is no change.  The sum of both is kept.
     */
    method TransferWealth()
      modifies this`believedWealth, Partners()`believedWealth
      ensures partner == null || partner == this ==> believedWealth == old(believedWealth)
      ensures partner != null && partner != this ==>
                believedWealth == old(believedWealth) - 1 && partner.believedWealth == old(partner.believedWealth) + 1
      ensures partner != null && partner != this ==>
                believedWealth + partner.believedWealth == old(believedWealth + partner.believedWealth)
    {
      if partner != null {
        partner.believedWealth := partner.believedWealth + 1;
        believedWealth := believedWealth - 1;
      }
    }

    /**
     * `execute`: the head of the plan runs, or, with an empty plan, the LAST
     * intention (`pop()`); at most one action per call.
     */
    method Execute()
      modifies this`plan, this`intentions, this`believedWealth, Partners()`believedWealth
      ensures old(plan) != [] ==> plan == old(plan)[1..] && intentions == old(intentions)
      ensures old(plan) == [] && old(intentions) != [] ==> plan == [] && intentions == old(intentions)[..|old(intentions)| - 1]
      ensures old(plan) == [] && old(intentions) == [] ==> plan == [] && intentions == []
      ensures var ran := if old(plan) != [] then [old(plan)[0]] else if old(intentions) != [] then [old(intentions)[|old(intentions)| - 1]] else [];
                ran != [Transfer] ==> believedWealth == old(believedWealth) && (partner != null ==> partner.believedWealth == old(partner.believedWealth))
      ensures var ran := if old(plan) != [] then [old(plan)[0]] else if old(intentions) != [] then [old(intentions)[|old(intentions)| - 1]] else [];
                ran == [Transfer] && partner != null && partner != this ==>
                  believedWealth == old(believedWealth) - 1 && partner.believedWealth == old(partner.believedWealth) + 1
      ensures var ran := if old(plan) != [] then [old(plan)[0]] else if old(intentions) != [] then [old(intentions)[|old(intentions)| - 1]] else [];
                ran == [Transfer] && (partner == null || partner == this) ==> believedWealth == old(believedWealth)
    {
      if plan == [] && intentions != [] {
        plan := [intentions[|intentions| - 1]];
        intentions := intentions[..|intentions| - 1];
      }
      if plan != [] {
        var action := plan[0];
        plan := plan[1..];
        if action == Transfer {
          TransferWealth();
        }
      }
    }

    /**
     * `step` from an empty plan: one unit of believed wealth goes to a
     * partner other than itself exactly when the believed wealth is
     * positive, so a step never takes it below 0.  The plan ends empty.
     */
    method Step(agents: seq<PracticalAgent>, pick: nat)
      requires |agents| > 0 && plan == []
      modifies this`partner, this`desires, this`intentions, this`plan, this`believedWealth
      modifies (set a | a in agents)`believedWealth
      ensures partner == agents[pick % |agents|] && plan == []
      ensures var p := partner; p != this && old(believedWealth) > 0 ==>
                believedWealth == old(believedWealth) - 1 && p.believedWealth == old(p.believedWealth) + 1
      ensures partner == this || old(believedWealth) <= 0 ==> believedWealth == old(believedWealth)
      ensures old(believedWealth) >= 0 ==> believedWealth >= 0
      ensures var p := partner; p != this && old(believedWealth) <= 0 ==> p.believedWealth == old(p.believedWealth)
      ensures var p := partner; p != this ==> believedWealth + p.believedWealth == old(believedWealth + p.believedWealth)
      ensures desires == (if old(believedWealth) > 0 then [TRANSFER_DESIRE] else [])
      ensures intentions == []
      ensures forall a :: a in agents && a != this && a != partner ==> a.believedWealth == old(a.believedWealth)
    {
      Perceive(agents, pick);
      Deliberate();
      FilterIntentions();
      Execute();
    }
  }
}
