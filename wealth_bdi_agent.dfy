/**
 * The BDI wealth agent (act_general/act_4/src/agentes/wealth_bdi_agent.py):
 * beliefs about its own wealth and a partner, at most one desire, intentions
 * derived from the desires, and a plan of at most one action per step.
 * The partner draw (`self.model.random.choice`) is the entry at `pick`
 * modulo the number of candidates.
 */
module WealthBdiAgents {
  import opened Wrappers
  import opened WealthRules

  const TRANSFER_DESIRE := "transfer_wealth"
  const SAVE_DESIRE := "save_wealth"

  /** The intention a desire names in `filter_intentions`; other names give none. */
  function IntentionOf(desire: string): Option<WealthAction> {
    if desire == TRANSFER_DESIRE then Some(Transfer)
    else if desire == SAVE_DESIRE then Some(Save)
    else None
  }

  /** The intentions of `desires`, in their order, skipping unknown names. */
  function IntentionsFor(desires: seq<string>): seq<WealthAction>
    decreases |desires|
  {
    if desires == [] then []
    else
      var d := desires[|desires| - 1];
      IntentionsFor(desires[..|desires| - 1]) + (if IntentionOf(d).Some? then [IntentionOf(d).value] else [])
  }

  /** For known desires the intentions correspond one to one, in order. */
  lemma {:induction false} IntentionsOneToOne(desires: seq<string>)
    requires forall k :: 0 <= k < |desires| ==> IntentionOf(desires[k]).Some?
    ensures |IntentionsFor(desires)| == |desires|
    ensures forall k :: 0 <= k < |desires| ==> IntentionsFor(desires)[k] == IntentionOf(desires[k]).value
    decreases |desires|
  {
    if desires != [] {
      var init := desires[..|desires| - 1];
      assert forall k :: 0 <= k < |init| ==> init[k] == desires[k];
      IntentionsOneToOne(init);
    }
  }

  /** The action `execute` runs: the head of the plan, else the first intention. */
  function NextPlanned(plan: seq<WealthAction>, intentions: seq<WealthAction>): Option<WealthAction> {
    if plan != [] then Some(plan[0])
    else if intentions != [] then Some(intentions[0])
    else None
  }

  class WealthBDIAgent {
    const id: int
    var wealth: int
    /** `beliefs['wealth']` */
    var believedWealth: int
    /** `beliefs['partner']` */
    var partner: WealthBDIAgent?
    var desires: seq<string>
    var intentions: seq<WealthAction>
    var plan: seq<WealthAction>

    /** The partner, when one is set. */
    function Partners(): set<WealthBDIAgent>
      reads this`partner
    {
      if partner == null then {} else {partner}
    }

    /** `setup`; the initial wealth is the draw of `random.randint(1, 10)`, both ends included. */
    constructor (id: int, wealth: int)
      requires 1 <= wealth <= 10
      ensures this.id == id && this.wealth == wealth && believedWealth == wealth && partner == null
      ensures desires == [] && intentions == [] && plan == []
    {
      this.id := id;
      this.wealth := wealth;
      believedWealth := wealth;
      partner := null;
      desires := [];
      intentions := [];
      plan := [];
    }

    /**
     * `perceive`: with another agent to pick, the partner becomes one of the
     * others and the believed wealth is resynchronised; otherwise both
     * beliefs stay as they were.
     */
    method Perceive(agents: seq<WealthBDIAgent>, pick: nat)
      modifies this`partner, this`believedWealth
      ensures var others := OtherAgents(agents, id);
                others == [] ==> partner == old(partner) && believedWealth == old(believedWealth)
      ensures var others := OtherAgents(agents, id);
                others != [] ==> partner == others[pick % |others|] && partner.id != id && believedWealth == wealth
    {
      var possiblePartners := OtherAgents(agents, id);
      if possiblePartners != [] {
        partner := possiblePartners[pick % |possiblePartners|];
        believedWealth := wealth;
      }
    }

    /** `deliberate`: at most one desire, to transfer above a believed 3 with a partner, to save at 3 or less. */
    method Deliberate()
      modifies this`desires
      ensures |desires| <= 1
      ensures desires == [TRANSFER_DESIRE] <==> believedWealth > 3 && partner != null
      ensures desires == [SAVE_DESIRE] <==> believedWealth <= 3
      ensures desires == [] <==> believedWealth > 3 && partner == null
    {
      assert TRANSFER_DESIRE[0] != SAVE_DESIRE[0] && [TRANSFER_DESIRE][0] != [SAVE_DESIRE][0];
      desires := [];
      if believedWealth > 3 && partner != null {
        desires := desires + [TRANSFER_DESIRE];
      }
      if believedWealth <= 3 {
        desires := desires + [SAVE_DESIRE];
      }
    }

    /** `filter_intentions`: one intention per known desire, in the order of the desires. */
    method FilterIntentions()
      modifies this`intentions
      ensures intentions == IntentionsFor(desires)
    {
      intentions := [];
      var i := 0;
      while i < |desires|
        invariant 0 <= i <= |desires|
        invariant intentions == IntentionsFor(desires[..i])
      {
        var desire := desires[i];
        assert desires[..i + 1][..i] == desires[..i];
        if desire == TRANSFER_DESIRE {
          intentions := intentions + [Transfer];
        } else if desire == SAVE_DESIRE {
          intentions := intentions + [Save];
        }
        i := i + 1;
      }
      assert desires[..|desires|] == desires;
    }

    /**
     * `transfer_wealth`: with a partner and positive wealth, one unit moves to
     * the partner and the belief follows the new wealth; otherwise nothing
     * changes.  The sum of both wealths is kept.
     */
    method TransferWealth()
      modifies this`wealth, this`believedWealth, Partners()`wealth
      ensures partner != null && partner != this && old(wealth) > 0 ==>
                wealth == old(wealth) - 1 && partner.wealth == old(partner.wealth) + 1
      ensures partner != null && partner != this ==> wealth + partner.wealth == old(wealth + partner.wealth)
      ensures partner == null || partner == this || old(wealth) <= 0 ==> wealth == old(wealth)
      ensures partner != null && old(wealth) > 0 ==> believedWealth == wealth
      ensures partner == null || old(wealth) <= 0 ==> believedWealth == old(believedWealth)
      ensures partner != null && old(wealth) <= 0 ==> partner.wealth == old(partner.wealth)
    {
      if partner != null && wealth > 0 {
        var transferAmount := 1;
        partner.wealth := partner.wealth + transferAmount;
        wealth := wealth - transferAmount;
        believedWealth := wealth;
      }
    }

    /**
     * `execute`: the head of the plan, or, with an empty plan, the first
     * intention, runs; at most one action per call.  `save_wealth` changes
     * nothing.
     */
    method Execute()
      modifies this`plan, this`intentions, this`wealth, this`believedWealth, Partners()`wealth
      ensures old(plan) != [] ==> plan == old(plan)[1..] && intentions == old(intentions)
      ensures old(plan) == [] && old(intentions) != [] ==> plan == [] && intentions == old(intentions)[1..]
      ensures old(plan) == [] && old(intentions) == [] ==> plan == [] && intentions == []
      ensures NextPlanned(old(plan), old(intentions)) != Some(Transfer) ==>
                wealth == old(wealth) && believedWealth == old(believedWealth)
                && (partner != null ==> partner.wealth == old(partner.wealth))
      ensures NextPlanned(old(plan), old(intentions)) == Some(Transfer) && partner != null && partner != this && old(wealth) > 0 ==>
                wealth == old(wealth) - 1 && partner.wealth == old(partner.wealth) + 1 && believedWealth == wealth
      ensures NextPlanned(old(plan), old(intentions)) == Some(Transfer) && (partner == null || partner == this || old(wealth) <= 0) ==>
                wealth == old(wealth)
      ensures NextPlanned(old(plan), old(intentions)) == Some(Transfer) && partner != null && old(wealth) > 0 ==> believedWealth == wealth
      ensures NextPlanned(old(plan), old(intentions)) == Some(Transfer) && (partner == null || old(wealth) <= 0) ==>
                believedWealth == old(believedWealth)
      ensures NextPlanned(old(plan), old(intentions)) == Some(Transfer) && partner != null && old(wealth) <= 0 ==>
                partner.wealth == old(partner.wealth)
    {
      if plan == [] && intentions != [] {
        plan := [intentions[0]];
        intentions := intentions[1..];
      }
      if plan != [] {
        var action := plan[0];
        plan := plan[1..];
        if action == Transfer {
          TransferWealth();
        }
      }
    }

    /**
     * `step` from an empty plan: the partner and beliefs are perceived, and
     * one unit goes to a partner other than itself exactly when the believed
     * wealth is above 3 and the real wealth is positive.  The plan ends empty.
     */
    method Step(agents: seq<WealthBDIAgent>, pick: nat)
      requires plan == []
      modifies this`partner, this`believedWealth, this`desires, this`intentions, this`plan, this`wealth
      modifies Partners()`wealth, (set a | a in agents)`wealth
      ensures var others := OtherAgents(agents, id);
                others != [] ==> partner == others[pick % |others|]
      ensures var others := OtherAgents(agents, id);
                others == [] ==> partner == old(partner)
      ensures plan == []
      ensures var p := partner; var believed := (if OtherAgents(agents, id) == [] then old(believedWealth) else old(wealth));
                p != null && p != this && believed > 3 && old(wealth) > 0 ==>
                  wealth == old(wealth) - 1 && p.wealth == old(p.wealth) + 1
      ensures var believed := (if OtherAgents(agents, id) == [] then old(believedWealth) else old(wealth));
                partner == null || partner == this || believed <= 3 || old(wealth) <= 0 ==> wealth == old(wealth)
      ensures var p := partner; var believed := (if OtherAgents(agents, id) == [] then old(believedWealth) else old(wealth));
                p != null && p != this && !(believed > 3 && old(wealth) > 0) ==> p.wealth == old(p.wealth)
      ensures var p := partner; p != null && p != this ==> wealth + p.wealth == old(wealth + p.wealth)
      ensures var believed := (if OtherAgents(agents, id) == [] then old(believedWealth) else old(wealth));
                desires == (if believed > 3 && partner != null then [TRANSFER_DESIRE] else if believed <= 3 then [SAVE_DESIRE] else [])
      ensures intentions == []
      ensures var believed := (if OtherAgents(agents, id) == [] then old(believedWealth) else old(wealth));
                believedWealth == (if believed > 3 && partner != null && old(wealth) > 0 then wealth else believed)
      ensures forall a :: a in agents && a != this && a != partner ==> a.wealth == old(a.wealth)
      ensures var q := old(partner); q != null && q != this && q != partner ==> q.wealth == old(q.wealth)
    {
      Perceive(agents, pick);
      Deliberate();
      FilterIntentions();
      Execute();
    }
  }

  /** `[agent for agent in self.model.agents if agent.id != self.id]`. */
  function OtherAgents(agents: seq<WealthBDIAgent>, id: int): (r: seq<WealthBDIAgent>)
    ensures forall k :: 0 <= k < |r| ==> r[k] in agents && r[k].id != id
    ensures forall k :: 0 <= k < |agents| && agents[k].id != id ==> agents[k] in r
    decreases |agents|
  {
    if agents == [] then []
    else
      var rest := OtherAgents(agents[1..], id);
      assert forall k :: 1 <= k < |agents| ==> agents[k] == agents[1..][k - 1];
      (if agents[0].id != id then [agents[0]] else []) + rest
  }
}
