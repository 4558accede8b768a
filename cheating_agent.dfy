/**
 * The cheating agent of act_general/act7/cheatingAgent.py: it collects the
 * coins of "transfer" messages addressed to it from the shared buffer, and
 * with wealth above 5 and a partner it sends a transfer of 0 coins while
 * keeping its own wealth.
 *
 * `take_msg` removes messages from the list it is iterating over.  Python's
 * list iterator walks by position, so after a removal the element that slid
 * into the current position is skipped; `Take` follows the iterator position
 * exactly, and `SecondTransferIsSkipped` shows the consequence.
 * `list.remove` compares by identity here, `Message` having no `__eq__`.
 */
module CheatingAgents {
  import opened Wrappers
  import opened Act7Messages
  import opened Lists

  const TRANSFER := "transfer"
  const COINS := "coins"

  /** The messages `take_msg` acts on: "transfer" messages addressed to `id`. */
  predicate Matches(m: Message, id: int) {
    m.receiver == id && m.performative == TRANSFER
  }

  /**
   * The loop of `take_msg` from iterator position `i`: the buffer, the wealth,
   * and whether it ran to the end (`false`: a matching message had no "coins"
   * entry and Python raised `KeyError`).
   */
  function Take(buf: seq<Message>, i: nat, id: int, wealth: int): (seq<Message>, int, bool)
    decreases |buf| - i
  {
    if i >= |buf| then (buf, wealth, true)
    else
      var m := buf[i];
      if Matches(m, id) then
        match Lookup(m.content, COINS)
        case None => (buf, wealth, false)
        case Some(coins) => Take(RemoveFirst(buf, m), i + 1, id, wealth + coins)
      else Take(buf, i + 1, id, wealth)
  }

  /** Nothing is added to the buffer, and every message not addressed to the agent as a transfer stays in it. */
  lemma {:induction false} TakeKeepsOtherMessages(buf: seq<Message>, i: nat, id: int, wealth: int)
    ensures forall x :: x in Take(buf, i, id, wealth).0 ==> x in buf
    ensures forall x :: x in buf && !Matches(x, id) ==> x in Take(buf, i, id, wealth).0
    decreases |buf| - i
  {
    if i < |buf| {
      var m := buf[i];
      if Matches(m, id) {
        if Lookup(m.content, COINS).Some? {
          TakeKeepsOtherMessages(RemoveFirst(buf, m), i + 1, id, wealth + Lookup(m.content, COINS).value);
        }
      } else {
        TakeKeepsOtherMessages(buf, i + 1, id, wealth);
      }
    }
  }

  /**
   * Transfers of 0 coins, the only ones cheating agents send, never change
   * the receiver's wealth, and with a "coins" entry in each of them the loop
   * runs to the end.
   */
  lemma {:induction false} ZeroTransfersKeepWealth(buf: seq<Message>, i: nat, id: int, wealth: int)
    requires forall x :: x in buf && Matches(x, id) ==> Lookup(x.content, COINS) == Some(0)
    ensures Take(buf, i, id, wealth).1 == wealth
    ensures Take(buf, i, id, wealth).2
    decreases |buf| - i
  {
    if i < |buf| {
      var m := buf[i];
      if Matches(m, id) {
        ZeroTransfersKeepWealth(RemoveFirst(buf, m), i + 1, id, wealth);
      } else {
        ZeroTransfersKeepWealth(buf, i + 1, id, wealth);
      }
    }
  }

  /** A matching message without a "coins" entry stops the loop with the buffer as it was at that point. */
  lemma MissingCoinsStops(buf: seq<Message>, id: int, wealth: int)
    requires |buf| > 0 && Matches(buf[0], id) && Lookup(buf[0].content, COINS).None?
    ensures Take(buf, 0, id, wealth) == (buf, wealth, false)
  {
  }

  /**
   * Two successive transfers to the agent: the first is collected and
   * removed, the second slides into its position and the iterator steps
   * past it, so it stays in the buffer uncollected.
   */
  lemma SecondTransferIsSkipped(m1: Message, m2: Message, id: int, wealth: int, c1: int, c2: int)
    requires m1 != m2 && Matches(m1, id) && Matches(m2, id)
    requires m1.content == [(COINS, c1)] && m2.content == [(COINS, c2)]
    ensures Take([m1, m2], 0, id, wealth) == ([m2], wealth + c1, true)
  {
    assert Lookup(m1.content, COINS) == Some(c1);
    assert RemoveFirst([m1, m2], m1) == [m2];
  }

  class CheatingAgent {
    const id: int
    var wealth: int
    /** Set to `None` by `setup` and assigned nowhere in the source. */
    var partner: CheatingAgent?

    /** `setup`; the initial wealth is the draw of `np.random.randint(1, 10)`. */
    constructor (id: int, wealth: int)
      requires 1 <= wealth < 10
      ensures this.id == id && this.wealth == wealth && partner == null
    {
      this.id := id;
      this.wealth := wealth;
      partner := null;
    }

    /** `take_msg`: the buffer and the wealth become what `Take` says; `ok` is false where Python raises `KeyError`. */
    method TakeMsg(buffer: MessageBuffer) returns (ok: bool)
      modifies this`wealth, buffer`messages
      ensures (buffer.messages, wealth, ok) == Take(old(buffer.messages), 0, id, old(wealth))
    {
      var i := 0;
      while i < |buffer.messages|
        invariant Take(buffer.messages, i, id, wealth) == Take(old(buffer.messages), 0, id, old(wealth))
        decreases |buffer.messages| - i
      {
        var msg := buffer.messages[i];
        if msg.receiver == id {
          if msg.performative == TRANSFER {
            var coins := Lookup(msg.content, COINS);
            if coins.None? {
              return false;
            }
            wealth := wealth + coins.value;
            buffer.messages := RemoveFirst(buffer.messages, msg);
          }
        }
        i := i + 1;
      }
      return true;
    }

    /** `send_msg`: a new message from this agent goes at the end of the buffer. */
    method SendMsg(receiver: int, performative: string, content: Content, buffer: MessageBuffer) returns (msg: Message)
      modifies buffer`messages
      ensures fresh(msg)
      ensures msg.sender == id && msg.receiver == receiver && msg.performative == performative && msg.content == content
      ensures buffer.messages == old(buffer.messages) + [msg]
    {
      msg := new Message(id, receiver, performative, content);
      msg.Send(buffer);
    }

    /**
     * `step`: collect the transfers addressed to the agent; then, unless that
     * raised, with wealth above 5 and a partner, announce a transfer of 0
     * coins to the partner and keep all of its own wealth.
     */
    method Step(buffer: MessageBuffer)
      modifies this`wealth, buffer`messages
      ensures var t := Take(old(buffer.messages), 0, id, old(wealth));
                wealth == t.1
                && (t.2 && t.1 > 5 && partner != null ==>
                      |buffer.messages| == |t.0| + 1 && buffer.messages[..|t.0|] == t.0
                      && var m := buffer.messages[|t.0|];
                         m.sender == id && m.receiver == partner.id && m.performative == TRANSFER && m.content == [(COINS, 0)])
                && (!(t.2 && t.1 > 5 && partner != null) ==> buffer.messages == t.0)
    {
      var ok := TakeMsg(buffer);
      if !ok {
        return;
      }
      if wealth > 5 && partner != null {
        var coins := [(COINS, 0)];
        var _ := SendMsg(partner.id, TRANSFER, coins, buffer);
        wealth := wealth - 0;
      }
    }
  }
}
