/**
 * The contract-net agents of act_9/wealthAgent.py and their messages
 * (act_general/act_9/message.py).  A manager announces a task (an amount
 * to pay to a receiver) with a call for proposals to every other agent;
 * workers answer with a proposal whose cost is the distance between the
 * amount and their wealth; the manager accepts the cheapest proposal and
 * the chosen worker pays the amount to the receiver, then reports back.
 *
 * The class-level `Message.environment_buffer` is an explicit
 * `MessageBuffer`; the model's agent list, the random receiver choice and
 * the `np.random.randint(1, 5)` amount are parameters.  Messages name their
 * sender and receiver by object, and `agent != self` is identity.
 */
module ContractNet {
  import opened Lists

  const CALL_FOR_PROPOSAL := "call-for-proposal"
  const PROPOSE := "propose"
  const ACCEPT_PROPOSAL := "accept-proposal"
  const INFORM := "inform"
  const TASK_COMPLETED := "Task completed"
  const MANAGER := "manager"
  const WORKER := "worker"

  /** A task dictionary: `{"amount": …, "receiver": …}`. */
  datatype Task = Task(amount: int, receiver: WealthAgent)

  /** The three kinds of content the agents put in messages. */
  datatype Content =
    | TaskContent(task: Task)
    | CostContent(cost: int)
    | Text(text: string)

  class Message {
    const sender: WealthAgent
    const receiver: WealthAgent
    const performative: string
    const content: Content

    /** `__init__`: the four fields as given. */
    constructor (sender: WealthAgent, receiver: WealthAgent, performative: string, content: Content)
      ensures this.sender == sender && this.receiver == receiver
      ensures this.performative == performative && this.content == content
    {
      this.sender := sender;
      this.receiver := receiver;
      this.performative := performative;
      this.content := content;
    }

    /** `send`: this message goes at the end of the shared buffer; what was there stays, in order. */
    method Send(buffer: MessageBuffer)
      modifies buffer`messages
      ensures buffer.messages == old(buffer.messages) + [this]
    {
      buffer.messages := buffer.messages + [this];
    }
  }

  /** `Message.environment_buffer`. */
  class MessageBuffer {
    var messages: seq<Message>

    constructor ()
      ensures messages == []
    {
      messages := [];
    }
  }

  /** `[agent for agent in agents if agent != me]`. */
  function Others(agents: seq<WealthAgent>, me: WealthAgent): seq<WealthAgent>
    decreases |agents|
  {
    if agents == [] then []
    else
      var last := agents[|agents| - 1];
      Others(agents[..|agents| - 1], me) + (if last != me then [last] else [])
  }

  /** The others are exactly the agents other than `me`. */
  lemma {:induction false} OthersExact(agents: seq<WealthAgent>, me: WealthAgent)
    ensures forall a :: a in Others(agents, me) <==> a in agents && a != me
    decreases |agents|
  {
    if agents != [] {
      var init := agents[..|agents| - 1];
      OthersExact(init, me);
      assert agents == init + [agents[|agents| - 1]];
    }
  }

  /** `[msg for msg in buffer if msg.receiver == me and msg.performative == "propose"]`. */
  function Proposals(buf: seq<Message>, me: WealthAgent): seq<Message>
    decreases |buf|
  {
    if buf == [] then []
    else
      var last := buf[|buf| - 1];
      Proposals(buf[..|buf| - 1], me) + (if last.receiver == me && last.performative == PROPOSE then [last] else [])
  }

  /** The proposals are exactly the "propose" messages addressed to `me`. */
  lemma {:induction false} ProposalsExact(buf: seq<Message>, me: WealthAgent)
    ensures forall m :: m in Proposals(buf, me) <==> m in buf && m.receiver == me && m.performative == PROPOSE
    decreases |buf|
  {
    if buf != [] {
      var init := buf[..|buf| - 1];
      ProposalsExact(init, me);
      assert buf == init + [buf[|buf| - 1]];
    }
  }

  /** Whether `content["cost"]` can be read: Python raises for any other content. */
  predicate HasCosts(ps: seq<Message>) {
    forall k :: 0 <= k < |ps| ==> ps[k].content.CostContent?
  }

  /** The position `min(ps, key=lambda x: x.content["cost"])` returns: Python keeps the first of equal minima. */
  function BestIndex(ps: seq<Message>): (r: nat)
    requires |ps| > 0 && HasCosts(ps)
    ensures r < |ps|
    decreases |ps|
  {
    if |ps| == 1 then 0
    else
      var j := BestIndex(ps[..|ps| - 1]);
      if ps[|ps| - 1].content.cost < ps[j].content.cost then |ps| - 1 else j
  }

  /** The chosen proposal has the least cost, and every earlier one costs strictly more. */
  lemma {:induction false} BestIndexIsFirstMinimum(ps: seq<Message>)
    requires |ps| > 0 && HasCosts(ps)
    ensures forall k :: 0 <= k < |ps| ==> ps[BestIndex(ps)].content.cost <= ps[k].content.cost
    ensures forall k :: 0 <= k < BestIndex(ps) ==> ps[k].content.cost > ps[BestIndex(ps)].content.cost
    decreases |ps|
  {
    if |ps| > 1 {
      var init := ps[..|ps| - 1];
      BestIndexIsFirstMinimum(init);
      assert forall k :: 0 <= k < |init| ==> init[k] == ps[k];
    }
  }

  /** The messages a worker answers: calls for proposals and acceptances addressed to it. */
  predicate Trigger(m: Message, me: WealthAgent) {
    m.receiver == me && (m.performative == CALL_FOR_PROPOSAL || m.performative == ACCEPT_PROPOSAL)
  }

  /** The messages of `buf` a worker answers, in order. */
  function Triggers(buf: seq<Message>, me: WealthAgent): seq<Message>
    decreases |buf|
  {
    if buf == [] then []
    else
      var last := buf[|buf| - 1];
      Triggers(buf[..|buf| - 1], me) + (if Trigger(last, me) then [last] else [])
  }

  /** The triggers among the first `i` messages of `buf`, or all of them once `i` reaches its end. */
  function TriggersBefore(buf: seq<Message>, i: nat, me: WealthAgent): seq<Message> {
    Triggers(buf[..if i < |buf| then i else |buf|], me)
  }

  /** One more message: the triggers grow by that message when it is one. */
  lemma TriggersBeforeStep(buf: seq<Message>, i: nat, me: WealthAgent)
    requires i < |buf|
    ensures TriggersBefore(buf, i + 1, me) == TriggersBefore(buf, i, me) + (if Trigger(buf[i], me) then [buf[i]] else [])
  {
    assert buf[..i + 1][..i] == buf[..i];
  }

  /** A worker's answers never trigger an answer: they are proposals and reports. */
  lemma AnswersAreNotTriggers(m: Message, me: WealthAgent)
    requires m.performative == PROPOSE || m.performative == INFORM
    ensures !Trigger(m, me)
  {
    assert PROPOSE[0] != CALL_FOR_PROPOSAL[0] && PROPOSE[0] != ACCEPT_PROPOSAL[0];
    assert INFORM[0] != CALL_FOR_PROPOSAL[0] && INFORM[0] != ACCEPT_PROPOSAL[0];
  }

  /**
   * `a` is `me`'s answer to `t`: to its sender, a proposal with a cost that
   * is never negative for a call for proposals, the report "Task completed"
   * for an acceptance.
   */
  predicate Answers(a: Message, t: Message, me: WealthAgent) {
    a.sender == me && a.receiver == t.sender
    && (t.performative == CALL_FOR_PROPOSAL ==>
          a.performative == PROPOSE && a.content.CostContent? && a.content.cost >= 0)
    && (t.performative == ACCEPT_PROPOSAL ==> a.performative == INFORM && a.content == Text(TASK_COMPLETED))
  }

  /** Whether `m` was sent by `me` as one of its answers. */
  predicate AnswerFrom(m: Message, me: WealthAgent) {
    m.sender == me && (m.performative == PROPOSE || m.performative == INFORM) && !m.content.TaskContent?
  }

  /** `m` is `me`'s call for proposals on `task` to `to`. */
  predicate CallFor(m: Message, me: WealthAgent, to: WealthAgent, task: Task) {
    m.sender == me && m.receiver == to && m.performative == CALL_FOR_PROPOSAL && m.content == TaskContent(task)
  }

  /** The receivers of the tasks carried by `buf`: the agents whose wealth a worker may pay into. */
  function TaskReceivers(buf: seq<Message>): set<WealthAgent> {
    set k | 0 <= k < |buf| && buf[k].content.TaskContent? :: buf[k].content.task.receiver
  }

  /**
   * `msgs` is the buffer after answering the first `i` messages of `start`:
   * `start` untouched in front, then one answer from `me` per trigger so far,
   * in order.
   */
  predicate AnsweredUpTo(msgs: seq<Message>, start: seq<Message>, i: nat, me: WealthAgent) {
    && |msgs| == |start| + |TriggersBefore(start, i, me)|
    && msgs[..|start|] == start
    && (forall k :: |start| <= k < |msgs| ==> AnswerFrom(msgs[k], me))
    && (forall k :: 0 <= k < |TriggersBefore(start, i, me)| ==> Answers(msgs[|start| + k], TriggersBefore(start, i, me)[k], me))
  }

  /** Answering the message at position `i` extends `AnsweredUpTo` by that message, or leaves it where a content raises. */
  lemma AnsweredStep(msgs: seq<Message>, msgs2: seq<Message>, start: seq<Message>, i: nat, me: WealthAgent)
    requires i < |start| && AnsweredUpTo(msgs, start, i, me)
    requires !(Trigger(start[i], me) && start[i].content.TaskContent?) ==> msgs2 == msgs
    requires Trigger(start[i], me) && start[i].content.TaskContent? ==>
               |msgs2| == |msgs| + 1 && msgs2[..|msgs|] == msgs
               && Answers(msgs2[|msgs|], start[i], me) && AnswerFrom(msgs2[|msgs|], me)
    ensures Trigger(start[i], me) && !start[i].content.TaskContent? ==> AnsweredUpTo(msgs2, start, i, me)
    ensures !(Trigger(start[i], me) && !start[i].content.TaskContent?) ==> AnsweredUpTo(msgs2, start, i + 1, me)
  {
    TriggersBeforeStep(start, i, me);
    if Trigger(start[i], me) && start[i].content.TaskContent? {
      assert forall k :: 0 <= k < |msgs| ==> msgs2[k] == msgs[k];
      assert msgs2[..|start|] == msgs[..|start|];
    }
  }

  /** Whether answering `m` with wealth `w` makes `me` pay: an accepted task it can afford, for another receiver. */
  predicate Pays(m: Message, me: WealthAgent, w: int) {
    m.performative == ACCEPT_PROPOSAL && m.content.TaskContent?
    && w >= m.content.task.amount && m.content.task.receiver != me
  }

  /**
   * A worker's pass over `buf` from wealth `w0`: its wealth afterwards, and
   * whether it ran to the end.  It stops at the first message it answers
   * whose content is not a task (Python raises there).
   */
  function PassWealth(buf: seq<Message>, me: WealthAgent, w0: int): (int, bool)
    decreases |buf|
  {
    if buf == [] then (w0, true)
    else
      var r := PassWealth(buf[..|buf| - 1], me, w0);
      var m := buf[|buf| - 1];
      if !r.1 || !Trigger(m, me) then r
      else if !m.content.TaskContent? then (r.0, false)
      else if Pays(m, me, r.0) then (r.0 - m.content.task.amount, true)
      else r
  }

  /** What the same pass pays into the wealth of `a`. */
  function PassPaidTo(buf: seq<Message>, me: WealthAgent, w0: int, a: WealthAgent): int
    decreases |buf|
  {
    if buf == [] then 0
    else
      var init := buf[..|buf| - 1];
      var r := PassWealth(init, me, w0);
      var m := buf[|buf| - 1];
      PassPaidTo(init, me, w0, a)
        + (if r.1 && Trigger(m, me) && Pays(m, me, r.0) && m.content.task.receiver == a then m.content.task.amount else 0)
  }

  /** What the same pass pays out in all. */
  function PassPaidTotal(buf: seq<Message>, me: WealthAgent, w0: int): int
    decreases |buf|
  {
    if buf == [] then 0
    else
      var init := buf[..|buf| - 1];
      var r := PassWealth(init, me, w0);
      var m := buf[|buf| - 1];
      PassPaidTotal(init, me, w0) + (if r.1 && Trigger(m, me) && Pays(m, me, r.0) then m.content.task.amount else 0)
  }

  /** The worker loses exactly what it pays out, never goes below 0 from a non-negative start, and never pays itself. */
  lemma {:induction false} PassConserves(buf: seq<Message>, me: WealthAgent, w0: int)
    ensures PassWealth(buf, me, w0).0 + PassPaidTotal(buf, me, w0) == w0
    ensures w0 >= 0 ==> PassWealth(buf, me, w0).0 >= 0
    ensures PassPaidTo(buf, me, w0, me) == 0
    decreases |buf|
  {
    if buf != [] {
      PassConserves(buf[..|buf| - 1], me, w0);
    }
  }

  /** Without an acceptance addressed to the worker, its pass moves no wealth at all. */
  lemma {:induction false} NoAcceptanceNoPayment(buf: seq<Message>, me: WealthAgent, w0: int)
    requires forall k :: 0 <= k < |buf| ==> !(buf[k].receiver == me && buf[k].performative == ACCEPT_PROPOSAL)
    ensures PassWealth(buf, me, w0).0 == w0
    ensures forall a :: PassPaidTo(buf, me, w0, a) == 0
    decreases |buf|
  {
    if buf != [] {
      var init := buf[..|buf| - 1];
      assert forall k :: 0 <= k < |init| ==> init[k] == buf[k];
      NoAcceptanceNoPayment(init, me, w0);
    }
  }

  /** One more message in a pass still running: what it does to the worker's wealth and to each payee's. */
  lemma PassStep(buf: seq<Message>, i: nat, me: WealthAgent, w0: int)
    requires i < |buf| && PassWealth(buf[..i], me, w0).1
    ensures var w := PassWealth(buf[..i], me, w0).0;
            var m := buf[i];
              PassWealth(buf[..i + 1], me, w0)
                == if !Trigger(m, me) then (w, true)
                   else if !m.content.TaskContent? then (w, false)
                   else (if Pays(m, me, w) then w - m.content.task.amount else w, true)
    ensures var w := PassWealth(buf[..i], me, w0).0;
            var m := buf[i];
              forall a :: PassPaidTo(buf[..i + 1], me, w0, a)
                == PassPaidTo(buf[..i], me, w0, a) + (if Trigger(m, me) && Pays(m, me, w) && m.content.task.receiver == a then m.content.task.amount else 0)
  {
    assert buf[..i + 1][..i] == buf[..i];
  }

  /** Once a prefix of the pass has stopped, the whole pass ends there. */
  lemma {:induction false} PassFailureExtends(buf: seq<Message>, me: WealthAgent, w0: int, n: nat)
    requires n <= |buf| && !PassWealth(buf[..n], me, w0).1
    ensures PassWealth(buf, me, w0) == PassWealth(buf[..n], me, w0)
    ensures forall a :: PassPaidTo(buf, me, w0, a) == PassPaidTo(buf[..n], me, w0, a)
    decreases |buf| - n
  {
    if n == |buf| {
      assert buf[..n] == buf;
    } else {
      var init := buf[..|buf| - 1];
      assert init[..n] == buf[..n];
      PassFailureExtends(init, me, w0, n);
    }
  }

  class WealthAgent {
    var wealth: int
    var role: string
    /** Tasks announced and not yet awarded. */
    var tasks: seq<Task>

    /** `setup`: every agent starts as a worker with no tasks; the wealth is the draw of `np.random.randint(1, 10)`. */
    constructor (wealth: int)
      requires 1 <= wealth < 10
      ensures this.wealth == wealth && role == WORKER && tasks == []
    {
      this.wealth := wealth;
      role := WORKER;
      tasks := [];
    }

    /** `evaluate_task`: the distance between the task's amount and the agent's wealth. */
    function EvaluateTask(task: Task): (cost: int)
      reads this`wealth
      ensures cost >= 0
      ensures cost == task.amount - wealth || cost == wealth - task.amount
      ensures cost == 0 <==> task.amount == wealth
    {
      if task.amount >= wealth then task.amount - wealth else wealth - task.amount
    }

    /** `call_for_proposals`: one call for proposals carrying `task` to every other agent, in the agents' order. */
    method CallForProposals(task: Task, agents: seq<WealthAgent>, buffer: MessageBuffer)
      modifies buffer`messages
      ensures |buffer.messages| == |old(buffer.messages)| + |Others(agents, this)|
      ensures buffer.messages[..|old(buffer.messages)|] == old(buffer.messages)
      ensures forall k :: 0 <= k < |Others(agents, this)| ==>
                CallFor(buffer.messages[|old(buffer.messages)| + k], this, Others(agents, this)[k], task)
    {
      var n0 := |buffer.messages|;
      var i := 0;
      while i < |agents|
        invariant 0 <= i <= |agents|
        invariant |buffer.messages| == n0 + |Others(agents[..i], this)|
        invariant buffer.messages[..n0] == old(buffer.messages)
        invariant forall k :: 0 <= k < |Others(agents[..i], this)| ==>
                    CallFor(buffer.messages[n0 + k], this, Others(agents[..i], this)[k], task)
      {
        var agent := agents[i];
        assert agents[..i + 1][..i] == agents[..i];
        if agent != this {
          var msg := new Message(this, agent, CALL_FOR_PROPOSAL, TaskContent(task));
          msg.Send(buffer);
          assert Others(agents[..i + 1], this) == Others(agents[..i], this) + [agent];
        } else {
          assert Others(agents[..i + 1], this) == Others(agents[..i], this);
        }
        i := i + 1;
      }
      assert agents[..|agents|] == agents;
    }

    /** `send_proposal`: the cost of `task` for this agent, proposed to `sender`. */
    method SendProposal(task: Task, sender: WealthAgent, buffer: MessageBuffer)
      modifies buffer`messages
      ensures |buffer.messages| == |old(buffer.messages)| + 1
      ensures buffer.messages[..|old(buffer.messages)|] == old(buffer.messages)
      ensures var m := buffer.messages[|old(buffer.messages)|];
                m.sender == this && m.receiver == sender && m.performative == PROPOSE
                && m.content == CostContent(EvaluateTask(task))
    {
      var cost := EvaluateTask(task);
      var msg := new Message(this, sender, PROPOSE, CostContent(cost));
      msg.Send(buffer);
    }

    /**
     * `perform_task`: with enough wealth the amount moves to the task's
     * receiver, otherwise nothing changes.  The sum of both wealths is kept
     * and the agent's wealth never becomes negative.
     */
    method PerformTask(task: Task)
      modifies this`wealth, task.receiver`wealth
      ensures old(wealth) >= task.amount && task.receiver != this ==>
                wealth == old(wealth) - task.amount && task.receiver.wealth == old(task.receiver.wealth) + task.amount
      ensures old(wealth) < task.amount || task.receiver == this ==>
                wealth == old(wealth) && task.receiver.wealth == old(task.receiver.wealth)
      ensures task.receiver != this ==> wealth + task.receiver.wealth == old(wealth + task.receiver.wealth)
      ensures old(wealth) >= 0 ==> wealth >= 0
    {
      if wealth >= task.amount {
        wealth := wealth - task.amount;
        task.receiver.wealth := task.receiver.wealth + task.amount;
      }
    }

    /**
     * A manager without tasks: a task paying `amount` to one of the other
     * agents (the `pick`-th, modulo their number) is recorded and announced
     * to all of them.  With no other agent `random.choice` raises and
     * nothing changes (`ok` is false).
     */
    method Announce(agents: seq<WealthAgent>, buffer: MessageBuffer, pick: nat, amount: int) returns (ok: bool)
      requires 1 <= amount <= 4
      modifies this`tasks, buffer`messages
      ensures var others := Others(agents, this);
                others == [] ==> !ok && tasks == old(tasks) && buffer.messages == old(buffer.messages)
      ensures var others := Others(agents, this);
                others != [] ==> ok && tasks == old(tasks) + [Task(amount, others[pick % |others|])]
      ensures ok ==> |buffer.messages| == |old(buffer.messages)| + |Others(agents, this)|
      ensures ok ==> buffer.messages[..|old(buffer.messages)|] == old(buffer.messages)
      ensures ok ==> forall k :: 0 <= k < |Others(agents, this)| ==>
                       CallFor(buffer.messages[|old(buffer.messages)| + k], this, Others(agents, this)[k], tasks[|tasks| - 1])
    {
      var potentialReceivers := Others(agents, this);
      if potentialReceivers == [] {
        return false;
      }
      var receiver := potentialReceivers[pick % |potentialReceivers|];
      var task := Task(amount, receiver);
      tasks := tasks + [task];
      CallForProposals(task, agents, buffer);
      assert tasks[|tasks| - 1] == task;
      return true;
    }

    /**
     * A manager with a task: the first cheapest proposal addressed to it
     * leaves the buffer, and its sender is sent an acceptance carrying the
     * oldest task, which is dropped from the tasks.  Without proposals nothing
     * changes; a proposal whose cost cannot be read raises (`ok` is false)
     * before anything changes.
     */
    method Award(buffer: MessageBuffer) returns (ok: bool)
      requires tasks != []
      modifies this`tasks, buffer`messages
      ensures var ps := Proposals(old(buffer.messages), this);
                ps == [] || !HasCosts(ps) ==> tasks == old(tasks) && buffer.messages == old(buffer.messages) && (ok <==> ps == [])
      ensures var ps := Proposals(old(buffer.messages), this);
                ps != [] && HasCosts(ps) ==>
                  ok && tasks == old(tasks)[1..]
                  && var best := ps[BestIndex(ps)];
                     |buffer.messages| == |old(buffer.messages)| && best in old(buffer.messages)
                     && buffer.messages[..|buffer.messages| - 1] == RemoveFirst(old(buffer.messages), best)
                     && var m := buffer.messages[|buffer.messages| - 1];
                        m.sender == this && m.receiver == best.sender
                        && m.performative == ACCEPT_PROPOSAL && m.content == TaskContent(old(tasks)[0])
    {
      var proposals := Proposals(buffer.messages, this);
      if proposals == [] {
        return true;
      }
      if !HasCosts(proposals) {
        return false;
      }
      var best := proposals[BestIndex(proposals)];
      BestIndexIsFirstMinimum(proposals);
      ProposalsExact(buffer.messages, this);
      buffer.messages := RemoveFirst(buffer.messages, best);
      var task := tasks[0];
      tasks := tasks[1..];
      var msg := new Message(this, best.sender, ACCEPT_PROPOSAL, TaskContent(task));
      msg.Send(buffer);
      return true;
    }

    /**
     * The worker's answer to one message: a proposal for a call for
     * proposals, the payment and a report for an acceptance, nothing for
     * anything else.  Content that is not a task raises (`ok` is false).
     */
    method Respond(msg: Message, buffer: MessageBuffer) returns (ok: bool)
      modifies buffer`messages, this`wealth
      modifies (if msg.content.TaskContent? then {msg.content.task.receiver} else {})`wealth
      ensures !Trigger(msg, this) ==> ok && buffer.messages == old(buffer.messages) && wealth == old(wealth)
      ensures Trigger(msg, this) && !msg.content.TaskContent? ==>
                !ok && buffer.messages == old(buffer.messages) && wealth == old(wealth)
      ensures Trigger(msg, this) && msg.content.TaskContent? ==>
                var t := msg.content.task;
                && wealth == (if Pays(msg, this, old(wealth)) then old(wealth) - t.amount else old(wealth))
                && (t.receiver != this ==>
                      t.receiver.wealth == old(t.receiver.wealth) + (if Pays(msg, this, old(wealth)) then t.amount else 0))
      ensures !Trigger(msg, this) && msg.content.TaskContent? ==>
                msg.content.task.receiver.wealth == old(msg.content.task.receiver.wealth)
      ensures Trigger(msg, this) && msg.content.TaskContent? ==>
                ok && |buffer.messages| == |old(buffer.messages)| + 1
                && buffer.messages[..|old(buffer.messages)|] == old(buffer.messages)
                && Answers(buffer.messages[|old(buffer.messages)|], msg, this)
                && AnswerFrom(buffer.messages[|old(buffer.messages)|], this)
      ensures old(wealth) >= 0 ==> wealth >= 0
    {
      assert CALL_FOR_PROPOSAL[0] != ACCEPT_PROPOSAL[0];
      if msg.receiver == this && msg.performative == CALL_FOR_PROPOSAL {
        if !msg.content.TaskContent? {
          return false;
        }
        SendProposal(msg.content.task, msg.sender, buffer);
      } else if msg.receiver == this && msg.performative == ACCEPT_PROPOSAL {
        if !msg.content.TaskContent? {
          return false;
        }
        PerformTask(msg.content.task);
        var report := new Message(this, msg.sender, INFORM, Text(TASK_COMPLETED));
        report.Send(buffer);
      }
      return true;
    }

    /**
     * A worker's pass over the buffer.  The loop also visits the answers it
     * appends, which need no answer.  The buffer only grows: every message
     * in it stays in place, and everything appended is an answer from this
     * agent, one per call for proposals or acceptance addressed to it, in
     * their order, when no content raised.
     */
    method Work(buffer: MessageBuffer) returns (ok: bool)
      modifies buffer`messages, this`wealth, TaskReceivers(buffer.messages)`wealth
      ensures |buffer.messages| >= |old(buffer.messages)|
      ensures buffer.messages[..|old(buffer.messages)|] == old(buffer.messages)
      ensures forall k :: |old(buffer.messages)| <= k < |buffer.messages| ==> AnswerFrom(buffer.messages[k], this)
      ensures ok ==> |buffer.messages| == |old(buffer.messages)| + |Triggers(old(buffer.messages), this)|
      ensures ok ==> forall k :: 0 <= k < |Triggers(old(buffer.messages), this)| ==>
                       Answers(buffer.messages[|old(buffer.messages)| + k], Triggers(old(buffer.messages), this)[k], this)
      ensures (wealth, ok) == PassWealth(old(buffer.messages), this, old(wealth))
      ensures forall a :: a in TaskReceivers(old(buffer.messages)) && a != this ==>
                a.wealth == old(a.wealth) + PassPaidTo(old(buffer.messages), this, old(wealth), a)
      ensures old(wealth) >= 0 ==> wealth >= 0
    {
      var n0 := |buffer.messages|;
      ok := AnswerTriggers(buffer);
      if ok {
        PassOverAnswers(buffer, n0);
      }
    }

    /**
     * The first part of a worker's pass: the messages that were in the buffer
     * when it began, each answered in turn; the pass stops where a content
     * raises.
     */
    method AnswerTriggers(buffer: MessageBuffer) returns (ok: bool)
      modifies buffer`messages, this`wealth, TaskReceivers(buffer.messages)`wealth
      ensures |buffer.messages| >= |old(buffer.messages)|
      ensures buffer.messages[..|old(buffer.messages)|] == old(buffer.messages)
      ensures forall k :: |old(buffer.messages)| <= k < |buffer.messages| ==> AnswerFrom(buffer.messages[k], this)
      ensures ok ==> |buffer.messages| == |old(buffer.messages)| + |Triggers(old(buffer.messages), this)|
      ensures ok ==> forall k :: 0 <= k < |Triggers(old(buffer.messages), this)| ==>
                       Answers(buffer.messages[|old(buffer.messages)| + k], Triggers(old(buffer.messages), this)[k], this)
      ensures (wealth, ok) == PassWealth(old(buffer.messages), this, old(wealth))
      ensures forall a :: a in TaskReceivers(old(buffer.messages)) && a != this ==>
                a.wealth == old(a.wealth) + PassPaidTo(old(buffer.messages), this, old(wealth), a)
      ensures old(wealth) >= 0 ==> wealth >= 0
    {
      ghost var start := buffer.messages;
      ghost var base := map a | a in TaskReceivers(start) :: a.wealth;
      var n0 := |buffer.messages|;
      var i := 0;
      assert start[..0] == [];
      while i < n0
        invariant i <= n0 == |start|
        invariant AnsweredUpTo(buffer.messages, start, i, this)
        invariant (wealth, true) == PassWealth(start[..i], this, old(wealth))
        invariant forall a :: a in TaskReceivers(start) ==> a in base && base[a] == old(a.wealth)
        invariant forall a :: a in TaskReceivers(start) && a != this ==>
                    a.wealth == base[a] + PassPaidTo(start[..i], this, old(wealth), a)
      {
        ok := AnswerStep(buffer, start, i, old(wealth), base);
        if !ok {
          PassFailureExtends(start, this, old(wealth), i + 1);
          PassConserves(start, this, old(wealth));
          return;
        }
        i := i + 1;
      }
      assert start[..n0] == start;
      PassConserves(start, this, old(wealth));
      return true;
    }

    /**
     * One turn of the pass: the answer to the message at position `i` of the
     * buffer as it was when the pass began (`start`, with this agent's wealth
     * `w0` and every payee's wealth in `base`).
     */
    method AnswerStep(buffer: MessageBuffer, ghost start: seq<Message>, i: nat, ghost w0: int, ghost base: map<WealthAgent, int>)
      returns (ok: bool)
      requires i < |start| && AnsweredUpTo(buffer.messages, start, i, this)
      requires (wealth, true) == PassWealth(start[..i], this, w0)
      requires forall a :: a in TaskReceivers(start) && a != this ==> a in base && a.wealth == base[a] + PassPaidTo(start[..i], this, w0, a)
      modifies buffer`messages, this`wealth, TaskReceivers(start)`wealth
      ensures AnsweredUpTo(buffer.messages, start, if ok then i + 1 else i, this)
      ensures (wealth, ok) == PassWealth(start[..i + 1], this, w0)
      ensures forall a :: a in TaskReceivers(start) && a != this ==> a.wealth == base[a] + PassPaidTo(start[..i + 1], this, w0, a)
    {
      var msg := buffer.messages[i];
      assert msg == start[i];
      PassStep(start, i, this, w0);
      if msg.content.TaskContent? {
        assert msg.content.task.receiver in TaskReceivers(start);
      }
      ghost var before := buffer.messages;
      ok := Respond(msg, buffer);
      AnsweredStep(before, buffer.messages, start, i, this);
    }

    /**
     * The rest of the pass: the iterator goes on over the answers the pass
     * appended, none of which calls for an answer, so nothing changes.
     */
    method PassOverAnswers(buffer: MessageBuffer, n0: nat)
      requires n0 <= |buffer.messages|
      requires forall k :: n0 <= k < |buffer.messages| ==> AnswerFrom(buffer.messages[k], this)
      modifies buffer`messages, this`wealth
      ensures buffer.messages == old(buffer.messages) && wealth == old(wealth)
    {
      var i := n0;
      while i < |buffer.messages|
        invariant buffer.messages == old(buffer.messages) && wealth == old(wealth)
      {
        var msg := buffer.messages[i];
        AnswersAreNotTriggers(msg, this);
        var _ := Respond(msg, buffer);
        i := i + 1;
      }
    }

    /** `step`: a manager announces a task when it has none and awards one otherwise; a worker answers its messages. */
    method Step(agents: seq<WealthAgent>, buffer: MessageBuffer, pick: nat, amount: int) returns (ok: bool)
      requires 1 <= amount <= 4
      modifies this`tasks, this`wealth, buffer`messages, TaskReceivers(buffer.messages)`wealth
      ensures role != MANAGER && role != WORKER ==>
                ok && tasks == old(tasks) && wealth == old(wealth) && buffer.messages == old(buffer.messages)
      ensures role != WORKER ==> wealth == old(wealth)
                                 && forall a :: a in TaskReceivers(old(buffer.messages)) ==> a.wealth == old(a.wealth)
      // A manager without tasks: `Announce`.
      ensures role == MANAGER && old(tasks) == [] ==>
                var others := Others(agents, this);
                && (others == [] ==> !ok && tasks == old(tasks) && buffer.messages == old(buffer.messages))
                && (others != [] ==>
                      && ok && tasks == old(tasks) + [Task(amount, others[pick % |others|])]
                      && tasks[0].receiver != this && tasks[0].receiver in agents
                      && |buffer.messages| == |old(buffer.messages)| + |others|
                      && buffer.messages[..|old(buffer.messages)|] == old(buffer.messages)
                      && forall k :: 0 <= k < |others| ==>
                           CallFor(buffer.messages[|old(buffer.messages)| + k], this, others[k], tasks[0]))
      // A manager with a task: `Award`.
      ensures role == MANAGER && old(tasks) != [] ==>
                var ps := Proposals(old(buffer.messages), this);
                && (ps == [] || !HasCosts(ps) ==> tasks == old(tasks) && buffer.messages == old(buffer.messages) && (ok <==> ps == []))
                && (ps != [] && HasCosts(ps) ==>
                      && ok && tasks == old(tasks)[1..]
                      && var best := ps[BestIndex(ps)];
                         && |buffer.messages| == |old(buffer.messages)| && best in old(buffer.messages)
                         && buffer.messages[..|buffer.messages| - 1] == RemoveFirst(old(buffer.messages), best)
                         && var m := buffer.messages[|buffer.messages| - 1];
                            m.sender == this && m.receiver == best.sender
                            && m.performative == ACCEPT_PROPOSAL && m.content == TaskContent(old(tasks)[0]))
      // A worker: `Work`.
      ensures role == WORKER ==>
                && tasks == old(tasks)
                && |buffer.messages| >= |old(buffer.messages)|
                && buffer.messages[..|old(buffer.messages)|] == old(buffer.messages)
                && (forall k :: |old(buffer.messages)| <= k < |buffer.messages| ==> AnswerFrom(buffer.messages[k], this))
                && (ok ==> |buffer.messages| == |old(buffer.messages)| + |Triggers(old(buffer.messages), this)|)
                && (ok ==> forall k :: 0 <= k < |Triggers(old(buffer.messages), this)| ==>
                             Answers(buffer.messages[|old(buffer.messages)| + k], Triggers(old(buffer.messages), this)[k], this))
                && (wealth, ok) == PassWealth(old(buffer.messages), this, old(wealth))
                && forall a :: a in TaskReceivers(old(buffer.messages)) && a != this ==>
                     a.wealth == old(a.wealth) + PassPaidTo(old(buffer.messages), this, old(wealth), a)
      ensures old(wealth) >= 0 ==> wealth >= 0
    {
      if role == MANAGER {
        if tasks == [] {
          ok := Announce(agents, buffer, pick, amount);
          if ok {
            var others := Others(agents, this);
            OthersExact(agents, this);
            assert others[pick % |others|] in others;
          }
        } else {
          ok := Award(buffer);
        }
      } else if role == WORKER {
        ok := Work(buffer);
      } else {
        ok := true;
      }
    }
  }
}
