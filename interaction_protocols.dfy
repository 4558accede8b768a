/**
 * The participant and message registry of an interaction protocol, and the
 * three built-in protocols (act_integ/models/interaction_protocols.py).
 * Timestamps are Python floats; the model takes them as exact reals.
 */
module InteractionProtocols {

  datatype MessageType = Request | Propose | Accept | Reject | Inform | Query | Confirm

  datatype Message = Message(sender: string, receiver: string, msgType: MessageType, content: string, timestamp: real)

  const INITIAL := "initial"

  predicate NoDuplicates(s: seq<string>) {
    forall i, j :: 0 <= i < j < |s| ==> s[i] != s[j]
  }

  /** The participant list after `add_participant(p)`: `p` is appended unless it is already there. */
  function WithParticipant(participants: seq<string>, p: string): seq<string> {
    if p in participants then participants else participants + [p]
  }

  /** The state map after `add_participant(p)`: a new participant starts in "initial". */
  function WithState(participants: seq<string>, states: map<string, string>, p: string): map<string, string> {
    if p in participants then states else states[p := INITIAL]
  }

  /** The registry invariant: no participant twice, and a state for exactly the participants. */
  predicate Registry(participants: seq<string>, states: map<string, string>) {
    && NoDuplicates(participants)
    && (forall p :: p in participants ==> p in states)
    && (forall p :: p in states ==> p in participants)
  }

  /** Adding a participant keeps the registry invariant, registers it, and keeps everyone else. */
  lemma AddParticipantKeepsRegistry(participants: seq<string>, states: map<string, string>, p: string)
    requires Registry(participants, states)
    ensures Registry(WithParticipant(participants, p), WithState(participants, states, p))
    ensures p in WithParticipant(participants, p) && p in WithState(participants, states, p)
    ensures p !in participants ==> WithState(participants, states, p)[p] == INITIAL
    ensures forall q :: q in participants ==> q in WithParticipant(participants, p) && q in WithState(participants, states, p) && WithState(participants, states, p)[q] == states[q]
  {
    if p !in participants {
      var ps := participants + [p];
      forall i, j | 0 <= i < j < |ps|
        ensures ps[i] != ps[j]
      {
        if j == |participants| {
          assert ps[i] == participants[i];
        }
      }
    }
  }

  /** A second `add_participant` with the same name changes nothing. */
  lemma AddParticipantIdempotent(participants: seq<string>, states: map<string, string>, p: string)
    ensures WithParticipant(WithParticipant(participants, p), p) == WithParticipant(participants, p)
    ensures WithState(WithParticipant(participants, p), WithState(participants, states, p), p) == WithState(participants, states, p)
  {
  }

  /** Every message goes between registered participants, and the timestamps strictly increase in list order. */
  predicate WellFormed(participants: seq<string>, messages: seq<Message>) {
    && (forall i :: 0 <= i < |messages| ==> messages[i].sender in participants && messages[i].receiver in participants)
    && (forall i, j :: 0 <= i < j < |messages| ==> messages[i].timestamp < messages[j].timestamp)
  }

  /** Adjacent timestamps increasing is enough for all of them to increase. */
  lemma {:induction false} AdjacentIncreaseSuffices(messages: seq<Message>)
    requires forall i :: 0 <= i < |messages| - 1 ==> messages[i].timestamp < messages[i + 1].timestamp
    ensures forall i, j :: 0 <= i < j < |messages| ==> messages[i].timestamp < messages[j].timestamp
    decreases |messages|
  {
    if |messages| > 1 {
      var init := messages[..|messages| - 1];
      AdjacentIncreaseSuffices(init);
      forall i, j | 0 <= i < j < |messages|
        ensures messages[i].timestamp < messages[j].timestamp
      {
        if j < |messages| - 1 {
          assert messages[i] == init[i] && messages[j] == init[j];
        } else if i < j - 1 {
          assert messages[i] == init[i] && messages[j - 1] == init[j - 1];
        }
      }
    }
  }

  class InteractionProtocol {
    const name: string
    var participants: seq<string>
    var messages: seq<Message>
    /** participant -> current state */
    var states: map<string, string>

    ghost predicate Valid()
      reads this`participants, this`states
    {
      Registry(participants, states)
    }

    constructor (name: string)
      ensures this.name == name && participants == [] && messages == [] && states == map[]
      ensures Valid()
    {
      this.name := name;
      participants := [];
      messages := [];
      states := map[];
    }

    /**
     * `add_participant`: the registry becomes `WithParticipant` and `WithState`
     * of the old one, which keep `Registry` (`AddParticipantKeepsRegistry`).
     */
    method AddParticipant(participant: string)
      requires Valid()
      modifies this`participants, this`states
      ensures Valid()
      ensures participants == WithParticipant(old(participants), participant)
      ensures states == WithState(old(participants), old(states), participant)
    {
      AddParticipantKeepsRegistry(participants, states, participant);
      if participant !in participants {
        participants := participants + [participant];
        states := states[participant := INITIAL];
      }
    }

    /** `add_message`: appended at the end; the registry is untouched. */
    method AddMessage(message: Message)
      modifies this`messages
      ensures messages == old(messages) + [message]
    {
      messages := messages + [message];
    }
  }

  // The three built-in protocols, each the message sequence its constructor adds.

  const NEGOTIATION_PARTICIPANTS := ["Vehicle1", "Vehicle2"]
  const NEGOTIATION_MESSAGES := [
    Message("Vehicle1", "Vehicle2", Request, "Request to cross intersection", 0.0),
    Message("Vehicle2", "Vehicle1", Propose, "Propose yield/proceed strategy", 1.0),
    Message("Vehicle1", "Vehicle2", Accept, "Accept proposed strategy", 2.0),
    Message("Vehicle2", "Vehicle1", Confirm, "Confirm agreement", 3.0)]

  const VOTING_PARTICIPANTS := ["Pedestrian1", "Pedestrian2", "TrafficLight"]
  const VOTING_MESSAGES := [
    Message("Pedestrian1", "TrafficLight", Request, "Request light change", 0.0),
    Message("Pedestrian2", "TrafficLight", Request, "Support light change request", 1.0),
    Message("TrafficLight", "Pedestrian1", Inform, "Acknowledge vote received", 2.0),
    Message("TrafficLight", "Pedestrian2", Inform, "Acknowledge vote received", 2.1),
    Message("TrafficLight", "Pedestrian1", Confirm, "Confirm light change scheduled", 3.0),
    Message("TrafficLight", "Pedestrian2", Confirm, "Confirm light change scheduled", 3.1)]

  const AUCTION_PARTICIPANTS := ["EmergencyVehicle", "RegularVehicle1", "RegularVehicle2", "TrafficLight"]
  const AUCTION_MESSAGES := [
    Message("EmergencyVehicle", "TrafficLight", Request, "Announce emergency priority need", 0.0),
    Message("TrafficLight", "RegularVehicle1", Query, "Query current priority level", 1.0),
    Message("TrafficLight", "RegularVehicle2", Query, "Query current priority level", 1.1),
    Message("RegularVehicle1", "TrafficLight", Inform, "Report normal priority", 2.0),
    Message("RegularVehicle2", "TrafficLight", Inform, "Report normal priority", 2.1),
    Message("TrafficLight", "EmergencyVehicle", Confirm, "Grant highest priority", 3.0)]

  // Everyone registered by a constructor starts, and stays, in "initial".
  const NEGOTIATION_STATES := map["Vehicle1" := INITIAL, "Vehicle2" := INITIAL]
  const VOTING_STATES := map["Pedestrian1" := INITIAL, "Pedestrian2" := INITIAL, "TrafficLight" := INITIAL]
  const AUCTION_STATES := map["EmergencyVehicle" := INITIAL, "RegularVehicle1" := INITIAL, "RegularVehicle2" := INITIAL, "TrafficLight" := INITIAL]

  // Each built-in protocol keeps the registry invariant and is well formed;
  // the registry, the addressing and the timestamp order are proved apart.

  lemma NegotiationWellFormed()
    ensures Registry(NEGOTIATION_PARTICIPANTS, NEGOTIATION_STATES)
    ensures WellFormed(NEGOTIATION_PARTICIPANTS, NEGOTIATION_MESSAGES)
  {
    NegotiationRegistry();
    NegotiationAddressed();
    NegotiationInOrder();
  }

  lemma NegotiationRegistry()
    ensures Registry(NEGOTIATION_PARTICIPANTS, NEGOTIATION_STATES)
  {
  }

  lemma NegotiationInOrder()
    ensures forall i, j :: 0 <= i < j < |NEGOTIATION_MESSAGES| ==> NEGOTIATION_MESSAGES[i].timestamp < NEGOTIATION_MESSAGES[j].timestamp
  {
    AdjacentIncreaseSuffices(NEGOTIATION_MESSAGES);
  }

  lemma NegotiationAddressed()
    ensures forall i :: 0 <= i < |NEGOTIATION_MESSAGES| ==>
              NEGOTIATION_MESSAGES[i].sender in NEGOTIATION_PARTICIPANTS && NEGOTIATION_MESSAGES[i].receiver in NEGOTIATION_PARTICIPANTS
  {
  }

  lemma VotingWellFormed()
    ensures Registry(VOTING_PARTICIPANTS, VOTING_STATES)
    ensures WellFormed(VOTING_PARTICIPANTS, VOTING_MESSAGES)
  {
    VotingRegistry();
    VotingAddressed();
    VotingInOrder();
  }

  lemma VotingRegistry()
    ensures Registry(VOTING_PARTICIPANTS, VOTING_STATES)
  {
  }

  lemma VotingInOrder()
    ensures forall i, j :: 0 <= i < j < |VOTING_MESSAGES| ==> VOTING_MESSAGES[i].timestamp < VOTING_MESSAGES[j].timestamp
  {
    AdjacentIncreaseSuffices(VOTING_MESSAGES);
  }

  lemma VotingAddressed()
    ensures forall i :: 0 <= i < |VOTING_MESSAGES| ==>
              VOTING_MESSAGES[i].sender in VOTING_PARTICIPANTS && VOTING_MESSAGES[i].receiver in VOTING_PARTICIPANTS
  {
  }

  lemma AuctionWellFormed()
    ensures Registry(AUCTION_PARTICIPANTS, AUCTION_STATES)
    ensures WellFormed(AUCTION_PARTICIPANTS, AUCTION_MESSAGES)
  {
    AuctionRegistry();
    AuctionAddressed();
    AuctionInOrder();
  }

  lemma AuctionRegistry()
    ensures Registry(AUCTION_PARTICIPANTS, AUCTION_STATES)
  {
  }

  lemma AuctionInOrder()
    ensures forall i, j :: 0 <= i < j < |AUCTION_MESSAGES| ==> AUCTION_MESSAGES[i].timestamp < AUCTION_MESSAGES[j].timestamp
  {
    AdjacentIncreaseSuffices(AUCTION_MESSAGES);
  }

  lemma AuctionAddressed()
    ensures forall i :: 0 <= i < |AUCTION_MESSAGES| ==>
              AUCTION_MESSAGES[i].sender in AUCTION_PARTICIPANTS && AUCTION_MESSAGES[i].receiver in AUCTION_PARTICIPANTS
  {
  }

  /** The `add_participant` calls of `IntersectionNegotiationProtocol()`. */
  method RegisterNegotiationParticipants(p: InteractionProtocol)
    requires p.participants == [] && p.states == map[]
    modifies p`participants, p`states
    ensures p.participants == NEGOTIATION_PARTICIPANTS && p.states == NEGOTIATION_STATES
  {
    p.AddParticipant("Vehicle1");
    p.AddParticipant("Vehicle2");
  }

  /** The `add_message` calls of `IntersectionNegotiationProtocol()`. */
  method AddNegotiationMessages(p: InteractionProtocol)
    requires p.messages == []
    modifies p`messages
    ensures p.messages == NEGOTIATION_MESSAGES
  {
    p.AddMessage(NEGOTIATION_MESSAGES[0]);
    p.AddMessage(NEGOTIATION_MESSAGES[1]);
    p.AddMessage(NEGOTIATION_MESSAGES[2]);
    p.AddMessage(NEGOTIATION_MESSAGES[3]);
  }

  /** `IntersectionNegotiationProtocol()`. */
  method NewIntersectionNegotiation() returns (p: InteractionProtocol)
    ensures fresh(p) && p.name == "Intersection Negotiation"
    ensures p.participants == NEGOTIATION_PARTICIPANTS && p.states == NEGOTIATION_STATES
    ensures p.messages == NEGOTIATION_MESSAGES
    ensures p.Valid() && WellFormed(p.participants, p.messages)
  {
    p := new InteractionProtocol("Intersection Negotiation");
    RegisterNegotiationParticipants(p);
    AddNegotiationMessages(p);
    NegotiationWellFormed();
  }

  /** The registry after each `add_participant` call of `PedestrianLightVotingProtocol()`. */
  lemma VotingRegistrySteps()
    ensures WithParticipant([], "Pedestrian1") == ["Pedestrian1"]
    ensures WithState([], map[], "Pedestrian1") == map["Pedestrian1" := INITIAL]
    ensures WithParticipant(["Pedestrian1"], "Pedestrian2") == ["Pedestrian1", "Pedestrian2"]
    ensures WithState(["Pedestrian1"], map["Pedestrian1" := INITIAL], "Pedestrian2")
              == map["Pedestrian1" := INITIAL, "Pedestrian2" := INITIAL]
    ensures WithParticipant(["Pedestrian1", "Pedestrian2"], "TrafficLight") == VOTING_PARTICIPANTS
    ensures WithState(["Pedestrian1", "Pedestrian2"], map["Pedestrian1" := INITIAL, "Pedestrian2" := INITIAL], "TrafficLight")
              == VOTING_STATES
  {
    assert "Pedestrian2" != "Pedestrian1";
  }

  /** The `add_participant` calls of `PedestrianLightVotingProtocol()`. */
  method RegisterVotingParticipants(p: InteractionProtocol)
    requires p.participants == [] && p.states == map[]
    modifies p`participants, p`states
    ensures p.participants == VOTING_PARTICIPANTS && p.states == VOTING_STATES
  {
    VotingRegistrySteps();
    p.AddParticipant("Pedestrian1");
    p.AddParticipant("Pedestrian2");
    p.AddParticipant("TrafficLight");
  }

  /** The `add_message` calls of `PedestrianLightVotingProtocol()`. */
  method AddVotingMessages(p: InteractionProtocol)
    requires p.messages == []
    modifies p`messages
    ensures p.messages == VOTING_MESSAGES
  {
    p.AddMessage(VOTING_MESSAGES[0]);
    p.AddMessage(VOTING_MESSAGES[1]);
    p.AddMessage(VOTING_MESSAGES[2]);
    p.AddMessage(VOTING_MESSAGES[3]);
    p.AddMessage(VOTING_MESSAGES[4]);
    p.AddMessage(VOTING_MESSAGES[5]);
  }

  /** `PedestrianLightVotingProtocol()`. */
  method NewPedestrianLightVoting() returns (p: InteractionProtocol)
    ensures fresh(p) && p.name == "Pedestrian Light Voting"
    ensures p.participants == VOTING_PARTICIPANTS && p.states == VOTING_STATES
    ensures p.messages == VOTING_MESSAGES
    ensures p.Valid() && WellFormed(p.participants, p.messages)
  {
    p := new InteractionProtocol("Pedestrian Light Voting");
    RegisterVotingParticipants(p);
    AddVotingMessages(p);
    VotingWellFormed();
  }

  /** The registry after each `add_participant` call of `EmergencyVehicleAuctionProtocol()`. */
  lemma AuctionRegistrySteps()
    ensures WithParticipant([], "EmergencyVehicle") == ["EmergencyVehicle"]
    ensures WithState([], map[], "EmergencyVehicle") == map["EmergencyVehicle" := INITIAL]
    ensures WithParticipant(["EmergencyVehicle"], "RegularVehicle1") == ["EmergencyVehicle", "RegularVehicle1"]
    ensures WithState(["EmergencyVehicle"], map["EmergencyVehicle" := INITIAL], "RegularVehicle1")
              == map["EmergencyVehicle" := INITIAL, "RegularVehicle1" := INITIAL]
    ensures WithParticipant(["EmergencyVehicle", "RegularVehicle1"], "RegularVehicle2") == ["EmergencyVehicle", "RegularVehicle1", "RegularVehicle2"]
    ensures WithState(["EmergencyVehicle", "RegularVehicle1"], map["EmergencyVehicle" := INITIAL, "RegularVehicle1" := INITIAL], "RegularVehicle2")
              == map["EmergencyVehicle" := INITIAL, "RegularVehicle1" := INITIAL, "RegularVehicle2" := INITIAL]
    ensures WithParticipant(["EmergencyVehicle", "RegularVehicle1", "RegularVehicle2"], "TrafficLight") == AUCTION_PARTICIPANTS
    ensures WithState(["EmergencyVehicle", "RegularVehicle1", "RegularVehicle2"],
                      map["EmergencyVehicle" := INITIAL, "RegularVehicle1" := INITIAL, "RegularVehicle2" := INITIAL], "TrafficLight")
              == AUCTION_STATES
  {
    assert "RegularVehicle1" != "EmergencyVehicle" && "RegularVehicle2" != "RegularVehicle1";
  }

  /** The `add_participant` calls of `EmergencyVehicleAuctionProtocol()`. */
  method RegisterAuctionParticipants(p: InteractionProtocol)
    requires p.participants == [] && p.states == map[]
    modifies p`participants, p`states
    ensures p.participants == AUCTION_PARTICIPANTS && p.states == AUCTION_STATES
  {
    AuctionRegistrySteps();
    p.AddParticipant("EmergencyVehicle");
    p.AddParticipant("RegularVehicle1");
    p.AddParticipant("RegularVehicle2");
    p.AddParticipant("TrafficLight");
  }

  /** The `add_message` calls of `EmergencyVehicleAuctionProtocol()`. */
  method AddAuctionMessages(p: InteractionProtocol)
    requires p.messages == []
    modifies p`messages
    ensures p.messages == AUCTION_MESSAGES
  {
    p.AddMessage(AUCTION_MESSAGES[0]);
    p.AddMessage(AUCTION_MESSAGES[1]);
    p.AddMessage(AUCTION_MESSAGES[2]);
    p.AddMessage(AUCTION_MESSAGES[3]);
    p.AddMessage(AUCTION_MESSAGES[4]);
    p.AddMessage(AUCTION_MESSAGES[5]);
  }

  /** `EmergencyVehicleAuctionProtocol()`. */
  method NewEmergencyVehicleAuction() returns (p: InteractionProtocol)
    ensures fresh(p) && p.name == "Emergency Vehicle Auction"
    ensures p.participants == AUCTION_PARTICIPANTS && p.states == AUCTION_STATES
    ensures p.messages == AUCTION_MESSAGES
    ensures p.Valid() && WellFormed(p.participants, p.messages)
  {
    p := new InteractionProtocol("Emergency Vehicle Auction");
    RegisterAuctionParticipants(p);
    AddAuctionMessages(p);
    AuctionWellFormed();
  }
}
