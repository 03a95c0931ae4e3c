/** The neighbour channel of one agent (agents/communication.py), reduced to its sequential
    behaviour: the messages an agent publishes, the mailbox its receive loop fills (one entry
    per sender, the latest message wins, a sender keeps the position of its first message, as
    in a Python dict) and the drain that copies and clears it. */
module Communication {
  import opened Common

  type AgentId = string

  /** The published data dictionaries, by the keys the core writes or reads. */
  datatype Payload = Payload(
    queue: Option<seq<real>>,
    currentPhase: Option<int>,
    intendedAction: Option<int>,
    fullState: Option<seq<real>>,
    timestamp: Option<real>)

  /** A decoded JSON message; any key may be missing. */
  datatype Message = Message(
    sender: Option<AgentId>,
    timestamp: Option<real>,
    data: Option<Payload>,
    kind: Option<string>,
    priority: Option<string>)

  /** What the mailbox keeps for a sender. */
  datatype Entry = Entry(data: Payload, timestamp: real, kind: string)

  /** One mailbox slot. */
  datatype Mail = Mail(sender: AgentId, entry: Entry)

  function Senders(box: seq<Mail>): (s: seq<AgentId>)
    ensures |s| == |box| && forall i :: 0 <= i < |box| ==> s[i] == box[i].sender
  {
    seq(|box|, i requires 0 <= i < |box| => box[i].sender)
  }

  /** At most one slot per sender. */
  predicate UniqueSenders(box: seq<Mail>) {
    forall i, j :: 0 <= i < j < |box| ==> box[i].sender != box[j].sender
  }

  /** The mailbox read as a dictionary: the entry kept for a sender, if any. */
  function Lookup(box: seq<Mail>, sender: AgentId): Option<Entry> {
    if box == [] then None
    else if box[0].sender == sender then Some(box[0].entry)
    else Lookup(box[1..], sender)
  }

  /** received_messages[sender] = entry: overwrite in place, or append a new slot. */
  function Put(box: seq<Mail>, sender: AgentId, entry: Entry): seq<Mail> {
    if box == [] then [Mail(sender, entry)]
    else if box[0].sender == sender then [Mail(sender, entry)] + box[1..]
    else [box[0]] + Put(box[1..], sender, entry)
  }

  /** After storing, the sender's entry is the new one and every other sender's is unchanged. */
  lemma {:induction false} PutThenLookup(box: seq<Mail>, sender: AgentId, entry: Entry, other: AgentId)
    ensures Lookup(Put(box, sender, entry), other) == if other == sender then Some(entry) else Lookup(box, other)
  {
    if box != [] && box[0].sender != sender {
      PutThenLookup(box[1..], sender, entry, other);
    }
  }

  /** Storing keeps the order of the senders already present and appends a new sender last. */
  lemma {:induction false} PutSenders(box: seq<Mail>, sender: AgentId, entry: Entry)
    ensures Senders(Put(box, sender, entry)) == if sender in Senders(box) then Senders(box) else Senders(box) + [sender]
  {
    if box == [] {
    } else if box[0].sender == sender {
      assert Senders(Put(box, sender, entry)) == Senders(box);
    } else {
      var rest := box[1..];
      PutSenders(rest, sender, entry);
      var p := Put(box, sender, entry);
      assert p == [box[0]] + Put(rest, sender, entry);
      assert Senders(p) == [box[0].sender] + Senders(Put(rest, sender, entry));
      assert Senders(box) == [box[0].sender] + Senders(rest);
      assert sender in Senders(box) <==> sender in Senders(rest);
    }
  }

  /** Storing keeps the order of the senders already present and appends a new sender last;
      the mailbox never holds two slots for one sender. */
  lemma PutKeepsOrder(box: seq<Mail>, sender: AgentId, entry: Entry)
    requires UniqueSenders(box)
    ensures Senders(Put(box, sender, entry)) == if sender in Senders(box) then Senders(box) else Senders(box) + [sender]
    ensures UniqueSenders(Put(box, sender, entry))
  {
    PutSenders(box, sender, entry);
    var p := Put(box, sender, entry);
    var before := Senders(box);
    var after := Senders(p);
    forall i, j | 0 <= i < j < |p|
      ensures p[i].sender != p[j].sender
    {
      assert after[i] == p[i].sender && after[j] == p[j].sender;
      if j < |box| {
        assert after[i] == before[i] && after[j] == before[j];
      } else {
        assert after[i] == before[i] && after[j] == sender;
      }
    }
  }

  /** Two messages from one sender before a drain: only the second one is kept. */
  lemma {:induction false} PutOverwrites(box: seq<Mail>, sender: AgentId, first: Entry, second: Entry)
    ensures Put(Put(box, sender, first), sender, second) == Put(box, sender, second)
  {
    if box != [] && box[0].sender != sender {
      PutOverwrites(box[1..], sender, first, second);
    }
  }

  /** One pass of the receive loop over one arrived message: the sender, data and timestamp
      keys are required (a missing one raises KeyError, which the loop swallows, dropping the
      message); the type defaults to "unknown". */
  function Decode(message: Message): Option<Mail> {
    if message.sender.None? || message.data.None? || message.timestamp.None? then None
    else Some(Mail(message.sender.value,
                   Entry(message.data.value, message.timestamp.value, message.kind.GetOr("unknown"))))
  }

  class AgentCommunication {
    const agentId: AgentId
    const neighborIds: seq<AgentId>
    /** The neighbours this agent holds a subscription for (the subscribers dict's keys). */
    const subscriptions: set<AgentId>
    var received: seq<Mail>

    /** One subscription per neighbour. */
    ghost predicate Subscribed() {
      subscriptions == set n | n in neighborIds
    }

    /** At most one slot per sender, and only senders this channel subscribes to: its
        subscriber sockets connect to the neighbours' publishers and nowhere else. */
    ghost predicate Valid()
      reads this
    {
      && UniqueSenders(received)
      && forall s :: s in Senders(received) ==> s in subscriptions
    }

    /** One subscription per neighbour id, none for an agent without neighbours, and an
        empty mailbox. */
    constructor (agentId: AgentId, neighborIds: seq<AgentId>)
      ensures Valid() && Subscribed()
      ensures this.agentId == agentId && this.neighborIds == neighborIds
      ensures subscriptions == set n | n in neighborIds
      ensures received == []
    {
      var subscribed: set<AgentId> := {};
      var i := 0;
      while i < |neighborIds|
        invariant 0 <= i <= |neighborIds|
        invariant subscribed == set n | n in neighborIds[..i]
      {
        assert neighborIds[..i + 1] == neighborIds[..i] + [neighborIds[i]];
        subscribed := subscribed + {neighborIds[i]};
        i := i + 1;
      }
      assert neighborIds[..i] == neighborIds;
      this.agentId := agentId;
      this.neighborIds := neighborIds;
      subscriptions := subscribed;
      received := [];
    }

    /** send_state: the message published to the neighbours. */
    function SendState(stateInfo: Payload, now: real): Message {
      Message(Some(agentId), Some(now), Some(stateInfo), Some("state_update"), None)
    }

    /** send_prediction */
    function SendPrediction(prediction: Payload, now: real): Message {
      Message(Some(agentId), Some(now), Some(prediction), Some("prediction"), None)
    }

    /** send_emergency: the only message with a priority. */
    function SendEmergency(emergencyInfo: Payload, now: real): Message {
      Message(Some(agentId), Some(now), Some(emergencyInfo), Some("emergency"), Some("high"))
    }

    /** One iteration of the receive loop for a message that arrived on a subscription: store it
        under its sender, replacing that sender's earlier message; a malformed message is dropped. */
    method Store(message: Message)
      requires Valid()
      requires message.sender.Some? ==> message.sender.value in subscriptions
      modifies this`received
      ensures Valid()
      ensures Decode(message).None? ==> received == old(received)
      ensures Decode(message).Some? ==> received == Put(old(received), Decode(message).value.sender, Decode(message).value.entry)
      ensures Decode(message).Some? ==>
                Senders(received) == if Decode(message).value.sender in Senders(old(received)) then Senders(old(received))
                                     else Senders(old(received)) + [Decode(message).value.sender]
      ensures forall other :: Lookup(received, other) ==
                if Decode(message).Some? && other == Decode(message).value.sender
                then Some(Decode(message).value.entry)
                else Lookup(old(received), other)
    {
      var decoded := Decode(message);
      if decoded.Some? {
        PutKeepsOrder(received, decoded.value.sender, decoded.value.entry);
        forall other
          ensures Lookup(Put(received, decoded.value.sender, decoded.value.entry), other) ==
                  if other == decoded.value.sender then Some(decoded.value.entry) else Lookup(received, other)
        {
          PutThenLookup(received, decoded.value.sender, decoded.value.entry, other);
        }
        received := Put(received, decoded.value.sender, decoded.value.entry);
      }
    }

    /** get_neighbor_messages: a copy of the mailbox, which is left empty. */
    method GetNeighborMessages() returns (messages: seq<Mail>)
      requires Valid()
      modifies this`received
      ensures Valid()
      ensures messages == old(received) && UniqueSenders(messages)
      ensures received == []
    {
      messages := received;
      received := [];
    }
  }

  /** Every published message is accepted by a neighbour's receive loop and stored under the
      publisher's id with its data and timestamp verbatim and its type; the three kinds differ,
      and only the emergency carries a priority, "high". */
  lemma PublishedMessagesDecode(channel: AgentCommunication, info: Payload, now: real)
    ensures Decode(channel.SendState(info, now)) == Some(Mail(channel.agentId, Entry(info, now, "state_update")))
    ensures Decode(channel.SendPrediction(info, now)) == Some(Mail(channel.agentId, Entry(info, now, "prediction")))
    ensures Decode(channel.SendEmergency(info, now)) == Some(Mail(channel.agentId, Entry(info, now, "emergency")))
    ensures channel.SendState(info, now).priority.None? && channel.SendPrediction(info, now).priority.None?
    ensures channel.SendEmergency(info, now).priority == Some("high")
  {
  }
}
