/** The mock network in its own imperative form: nodes that share a registry of event senders, each
    node with the receiving end of its own event queue. */
module MockNetworks {
  import opened Types
  import opened Addresses
  import opened MockModel

  /** An unbounded event channel. */
  class EventQueue {
    var events: seq<NetworkEvent>

    constructor ()
      ensures events == []
    {
      events := [];
    }
  }

  /** The shared registry: the queue in which events for a peer are put. */
  class Registry {
    var senders: map<PeerId, EventQueue>

    /** No queue serves two peers. */
    ghost predicate Valid()
      reads this
    {
      forall p, q :: p in senders && q in senders && senders[p] == senders[q] ==> p == q
    }

    ghost function Queues(): Queues
      reads this, senders.Values
    {
      map p | p in senders :: senders[p].events
    }

    constructor ()
      ensures Valid() && senders == map[] && Queues() == map[]
    {
      senders := map[];
    }

    method Register(peer: PeerId, queue: EventQueue)
      requires Valid() && queue.events == [] && forall p :: p in senders ==> senders[p] != queue
      modifies this
      ensures Valid() && senders == old(senders)[peer := queue]
      ensures Queues() == old(Queues())[peer := []]
    {
      senders := senders[peer := queue];
      assert Queues().Keys == old(Queues()).Keys + {peer};
    }

    /** Put an event into a registered peer's queue. */
    method Send(peer: PeerId, event: NetworkEvent)
      requires Valid() && peer in senders
      modifies senders[peer]
      ensures Queues() == old(Queues())[peer := old(Queues())[peer] + [event]]
    {
      var queue := senders[peer];
      queue.events := queue.events + [event];
      assert forall p :: p in senders && p != peer ==> senders[p] != queue;
      assert Queues().Keys == old(Queues()).Keys;
    }
  }

  class MockNetwork {
    const peerId: PeerId
    const registry: Registry
    const receiver: EventQueue
    var localAddrs: seq<Address>
    var nextMessageId: MessageId

    /** A node of the registry. Another node under the same id is no longer registered; it keeps
        its own queue. */
    constructor (peerId: PeerId, registry: Registry)
      requires registry.Valid()
      modifies registry
      ensures this.peerId == peerId && this.registry == registry && fresh(receiver)
      ensures localAddrs == [] && nextMessageId == 1
      ensures registry.Valid() && registry.senders == old(registry.senders)[peerId := receiver]
      ensures registry.Queues() == old(registry.Queues())[peerId := []]
    {
      var queue := new EventQueue();
      this.peerId, this.registry, this.receiver := peerId, registry, queue;
      localAddrs, nextMessageId := [], 1;
      new;
      registry.Register(peerId, queue);
    }

    /** The registry and this node, as a world of the model. */
    ghost function Model(): World
      reads this, registry, registry.senders.Values
    {
      World(registry.Queues(), map[peerId := Node(localAddrs, nextMessageId, [])], [])
    }

    method HandleCommand(cmd: NetworkCommand) returns (reply: NetworkReply)
      requires registry.Valid()
      modifies this, registry.senders.Values
      ensures Model() == RunCommand(old(Model()), peerId, cmd).(log := [])
      ensures reply == match cmd
                       case Listen(addr) => ListenSuccess(BoundAddress(addr, peerId))
                       case SendMessage(_, _) => MessageSent(old(nextMessageId))
                       case ListenViaRelay(_) => Failure(RelayUnsupported)
                       case GetLocalAddresses => LocalAddresses(localAddrs)
    {
      match cmd {
        case Listen(addr) =>
          var bound := addr + "/" + P2P + "/" + peerId;
          localAddrs := localAddrs + [bound];
          reply := ListenSuccess(bound);
        case SendMessage(addr, msg) =>
          var id := this.SendMessage(addr, msg);
          reply := MessageSent(id);
        case ListenViaRelay(_) =>
          reply := Failure(RelayUnsupported);
        case GetLocalAddresses =>
          reply := LocalAddresses(localAddrs);
      }
    }

    method SendMessage(addr: Address, msg: Message) returns (id: MessageId)
      requires registry.Valid()
      modifies this`nextMessageId, registry.senders.Values
      ensures id == old(nextMessageId) && nextMessageId == id + 1
      ensures registry.Queues() == AfterSend(old(registry.Queues()), peerId, id, addr, msg)
    {
      id := nextMessageId;
      nextMessageId := nextMessageId + 1;
      var target := ExtractPeerIdFromAddr(addr);
      match target {
        case Some(peer) =>
          if peer in registry.senders {
            registry.Send(peer, MessageReceived(peerId, msg));
          } else if peerId in registry.senders {
            registry.Send(peerId, SendFailed(id, UnreachableAddress(addr)));
          }
        case None =>
          if peerId in registry.senders {
            registry.Send(peerId, SendFailed(id, ProtocolError));
          }
      }
    }

    /** The oldest event in this node's own queue, registered or not. */
    method TryRecvEvent() returns (event: Option<NetworkEvent>)
      modifies receiver
      ensures old(receiver.events) == [] ==> event == None && receiver.events == []
      ensures old(receiver.events) != [] ==>
                event == Some(old(receiver.events)[0]) && receiver.events == old(receiver.events)[1..]
    {
      if receiver.events == [] {
        return None;
      }
      event := Some(receiver.events[0]);
      receiver.events := receiver.events[1..];
    }
  }

  /** What a node is asked for after a listen: the addresses it had, and then the reported one. */
  method ListenThenList(node: MockNetwork, addr: Address) returns (listen: NetworkReply, list: NetworkReply)
    requires node.registry.Valid()
    modifies node, node.registry.senders.Values
    ensures listen == ListenSuccess(addr + "/p2p/" + node.peerId)
    ensures list == LocalAddresses(old(node.localAddrs) + [addr + "/p2p/" + node.peerId])
  {
    ghost var before := node.Model();
    listen := node.HandleCommand(Listen(addr));
    BoundAddressText(addr, node.peerId);
    assert node.Model().nodes[node.peerId].localAddrs ==
           before.nodes[node.peerId].localAddrs + [BoundAddress(addr, node.peerId)];
    list := node.HandleCommand(GetLocalAddresses);
  }

  /** A listener reports an address, another node sends to it, and the listener receives exactly
      that message next; whatever else the registry holds stays as it was. */
  method ListenSendReceive(listener: MockNetwork, sender: MockNetwork, addr: Address, msg: Message)
    returns (event: Option<NetworkEvent>)
    requires listener != sender && listener.registry == sender.registry && listener.registry.Valid()
    requires listener.peerId in listener.registry.senders
    requires listener.registry.senders[listener.peerId] == listener.receiver && listener.receiver.events == []
    requires '/' !in listener.peerId && "p2p" !in Split(addr)
    modifies listener, sender, listener.registry.senders.Values
    ensures event == Some(MessageReceived(sender.peerId, msg))
    ensures listener.registry.Queues() == old(listener.registry.Queues())
  {
    ghost var queues := listener.registry.Queues();
    var reply := listener.HandleCommand(Listen(addr));
    assert listener.Model().queues == queues;
    ghost var id := sender.nextMessageId;
    ListenSendRoundTrip(queues, listener.peerId, addr, sender.peerId, id, msg);
    ghost var before := sender.Model();
    reply := sender.HandleCommand(SendMessage(reply.addr, msg));
    assert sender.Model().queues ==
           AfterSend(before.queues, sender.peerId, id, BoundAddress(addr, listener.peerId), msg);
    assert listener.registry.Queues()[listener.peerId] == [MessageReceived(sender.peerId, msg)];
    event := listener.TryRecvEvent();
    assert listener.registry.Queues().Keys == queues.Keys;
  }

  lemma NotAmong(senders: map<PeerId, EventQueue>, queue: EventQueue)
    requires forall p :: p in senders ==> senders[p] != queue
    ensures queue !in senders.Values
  {
  }

  /** When a node takes over a peer id, the earlier node still drains what it was sent before, and is
      sent nothing more: the message goes to the later one. */
  method TakeOver(earlier: MockNetwork, sender: MockNetwork, addr: Address, msg: Message)
    returns (later: MockNetwork, event: Option<NetworkEvent>)
    requires earlier != sender && earlier.registry == sender.registry && earlier.registry.Valid()
    requires earlier.registry.senders.Keys >= {earlier.peerId}
    requires earlier.registry.senders[earlier.peerId] == earlier.receiver
    requires MockTarget(addr) == Some(earlier.peerId)
    modifies earlier.registry, earlier.registry.senders.Values, sender
    ensures fresh(later) && later.peerId == earlier.peerId && later.receiver != earlier.receiver
    ensures earlier.receiver.events == old(earlier.receiver.events)
    ensures later.receiver.events == [] && event == Some(MessageReceived(sender.peerId, msg))
  {
    ghost var senders := earlier.registry.senders;
    assert forall p :: p in senders && p != earlier.peerId ==> senders[p] != earlier.receiver;
    later := new MockNetwork(earlier.peerId, earlier.registry);
    assert forall p :: p in earlier.registry.senders ==>
        earlier.registry.senders[p] == if p == earlier.peerId then later.receiver else senders[p];
    NotAmong(earlier.registry.senders, earlier.receiver);
    ghost var before, id := sender.Model(), sender.nextMessageId;
    assert before.queues[earlier.peerId] == [];
    var reply := sender.HandleCommand(SendMessage(addr, msg));
    assert sender.Model().queues == AfterSend(before.queues, sender.peerId, id, addr, msg);
    assert sender.Model().queues[earlier.peerId] == [MessageReceived(sender.peerId, msg)];
    assert later.receiver.events == [MessageReceived(sender.peerId, msg)];
    event := later.TryRecvEvent();
  }
}
