/** The earlier network in its own imperative form, proved against the state machine of
    LegacyModel. */
module LegacyNetworks {
  import opened Types
  import opened Collections
  import opened Addresses
  import A = ActorModel
  import opened LegacyModel
  import ActorNetwork
  import ActorReports

  /** The legacy extractor stops at the first peer id. */
  method ExtractFirstPeerId(m: Multiaddr) returns (r: Option<PeerId>)
    ensures r == FirstPeer(m)
  {
    var i := 0;
    while i < |m|
      invariant 0 <= i <= |m|
      invariant FirstPeer(m) == FirstPeer(m[i..])
    {
      if m[i].P2p? {
        return Some(m[i].peer);
      }
      assert m[i..][1..] == m[i + 1..];
      i := i + 1;
    }
    return None;
  }

  lemma SendAllOne(s: State, peer: PeerId, item: Item, outcome: MessageId -> A.Outcome)
    ensures SendAll(s, peer, [item], outcome) ==
            s.(attempts := s.attempts + [A.Attempt(peer, item, outcome(item.id))],
               errors := s.errors + ErrorCallOf(outcome)(item))
  {
    FlatMapOne(ErrorCallOf(outcome), item);
    assert A.AttemptsOf(peer, [item], outcome) == [A.Attempt(peer, item, outcome(item.id))];
  }

  lemma SendAllSnoc(s: State, peer: PeerId, items: seq<Item>, item: Item, outcome: MessageId -> A.Outcome)
    ensures SendAll(SendAll(s, peer, items, outcome), peer, [item], outcome) ==
            SendAll(s, peer, items + [item], outcome)
  {
    SendAllOne(SendAll(s, peer, items, outcome), peer, item, outcome);
    FlatMapSnoc(ErrorCallOf(outcome), items, item);
    var attempts, last := A.AttemptsOf(peer, items, outcome), A.Attempt(peer, item, outcome(item.id));
    assert A.AttemptsOf(peer, items + [item], outcome) == attempts + [last];
    Regroup(s.attempts, attempts, [last]);
    Regroup(s.errors, ErrorCallsOf(items, outcome), ErrorCallOf(outcome)(item));
  }

  class LibP2PNetwork {
    const config: A.Config

    // The front end
    var nextMessageId: MessageId
    var waiting: Option<A.Token>
    var nextToken: A.Token

    // Shared with the event loop
    var localAddrs: seq<Address>
    var commands: seq<Command>
    var mailbox: map<A.Token, Result<Address, Refusal>>

    // The event loop
    var pendingSends: map<PeerId, seq<Item>>
    var pendingListen: Option<A.Token>
    var connections: multiset<PeerId>
    var errors: seq<ErrorCall>            // calls of on_send_error, in order
    var messages: seq<NetworkEvent>       // calls of on_message, in order

    // History
    ghost var dropped: seq<A.Token>
    ghost var attempts: seq<A.Attempt>
    ghost var run: seq<A.Label>   // the steps taken so far

    ghost function Model(): State
      reads this
    {
      State(nextMessageId, waiting, commands, mailbox, localAddrs, pendingSends, pendingListen, connections,
            nextToken, dropped, attempts, errors, messages)
    }

    /** The object is where the steps taken so far lead. */
    ghost predicate Reached()
      reads this
    {
      Model() == Run(config, run)
    }

    constructor (config: A.Config)
      ensures Reached() && run == [] && this.config == config
    {
      this.config := config;
      nextMessageId, waiting, nextToken := 1, None, 0;
      localAddrs, commands, mailbox := [], [], map[];
      pendingSends, pendingListen, connections, errors, messages := map[], None, multiset{}, [], [];
      dropped, attempts, run := [], [], [];
    }

    ghost method Record(l: A.Label, before: State)
      requires before == Run(config, run)
      requires Enabled(before, l) && Model() == Step(config, before, l)
      modifies this`run
      ensures Reached() && run == old(run) + [l]
    {
      assert (run + [l])[..|run|] == run;
      hide Step;
      run := run + [l];
    }

    method Send(addr: Address, msg: Message) returns (id: MessageId)
      requires Reached() && waiting == None
      modifies this`nextMessageId, this`commands, this`run
      ensures Reached() && run == old(run) + [A.Issue(SendMessage(addr, msg))]
      ensures id == old(nextMessageId)
      ensures Model() == Call(old(Model()), SendMessage(addr, msg))
    {
      hide Run;
      ghost var before := Model();
      id := nextMessageId;
      nextMessageId := nextMessageId + 1;
      commands := commands + [Command.Send(id, addr, msg)];
      Record(A.Issue(SendMessage(addr, msg)), before);
    }

    /** A listen call up to its await. */
    method Listen(addr: Address)
      requires Reached() && waiting == None
      modifies this`commands, this`waiting, this`nextToken, this`run
      ensures Reached() && run == old(run) + [A.Issue(NetworkCommand.Listen(addr))]
      ensures Model() == Call(old(Model()), NetworkCommand.Listen(addr))
    {
      hide Run;
      ghost var before := Model();
      commands := commands + [Command.Listen(addr, nextToken)];
      waiting := Some(nextToken);
      nextToken := nextToken + 1;
      Record(A.Issue(NetworkCommand.Listen(addr)), before);
    }

    /** The rest of a listen call, once its oneshot has resolved. */
    method FinishListen() returns (error: Option<Refusal>)
      requires Reached() && Enabled(Model(), A.Resume)
      modifies this`waiting, this`run
      ensures Reached() && run == old(run) + [A.Resume]
      ensures Model() == Step(config, old(Model()), A.Resume)
      ensures var token := old(waiting).value;
              error == if token !in mailbox then Some(EventLoopDropped)
                       else match mailbox[token]
                         case Ok(_) => None
                         case Err(reason) => Some(reason)
    {
      hide Run;
      ghost var before := Model();
      var token := waiting.value;
      waiting := None;
      Record(A.Resume, before);
      if token !in mailbox {
        return Some(EventLoopDropped);
      }
      match mailbox[token] {
        case Ok(_) => return None;
        case Err(reason) => return Some(reason);
      }
    }

    method ReceiveCommand(listenOk: bool, dialOk: bool, outcome: MessageId -> A.Outcome)
      requires Reached() && commands != []
      modifies this
      ensures Reached() && run == old(run) + [A.Dequeue(listenOk, dialOk, outcome)]
      ensures Model() == RunCommand(config, old(Model()).(commands := old(commands)[1..]), old(commands)[0],
                                    listenOk, dialOk, outcome)
    {
      hide Run;
      ghost var before := Model();
      var cmd := commands[0];
      commands := commands[1..];
      Dispatch(cmd, listenOk, dialOk, outcome);
      hide RunCommand;
      Record(A.Dequeue(listenOk, dialOk, outcome), before);
    }

    method Dispatch(cmd: Command, listenOk: bool, dialOk: bool, outcome: MessageId -> A.Outcome)
      modifies this
      ensures run == old(run)
      ensures Model() == RunCommand(config, old(Model()), cmd, listenOk, dialOk, outcome)
    {
      match cmd {
        case Send(id, addr, msg) => HandleSend(Item(id, msg), addr, dialOk, outcome);
        case Listen(addr, token) =>
          match config.parse(addr) {
            case Some(_) =>
              if !listenOk {
                mailbox := mailbox[token := Err(ListenRejected)];
              } else {
                dropped := dropped + A.ListenSlot(pendingListen);
                pendingListen := Some(token);
              }
            case None => mailbox := mailbox[token := Err(InvalidAddress)];
          }
      }
    }

    method HandleSend(item: Item, addr: Address, dialOk: bool, outcome: MessageId -> A.Outcome)
      modifies this
      ensures run == old(run)
      ensures Model() == LegacyModel.HandleSend(config, old(Model()), item, addr, dialOk, outcome)
    {
      var multiaddr := config.parse(addr);
      if multiaddr == None {
        errors := errors + [ErrorCall(item.id, UnreachableAddress(addr))];
        return;
      }
      var peerId := ExtractFirstPeerId(multiaddr.value);
      if peerId == None {
        errors := errors + [ErrorCall(item.id, ProtocolError)];
        return;
      }
      var peer := peerId.value;
      if peer in connections {
        SendToPeer(peer, item, outcome);
      } else {
        pendingSends := pendingSends[peer := A.Queue(pendingSends, peer) + [item]];
        if !dialOk {
          errors := errors + [ErrorCall(item.id, ProtocolError)];
          pendingSends := pendingSends - {peer};
          assert pendingSends == old(pendingSends) - {peer};
        }
      }
    }

    method SendToPeer(peer: PeerId, item: Item, outcome: MessageId -> A.Outcome)
      modifies this`errors, this`attempts
      ensures Model() == SendAll(old(Model()), peer, [item], outcome)
    {
      attempts := attempts + [A.Attempt(peer, item, outcome(item.id))];
      match outcome(item.id) {
        case Delivered =>
        case WriteFailed => errors := errors + [ErrorCall(item.id, ProtocolError)];
        case OpenFailed => errors := errors + [ErrorCall(item.id, ProtocolError)];
      }
      SendAllOne(old(Model()), peer, item, outcome);
    }

    /** The listener that announces the address is not looked at. */
    method NewListenAddr(address: Multiaddr, ghost listener: Option<A.Token>)
      requires Reached()
      modifies this
      ensures Reached() && run == old(run) + [A.Label.NewListenAddr(address, listener)]
      ensures Model() == OnNewListenAddr(old(Model()), address)
    {
      hide Run, Print;
      ghost var before := Model();
      var addr := Print(address);
      localAddrs := localAddrs + [addr];
      if pendingListen.Some? {
        mailbox := mailbox[pendingListen.value := Ok(addr)];
        pendingListen := None;
      }
      Record(A.Label.NewListenAddr(address, listener), before);
    }

    method ConnectionEstablished(peer: PeerId, outcome: MessageId -> A.Outcome)
      requires Reached()
      modifies this
      ensures Reached() && run == old(run) + [A.Established(peer, outcome)]
      ensures Model() == OnEstablished(old(Model()), peer, outcome)
    {
      hide Run, SendAll;
      ghost var before := Model();
      connections := connections + multiset{peer};
      SendParked(peer, outcome);
      Record(A.Established(peer, outcome), before);
    }

    /** Send what is parked for a peer, in order. */
    method SendParked(peer: PeerId, outcome: MessageId -> A.Outcome)
      modifies this
      ensures run == old(run)
      ensures Model() == var s := old(Model());
                         SendAll(s.(parked := s.parked - {peer}), peer, A.Queue(s.parked, peer), outcome)
    {
      var messages := A.Queue(pendingSends, peer);
      pendingSends := pendingSends - {peer};
      ghost var unparked := Model();
      assert Model() == SendAll(unparked, peer, [], outcome);
      for i := 0 to |messages|
        invariant run == old(run)
        invariant Model() == SendAll(unparked, peer, messages[..i], outcome)
      {
        SendToPeer(peer, messages[i], outcome);
        SendAllSnoc(unparked, peer, messages[..i], messages[i], outcome);
        assert messages[..i] + [messages[i]] == messages[..i + 1];
      }
      assert messages[..|messages|] == messages;
    }

    method ConnectionClosed(peer: PeerId)
      requires Reached() && peer in connections
      modifies this`connections, this`run
      ensures Reached() && run == old(run) + [A.Closed(peer)]
      ensures Model() == Step(config, old(Model()), A.Closed(peer))
    {
      hide Run;
      ghost var before := Model();
      connections := connections - multiset{peer};
      Record(A.Closed(peer), before);
    }

    /** A message read from an incoming stream. */
    method HandleIncomingStream(peer: PeerId, msg: Message)
      requires Reached()
      modifies this`messages, this`run
      ensures Reached() && run == old(run) + [A.Incoming(peer, msg)]
      ensures Model() == Step(config, old(Model()), A.Incoming(peer, msg))
    {
      hide Run;
      ghost var before := Model();
      messages := messages + [MessageReceived(peer, msg)];
      Record(A.Incoming(peer, msg), before);
    }
  }

  /** An actor and a network of the earlier kind that have gone through the same steps hold the same
      queues, have made the same attempts and have reported the same failures and messages. */
  lemma ObjectsInLockstep(actor: ActorNetwork.NetworkActor, network: LibP2PNetwork)
    requires actor.Reached() && network.Reached()
    requires actor.config == network.config && actor.run == network.run && actor.config.nodeType == Server
    requires forall i :: 0 <= i < |actor.run| ==> Common(actor.config, actor.run[i])
    ensures actor.nextMessageId == network.nextMessageId
    ensures actor.pendingSends == network.pendingSends && actor.attempts == network.attempts
    ensures Reported(actor.events) == network.errors
    ensures ActorReports.Receptions(actor.events) == network.messages
    ensures Subsequence(actor.localAddrs, network.localAddrs)
  {
    RunLockstep(actor.config, actor.run);
    LocalAddressesAreLegacyOnes(actor.config, actor.run);
    hide A.Run, Run, Reported, Translated, CommandCommon, Subsequence, ActorReports.Receptions;
  }
}
