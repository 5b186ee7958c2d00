/** The network actor in its own imperative form: the front end's fields and the variables of
    its event loop in one object, with a method for each stretch of code that runs without
    interruption. Every method is proved against the state machine of ActorModel. */
module ActorNetwork {
  import opened Types
  import opened Collections
  import opened Addresses
  import opened ActorModel
  import Sends = ActorSends
  import Replies = ActorReplies
  import Progress = ActorProgress
  import Steps = ActorSteps
  import Answers = ActorAnswers

  /** Sending one item. */
  lemma SendAllOne(s: State, peer: PeerId, item: Item, outcome: MessageId -> Outcome)
    ensures SendAll(s, peer, [item], outcome) ==
            s.(attempts := s.attempts + [Attempt(peer, item, outcome(item.id))],
               events := s.events + FailureEvent(outcome)(item))
  {
    FlatMapOne(FailureEvent(outcome), item);
    assert AttemptsOf(peer, [item], outcome) == [Attempt(peer, item, outcome(item.id))];
  }

  /** Draining a queue item by item is sending all of it. */
  lemma SendAllSnoc(s: State, peer: PeerId, items: seq<Item>, item: Item, outcome: MessageId -> Outcome)
    ensures SendAll(SendAll(s, peer, items, outcome), peer, [item], outcome) ==
            SendAll(s, peer, items + [item], outcome)
  {
    SendAllOne(SendAll(s, peer, items, outcome), peer, item, outcome);
    FlatMapSnoc(FailureEvent(outcome), items, item);
    var attempts, last := AttemptsOf(peer, items, outcome), Attempt(peer, item, outcome(item.id));
    assert AttemptsOf(peer, items + [item], outcome) == attempts + [last];
    Regroup(s.attempts, attempts, [last]);
    Regroup(s.events, FailuresOf(items, outcome), FailureEvent(outcome)(item));
  }

  lemma ConnectedKeepsParked(s: State, peer: PeerId)
    ensures Connected(s, peer).parked == s.parked
  {
  }

  lemma CircuitKeepsParked(cfg: Config, s: State, peer: PeerId)
    ensures ListenOnCircuit(cfg, s, peer).parked == s.parked
  {
  }

  class NetworkActor {
    const config: Config

    // The front end
    var nextMessageId: MessageId
    var localAddrs: seq<Address>
    var waiting: Option<Token>            // the oneshot a suspended handle_command awaits
    var nextToken: Token

    // Channels between the front end, the event loop and the manager
    var commands: seq<SwarmCommand>
    var mailbox: map<Token, Result<Address, Refusal>>
    var events: seq<NetworkEvent>

    // The event loop
    var pendingSends: map<PeerId, seq<Item>>
    var pendingListen: Option<Token>
    var pendingRelay: Option<RelayRequest>

    // The swarm, as far as is_connected shows it
    var connections: multiset<PeerId>

    // History
    ghost var requests: seq<NetworkCommand>
    ghost var exchanges: seq<Exchange>
    ghost var answers: seq<Token>
    ghost var dropped: seq<Token>
    ghost var attempts: seq<Attempt>
    ghost var lost: seq<MessageId>
    ghost var listenLog: seq<Address>
    ghost var since: nat
    ghost var grants: seq<Grant>
    ghost var circuitListens: seq<CircuitListen>
    ghost var run: seq<Label>             // the steps taken so far

    /** The state of the state machine that this object is in. */
    ghost function Model(): State
      reads this
    {
      State(nextMessageId, localAddrs, waiting, commands, mailbox, events,
            pendingSends, pendingListen, pendingRelay, connections,
            requests, exchanges, answers, dropped, attempts, lost, listenLog, since, grants, circuitListens)
    }

    ghost predicate Valid()
      reads this
    {
      nextToken == |requests|
    }

    /** The object is where the steps taken so far lead; what holds of every run holds of it. */
    ghost predicate Reached()
      reads this
    {
      Valid() && Model() == Run(config, run)
    }

    constructor (config: Config)
      ensures Reached() && run == [] && this.config == config
    {
      this.config := config;
      nextMessageId, localAddrs, waiting, nextToken := 1, [], None, 0;
      commands, mailbox, events := [], map[], [];
      pendingSends, pendingListen, pendingRelay, connections := map[], None, None, multiset{};
      requests, exchanges, answers, dropped := [], [], [], [];
      attempts, lost, listenLog, since, grants, circuitListens, run := [], [], [], 0, [], [], [];
    }

    ghost method Record(l: Label, before: State)
      requires Valid() && before == Run(config, run)
      requires Enabled(before, l) && Model() == Step(config, before, l)
      modifies this`run
      ensures Reached() && run == old(run) + [l]
    {
      assert (run + [l])[..|run|] == run;
      hide Step;
      run := run + [l];
    }

    // --- Front end ---

    /** A command up to its first await: None means that the reply is awaited. */
    method HandleCommand(cmd: NetworkCommand) returns (reply: Option<NetworkReply>)
      requires Reached() && waiting == None
      modifies this
      ensures Reached() && run == old(run) + [Issue(cmd)]
      ensures Model() == IssueCommand(config, old(Model()), cmd)
      ensures reply == if waiting.Some? then None else Some(exchanges[|exchanges| - 1].reply)
    {
      hide Run, IssueCommand;
      ghost var before := Model();
      match cmd {
        case SendMessage(addr, msg) =>
          reply := SendMessage(addr, msg);
        case Listen(addr) =>
          StartListen(addr);
          reply := None;
        case GetLocalAddresses =>
          reply := GetLocalAddresses();
        case ListenViaRelay(relayAddr) =>
          StartListenViaRelay(relayAddr);
          reply := None;
      }
      Record(Issue(cmd), before);
    }

    method SendMessage(addr: Address, msg: Message) returns (reply: Option<NetworkReply>)
      requires Valid()
      modifies this`nextMessageId, this`commands, this`exchanges
      ensures Valid()
      ensures Model() == IssueCommand(config, old(Model()), NetworkCommand.SendMessage(addr, msg))
      ensures exchanges != [] && reply == Some(exchanges[|exchanges| - 1].reply)
    {
      var id := nextMessageId;
      nextMessageId := nextMessageId + 1;
      var localAddr := TranslateAddress(config.nodeType, addr);
      commands := commands + [Send(id, localAddr, msg)];
      reply := Some(MessageSent(id));
      exchanges := exchanges + [Exchange(NetworkCommand.SendMessage(addr, msg), MessageSent(id))];
    }

    method GetLocalAddresses() returns (reply: Option<NetworkReply>)
      requires Valid()
      modifies this`exchanges
      ensures Valid()
      ensures Model() == IssueCommand(config, old(Model()), NetworkCommand.GetLocalAddresses)
      ensures exchanges != [] && reply == Some(exchanges[|exchanges| - 1].reply)
    {
      reply := Some(LocalAddresses(localAddrs));
      exchanges := exchanges + [Exchange(NetworkCommand.GetLocalAddresses, LocalAddresses(localAddrs))];
    }

    method StartListen(addr: Address)
      requires Valid()
      modifies this
      ensures Valid() && run == old(run) && waiting.Some?
      ensures Model() == IssueCommand(config, old(Model()), NetworkCommand.Listen(addr))
    {
      var token := NewOneshot(NetworkCommand.Listen(addr));
      commands := commands + [SwarmCommand.Listen(addr, token)];
      waiting := Some(token);
    }

    method StartListenViaRelay(relayAddr: Address)
      requires Valid()
      modifies this
      ensures Valid() && run == old(run) && waiting.Some?
      ensures Model() == IssueCommand(config, old(Model()), NetworkCommand.ListenViaRelay(relayAddr))
    {
      var token := NewOneshot(NetworkCommand.ListenViaRelay(relayAddr));
      commands := commands + [SwarmCommand.ListenViaRelay(relayAddr, token)];
      waiting := Some(token);
    }

    method NewOneshot(ghost cmd: NetworkCommand) returns (token: Token)
      requires Valid()
      modifies this`nextToken, this`requests
      ensures Valid() && token == old(nextToken) && requests == old(requests) + [cmd]
    {
      token := nextToken;
      nextToken := nextToken + 1;
      requests := requests + [cmd];
    }

    /** The rest of a listen command, once its oneshot has resolved. */
    method FinishCommand() returns (reply: NetworkReply)
      requires Reached() && Enabled(Model(), Resume)
      modifies this
      ensures Reached() && run == old(run) + [Resume]
      ensures Model() == ResumeCommand(old(Model()))
      ensures exchanges == old(exchanges) + [Exchange(requests[old(waiting).value], reply)]
    {
      ghost var before := Model();
      reply := TakeAnswer();
      hide Run, ResumeCommand;
      Record(Resume, before);
    }

    method TakeAnswer() returns (reply: NetworkReply)
      requires Valid() && Enabled(Model(), Resume)
      modifies this`waiting, this`localAddrs, this`exchanges
      ensures Valid() && Model() == ResumeCommand(old(Model()))
      ensures exchanges == old(exchanges) + [Exchange(requests[old(waiting).value], reply)]
    {
      var token := waiting.value;
      waiting := None;
      if token !in mailbox {
        reply := Failure(EventLoopDropped);
      } else {
        match mailbox[token] {
          case Ok(addr) =>
            localAddrs := localAddrs + [addr];
            reply := ListenSuccess(addr);
          case Err(reason) =>
            reply := Failure(reason);
        }
      }
      exchanges := exchanges + [Exchange(requests[token], reply)];
    }

    // --- Event loop: commands ---

    method ReceiveCommand(listenOk: bool, dialOk: bool, outcome: MessageId -> Outcome)
      requires Reached() && commands != []
      modifies this
      ensures Reached() && run == old(run) + [Dequeue(listenOk, dialOk, outcome)]
      ensures Model() == RunCommand(config, old(Model()).(commands := old(commands)[1..]), old(commands)[0],
                                    listenOk, dialOk, outcome)
    {
      hide Run;
      ghost var before := Model();
      var cmd := commands[0];
      commands := commands[1..];
      Dispatch(cmd, listenOk, dialOk, outcome);
      hide RunCommand;
      Record(Dequeue(listenOk, dialOk, outcome), before);
    }

    method Dispatch(cmd: SwarmCommand, listenOk: bool, dialOk: bool, outcome: MessageId -> Outcome)
      requires Valid()
      modifies this
      ensures Valid() && run == old(run)
      ensures Model() == RunCommand(config, old(Model()), cmd, listenOk, dialOk, outcome)
    {
      match cmd {
        case Send(id, addr, msg) =>
          hide ActorModel.DoSend;
          DoSend(Item(id, msg), addr, dialOk, outcome);
        case Listen(addr, token) =>
          hide RunCommand;
          ListenOn(addr, token, listenOk, dialOk, outcome);
        case ListenViaRelay(relayAddr, token) =>
          hide RunCommand;
          DialRelay(relayAddr, token, listenOk, dialOk, outcome);
      }
    }

    method ListenOn(addr: Address, token: Token, listenOk: bool, ghost dialOk: bool,
                    ghost outcome: MessageId -> Outcome)
      requires Valid()
      modifies this`mailbox, this`answers, this`pendingListen, this`dropped, this`since
      ensures Valid()
      ensures Model() == RunCommand(config, old(Model()), SwarmCommand.Listen(addr, token), listenOk, dialOk, outcome)
    {
      hide ActorModel.DoSend;
      match config.parse(addr) {
        case Some(_) =>
          if !listenOk {
            ReplyError(token, ListenRejected);
          } else {
            dropped := dropped + ListenSlot(pendingListen);
            pendingListen := Some(token);
            since := |listenLog|;
          }
        case None => ReplyError(token, InvalidAddress);
      }
    }

    method DialRelay(relayAddr: Address, token: Token, ghost listenOk: bool, dialOk: bool,
                     ghost outcome: MessageId -> Outcome)
      requires Valid()
      modifies this`mailbox, this`answers, this`pendingRelay, this`dropped, this`since
      ensures Valid()
      ensures Model() == RunCommand(config, old(Model()), SwarmCommand.ListenViaRelay(relayAddr, token),
                                    listenOk, dialOk, outcome)
    {
      hide ActorModel.DoSend;
      match config.parse(relayAddr) {
        case Some(_) =>
          if !dialOk {
            ReplyError(token, DialRejected);
          } else {
            dropped := dropped + RelaySlot(pendingRelay);
            pendingRelay := Some(RelayRequest(relayAddr, token));
            since := |listenLog|;
          }
        case None => ReplyError(token, InvalidAddress);
      }
    }

    method ReplyError(token: Token, reason: Refusal)
      modifies this`mailbox, this`answers
      ensures Model() == Refuse(old(Model()), token, reason)
    {
      mailbox := mailbox[token := Err(reason)];
      answers := answers + [token];
    }

    method DoSend(item: Item, addr: Address, dialOk: bool, outcome: MessageId -> Outcome)
      requires Valid()
      modifies this
      ensures Valid() && run == old(run)
      ensures Model() == ActorModel.DoSend(config, old(Model()), item, addr, dialOk, outcome)
    {
      hide LastPeer, FlatMap, AttemptsOf, Ids;
      var multiaddr := config.parse(addr);
      if multiaddr == None {
        events := events + [SendFailed(item.id, UnreachableAddress(addr))];
        return;
      }
      var peerId := ExtractPeerId(multiaddr.value);
      if peerId == None {
        events := events + [SendFailed(item.id, ProtocolError)];
        return;
      }
      var peer := peerId.value;
      if peer in connections {
        SendToPeer(peer, item, outcome);
      } else {
        ParkAndDial(peer, item, dialOk);
      }
    }

    /** Park the message and dial; if the dial is refused at once, drop the peer's queue. */
    method ParkAndDial(peer: PeerId, item: Item, dialOk: bool)
      requires Valid()
      modifies this`pendingSends, this`events, this`lost
      ensures Valid()
      ensures Model() == var s := old(Model());
                         if dialOk then s.(parked := s.parked[peer := Queue(s.parked, peer) + [item]])
                         else Fail(s, item.id, ProtocolError).(
                                parked := s.parked - {peer}, lost := s.lost + Ids(Queue(s.parked, peer)))
    {
      hide Ids, Queue;
      ghost var older := Queue(pendingSends, peer);
      Park(peer, item);
      if !dialOk {
        DropQueue(peer, item, older);
        assert old(pendingSends)[peer := older + [item]] - {peer} == old(pendingSends) - {peer};
      }
    }

    method Park(peer: PeerId, item: Item)
      requires Valid()
      modifies this`pendingSends
      ensures Valid()
      ensures Model() == old(Model()).(parked := old(pendingSends)[peer := Queue(old(pendingSends), peer) + [item]])
    {
      pendingSends := pendingSends[peer := Queue(pendingSends, peer) + [item]];
    }

    method DropQueue(peer: PeerId, item: Item, ghost older: seq<Item>)
      requires Valid()
      modifies this`pendingSends, this`events, this`lost
      ensures Valid()
      ensures Model() == Fail(old(Model()), item.id, ProtocolError).(
                           parked := old(pendingSends) - {peer}, lost := old(lost) + Ids(older))
    {
      hide Ids;
      events := events + [SendFailed(item.id, ProtocolError)];
      pendingSends := pendingSends - {peer};
      lost := lost + Ids(older);
    }

    method SendToPeer(peer: PeerId, item: Item, outcome: MessageId -> Outcome)
      requires Valid()
      modifies this`events, this`attempts
      ensures Valid() && Model() == SendAll(old(Model()), peer, [item], outcome)
    {
      attempts := attempts + [Attempt(peer, item, outcome(item.id))];
      match outcome(item.id) {
        case Delivered =>
        case WriteFailed => events := events + [SendFailed(item.id, ProtocolError)];
        case OpenFailed => events := events + [SendFailed(item.id, ProtocolError)];
      }
      SendAllOne(old(Model()), peer, item, outcome);
    }

    // --- Event loop: what the swarm reports ---

    /** The listener that announces the address is not looked at. */
    method NewListenAddr(address: Multiaddr, ghost listener: Option<Token>)
      requires Reached()
      modifies this
      ensures Reached() && run == old(run) + [Label.NewListenAddr(address, listener)]
      ensures Model() == OnNewListenAddr(old(Model()), address)
    {
      hide Run;
      ghost var before := Model();
      AnswerWith(Print(address), address);
      Record(Label.NewListenAddr(address, listener), before);
    }

    method AnswerWith(addr: Address, ghost address: Multiaddr)
      requires Valid() && addr == Print(address)
      modifies this`listenLog, this`pendingListen, this`pendingRelay, this`mailbox, this`answers, this`grants
      ensures Valid() && Model() == OnNewListenAddr(old(Model()), address)
    {
      hide Print, Contains;
      listenLog := listenLog + [addr];
      if Contains(addr, CIRCUIT_TEXT) {
        if pendingRelay.Some? {
          var token := pendingRelay.value.token;
          pendingRelay := None;
          ReplyAddress(token, true, addr);
          return;
        }
      }
      if pendingListen.Some? {
        var token := pendingListen.value;
        pendingListen := None;
        ReplyAddress(token, false, addr);
      }
    }

    method ReplyAddress(token: Token, ghost viaRelay: bool, addr: Address)
      requires listenLog != []
      modifies this`mailbox, this`answers, this`grants
      ensures Model() == Accept(old(Model()), token, viaRelay, addr)
    {
      mailbox := mailbox[token := Ok(addr)];
      answers := answers + [token];
      grants := grants + [Grant(token, viaRelay, addr, since, |listenLog| - 1)];
    }

    method ConnectionEstablished(peer: PeerId, outcome: MessageId -> Outcome)
      requires Reached()
      modifies this
      ensures Reached() && run == old(run) + [Established(peer, outcome)]
      ensures Model() == OnEstablished(config, old(Model()), peer, outcome)
    {
      hide Run, Connected, ListenOnCircuit, SendAll;
      ghost var before := Model();
      NoteConnected(peer);
      ListenViaConnectedRelay(peer);
      SendParked(peer, outcome);
      ConnectedKeepsParked(before, peer);
      CircuitKeepsParked(config, Connected(before, peer), peer);
      hide OnEstablished;
      Record(Established(peer, outcome), before);
    }

    method NoteConnected(peer: PeerId)
      requires Valid()
      modifies this`connections, this`events
      ensures Valid() && Model() == Connected(old(Model()), peer)
    {
      connections := connections + multiset{peer};
      events := events + [PeerConnected(peer)];
    }

    /** If the connected peer is the relay that a request waits for, listen through it. */
    method ListenViaConnectedRelay(peer: PeerId)
      requires Valid()
      modifies this`circuitListens
      ensures Valid() && Model() == ListenOnCircuit(config, old(Model()), peer)
    {
      if pendingRelay.Some? {
        var RelayRequest(relayAddr, token) := pendingRelay.value;
        var relayMultiaddr := config.parse(relayAddr);
        if relayMultiaddr.Some? {
          var relayPeer := ExtractPeerId(relayMultiaddr.value);
          if relayPeer == Some(peer) {
            ghost var circuitListenAddr := relayMultiaddr.value + [P2pCircuit];
            circuitListens := circuitListens + [CircuitListen(peer, token, relayAddr, circuitListenAddr, |listenLog|)];
          }
        }
      }
    }

    /** Send what is parked for a peer, in order. */
    method SendParked(peer: PeerId, outcome: MessageId -> Outcome)
      requires Valid()
      modifies this
      ensures Valid() && run == old(run)
      ensures Model() == var s := old(Model());
                         SendAll(s.(parked := s.parked - {peer}), peer, Queue(s.parked, peer), outcome)
    {
      var messages := Queue(pendingSends, peer);
      pendingSends := pendingSends - {peer};
      ghost var unparked := Model();
      assert Model() == SendAll(unparked, peer, [], outcome);
      for i := 0 to |messages|
        invariant Valid() && run == old(run)
        invariant Model() == SendAll(unparked, peer, messages[..i], outcome)
      {
        SendToPeer(peer, messages[i], outcome);
        SendAllSnoc(unparked, peer, messages[..i], messages[i], outcome);
        assert messages[..i] + [messages[i]] == messages[..i + 1];
      }
      assert messages[..|messages|] == messages;
    }

    method ConnectionClosed(peer: PeerId)
      requires Reached() && peer in connections
      modifies this
      ensures Reached() && run == old(run) + [Closed(peer)]
      ensures Model() == OnClosed(old(Model()), peer)
    {
      hide Run, OnClosed;
      ghost var before := Model();
      NoteClosed(peer);
      Record(Closed(peer), before);
    }

    method NoteClosed(peer: PeerId)
      requires Valid()
      modifies this`connections, this`events
      ensures Valid() && Model() == OnClosed(old(Model()), peer)
    {
      connections := connections - multiset{peer};
      events := events + [PeerDisconnected(peer)];
    }

    /** A message read from an incoming stream. */
    method HandleIncoming(peer: PeerId, msg: Message)
      requires Reached()
      modifies this
      ensures Reached() && run == old(run) + [Incoming(peer, msg)]
      ensures Model() == Step(config, old(Model()), Incoming(peer, msg))
    {
      hide Run;
      ghost var before := Model();
      events := events + [MessageReceived(peer, msg)];
      Record(Incoming(peer, msg), before);
    }
  }

  /** What the theorems about runs say of any actor object. */
  lemma ReachedActor(actor: NetworkActor, peer: PeerId, id: MessageId)
    requires actor.Reached()
    ensures peer in actor.connections ==> peer !in actor.pendingSends
    ensures peer in actor.pendingSends ==> actor.pendingSends[peer] != []
    ensures Sends.InOrder(actor.Model(), peer)
    ensures Sends.Places(actor.Model())[id] == if 1 <= id < actor.nextMessageId then 1 else 0
    ensures actor.pendingListen == None || actor.pendingRelay == None
    ensures actor.dropped == []
  {
    Sends.RunParkedExcludesConnected(actor.config, actor.run);
    Sends.RunInOrder(actor.config, actor.run, peer);
    Sends.EveryIdInExactlyOnePlace(actor.config, actor.run, id);
    Replies.NoRequestIsDropped(actor.config, actor.run, 0);
    Replies.EverySenderInExactlyOnePlace(actor.config, actor.run, 0);
    hide Run, Sends.InOrder;
  }

  /** A suspended command whose request has been answered, either way, can be resumed, and what it
      returns is that answer. */
  method ResumeAnswered(actor: NetworkActor) returns (reply: NetworkReply)
    requires actor.Reached() && actor.waiting.Some? && actor.waiting.value in actor.mailbox
    modifies actor
    ensures actor.Reached() && actor.waiting == None
    ensures reply == Answers.ReplyTo(old(actor.mailbox)[old(actor.waiting).value])
  {
    Progress.AnsweredIsReplied(actor.config, actor.run, actor.waiting.value);
    Replies.RunSound(actor.config, actor.run);
    ghost var token, mailbox, exchanges := actor.waiting.value, actor.mailbox, actor.exchanges;
    ghost var before := actor.run;
    Steps.RunOneMore(actor.config, before, Resume);
    hide Run, Replies.Sound, Answers.ReplyTo;
    reply := actor.FinishCommand();
    assert actor.exchanges[|exchanges|].reply == reply;
  }
}
