/** Nothing gets stuck: what each input achieves in every reachable state, and that from every
    reachable state a waiting command can be replied to and all messages can be attempted. */
module ActorProgress {
  import opened Types
  import opened Collections
  import opened Addresses
  import opened ActorModel
  import opened ActorSteps
  import opened ActorSends
  import opened ActorReplies
  import opened ActorAnswers
  import opened ActorReports

  // --- Replies ---

  /** As soon as a waiting command's request has been answered, either way, the command can be resumed,
      and its reply is that answer. */
  lemma {:induction false} AnsweredIsReplied(cfg: Config, labels: seq<Label>, t: Token)
    requires Run(cfg, labels).waiting == Some(t) && t in Run(cfg, labels).mailbox
    ensures var s, s' := Run(cfg, labels), Run(cfg, labels + [Resume]);
            && t < |s.requests| && s'.waiting == None
            && s'.exchanges == s.exchanges + [Exchange(s.requests[t], ReplyTo(s.mailbox[t]))]
  {
    RunSound(cfg, labels);
    RunOneMore(cfg, labels, Resume);
    hide Run, Typed, GrantsSound, SlotsSound, AddrsSound, RepliesSound, CircuitsSound, RequestsIn, LiveSenders;
  }

  lemma SlotHoldsWaiting(s: State, t: Token)
    requires Owned(ViewOf(s)) && s.commands == [] && s.waiting == Some(t) && t !in s.mailbox
    ensures s.pendingListen == Some(t) || (s.pendingRelay.Some? && s.pendingRelay.value.token == t)
  {
    var v := ViewOf(s);
    assert RequestsIn([]) == [] && CommandTokens([]) == [];
    assert LiveSenders(v)[t] == 1;
  }

  /** An announcement of the kind that the slot waits for. */
  function Awaited(s: State): Multiaddr {
    if s.pendingRelay.Some? then [P2pCircuit] else []
  }

  lemma AwaitedIsTaken(s: State)
    requires s.pendingListen == None || s.pendingRelay == None
    ensures TakenBy(s, Awaited(s)) ==
            if s.pendingRelay.Some? then Some(s.pendingRelay.value.token) else s.pendingListen
  {
    assert Print([P2pCircuit]) == CIRCUIT_TEXT + "" == CIRCUIT_TEXT;
    assert Contains(CIRCUIT_TEXT, CIRCUIT_TEXT);
  }

  lemma AwaitedAnswers(cfg: Config, labels: seq<Label>, t: Token)
    requires var s := Run(cfg, labels); s.commands == [] && s.waiting == Some(t) && t !in s.mailbox
    ensures var s := Run(cfg, labels);
            var s' := Run(cfg, labels + [Label.NewListenAddr(Awaited(s), None)]);
            && s'.waiting == s.waiting && s'.exchanges == s.exchanges && s'.requests == s.requests
            && t in s'.mailbox
  {
    var s := Run(cfg, labels);
    RunSound(cfg, labels);
    SlotHoldsWaiting(s, t);
    SlotIsSoleSender(ViewOf(s));
    AwaitedIsTaken(s);
    AnnouncementGrants(s, Awaited(s));
    RunOneMore(cfg, labels, Label.NewListenAddr(Awaited(s), None));
    hide Run, Owned, Typed, GrantsSound, SlotsSound, AddrsSound, RepliesSound, CircuitsSound, OnNewListenAddr,
         TakenBy, Awaited, RequestsIn, ViewOf;
  }

  lemma DequeueKeepsWaiting(cfg: Config, s: State, outcome: MessageId -> Outcome)
    requires s.commands != []
    ensures var s' := Next(cfg, s, Dequeue(true, true, outcome));
            && s'.commands == s.commands[1..] && s'.waiting == s.waiting
            && s'.exchanges == s.exchanges && s'.requests == s.requests
  {
    var s1, cmd := s.(commands := s.commands[1..]), s.commands[0];
    RunCommandFrame(cfg, s1, cmd, true, true, outcome);
    if cmd.Send? {
      SendIsDoSend(cfg, s1, cmd, true, true, outcome);
      DoSendView(cfg, s1, Item(cmd.id, cmd.msg), cmd.addr, true, outcome);
    } else {
      RequestKeepsWaiting(cfg, s1, cmd, outcome);
    }
    hide RunCommand, DoSend, RequestsIn;
  }

  lemma RequestKeepsWaiting(cfg: Config, s: State, cmd: SwarmCommand, outcome: MessageId -> Outcome)
    requires !cmd.Send?
    ensures RunCommand(cfg, s, cmd, true, true, outcome).waiting == s.waiting
  {
    hide DoSend;
  }

  /** No deadlock: whatever has happened, a waiting command can still be replied to. */
  lemma {:induction false} WaitingCanFinish(cfg: Config, labels: seq<Label>, t: Token, outcome: MessageId -> Outcome)
    returns (more: seq<Label>)
    requires Run(cfg, labels).waiting == Some(t)
    ensures var s, s' := Run(cfg, labels), Run(cfg, labels + more);
            && t < |s.requests| && s'.waiting == None
            && |s'.exchanges| == |s.exchanges| + 1 && s.exchanges <= s'.exchanges
            && s'.exchanges[|s.exchanges|].cmd == s.requests[t]
    decreases |Run(cfg, labels).commands|
  {
    var s := Run(cfg, labels);
    if t in s.mailbox {
      AnsweredIsReplied(cfg, labels, t);
      more := [Resume];
    } else if s.commands == [] {
      var announce := Label.NewListenAddr(Awaited(s), None);
      AwaitedAnswers(cfg, labels, t);
      AnsweredIsReplied(cfg, labels + [announce], t);
      more := [announce, Resume];
      assert labels + [announce] + [Resume] == labels + more;
      hide *;
    } else {
      var dequeue := Dequeue(true, true, outcome);
      RunOneMore(cfg, labels, dequeue);
      DequeueKeepsWaiting(cfg, s, outcome);
      hide *;
      var rest := WaitingCanFinish(cfg, labels + [dequeue], t, outcome);
      more := [dequeue] + rest;
      Regroup(labels, [dequeue], rest);
    }
  }

  // --- Messages ---

  /** A peer that connects is served at once: everything parked for it is attempted, in order, after the
      connection has been reported and before anything else; nothing stays parked. */
  lemma {:induction false} ConnectingServes(cfg: Config, labels: seq<Label>, peer: PeerId,
                                            outcome: MessageId -> Outcome)
    ensures var s, s' := Run(cfg, labels), Run(cfg, labels + [Established(peer, outcome)]);
            && peer in s'.connections && peer !in s'.parked
            && s'.parked == s.parked - {peer} && s'.commands == s.commands && s'.lost == s.lost
            && s'.attempts == s.attempts + AttemptsOf(peer, Queue(s.parked, peer), outcome)
            && s'.events == s.events + ([PeerConnected(peer)] + FailuresOf(Queue(s.parked, peer), outcome))
  {
    RunOneMore(cfg, labels, Established(peer, outcome));
    hide Run;
    StepQueues(cfg, Run(cfg, labels), Established(peer, outcome));
    StepFront(cfg, Run(cfg, labels), Established(peer, outcome));
    StepAddsEvents(cfg, Run(cfg, labels), Established(peer, outcome));
    hide Step, AttemptsOf, FailuresOf, Queue;
  }

  lemma AcceptedDialLosesNothing(cfg: Config, s: State, outcome: MessageId -> Outcome)
    requires s.commands != []
    ensures var s' := Next(cfg, s, Dequeue(true, true, outcome));
            s'.lost == s.lost && s'.commands == s.commands[1..]
  {
    var l := Dequeue(true, true, outcome);
    StepQueues(cfg, s, l);
    StepFront(cfg, s, l);
    hide Step, Destination;
  }

  /** No dead end: from every reachable state, if dials are accepted and peers connect, all that is in
      the channel or parked is attempted or reported, and nothing more is lost. */
  lemma {:induction false} CanQuiesce(cfg: Config, labels: seq<Label>, outcome: MessageId -> Outcome)
    returns (more: seq<Label>)
    ensures var s, s' := Run(cfg, labels), Run(cfg, labels + more);
            s'.commands == [] && s'.parked == map[] && s'.lost == s.lost
    decreases |Run(cfg, labels).commands|, |Run(cfg, labels).parked.Keys|
  {
    var s := Run(cfg, labels);
    if s.commands != [] {
      var dequeue := Dequeue(true, true, outcome);
      RunOneMore(cfg, labels, dequeue);
      AcceptedDialLosesNothing(cfg, s, outcome);
      hide *;
      var rest := CanQuiesce(cfg, labels + [dequeue], outcome);
      more := [dequeue] + rest;
      Regroup(labels, [dequeue], rest);
    } else if s.parked != map[] {
      var peer := SomeKey(s.parked);
      var connect := Established(peer, outcome);
      ConnectingServes(cfg, labels, peer, outcome);
      hide *;
      assert (s.parked - {peer}).Keys == s.parked.Keys - {peer};
      var rest := CanQuiesce(cfg, labels + [connect], outcome);
      more := [connect] + rest;
      Regroup(labels, [connect], rest);
    } else {
      more := [];
      assert labels + more == labels;
    }
  }

  // --- A relay command that succeeds ---

  lemma RelayCycle(cfg: Config, relayAddr: Address, peer: PeerId, address: Multiaddr, outcome: MessageId -> Outcome)
    requires Destination(cfg, relayAddr) == Some(peer) && Contains(Print(address), CIRCUIT_TEXT)
    ensures var s1 := Next(cfg, Init(), Issue(NetworkCommand.ListenViaRelay(relayAddr)));
            var s2 := Next(cfg, s1, Dequeue(true, true, outcome));
            var s3 := Next(cfg, s2, Established(peer, outcome));
            var s4 := Next(cfg, s3, Label.NewListenAddr(address, Some(0)));
            && s2.pendingRelay == Some(RelayRequest(relayAddr, 0)) && s2.mailbox == map[]
            && |s4.circuitListens| == 1
            && s4.circuitListens[0].arg == cfg.parse(relayAddr).value + [P2pCircuit]
            && s4.waiting == Some(0) && 0 in s4.mailbox && s4.mailbox[0] == Ok(Print(address))
            && s4.requests == [NetworkCommand.ListenViaRelay(relayAddr)] && s4.exchanges == []
  {
    hide Print, Contains, LastPeer, FailuresOf, AttemptsOf;
    var s1 := Next(cfg, Init(), Issue(NetworkCommand.ListenViaRelay(relayAddr)));
    assert s1.commands == [SwarmCommand.ListenViaRelay(relayAddr, 0)];
    var s2 := Next(cfg, s1, Dequeue(true, true, outcome));
    assert s2.pendingRelay == Some(RelayRequest(relayAddr, 0));
    var s3 := Next(cfg, s2, Established(peer, outcome));
    assert s3.pendingRelay == s2.pendingRelay;
  }

  /** The relay handshake from end to end: an accepted dial, the relay's connection, a circuit address,
      and the command succeeds with that address. */
  lemma RelayCommandSucceeds(cfg: Config, relayAddr: Address, peer: PeerId, address: Multiaddr,
                             outcome: MessageId -> Outcome)
    requires Destination(cfg, relayAddr) == Some(peer) && Contains(Print(address), "/p2p-circuit")
    ensures var labels := [Issue(NetworkCommand.ListenViaRelay(relayAddr)), Dequeue(true, true, outcome),
                           Established(peer, outcome), Label.NewListenAddr(address, Some(0))];
            var s := Run(cfg, labels + [Resume]);
            && |Run(cfg, labels).circuitListens| == 1
            && Run(cfg, labels).circuitListens[0].arg == cfg.parse(relayAddr).value + [P2pCircuit]
            && s.exchanges == [Exchange(NetworkCommand.ListenViaRelay(relayAddr), ListenSuccess(Print(address)))]
            && s.localAddrs == [Print(address)] && s.waiting == None
  {
    var issue := Issue(NetworkCommand.ListenViaRelay(relayAddr));
    var dequeue, connect := Dequeue(true, true, outcome), Established(peer, outcome);
    var announce := Label.NewListenAddr(address, Some(0));
    var labels := [issue, dequeue, connect, announce];
    assert CIRCUIT_TEXT == "/p2p-circuit";
    RelayCycle(cfg, relayAddr, peer, address, outcome);
    RunFourMore(cfg, [], issue, dequeue, connect, announce);
    assert [] + labels == labels && Run(cfg, []) == Init();
    AnsweredIsReplied(cfg, labels, 0);
    LocalAddressesAreAnnounced(cfg, labels + [Resume]);
    FlatMapOne(SuccessAddr, Exchange(issue.cmd, ListenSuccess(Print(address))));
    hide Run, Next, Print, Contains, Destination, Subsequence, FlatMap;
  }
}
