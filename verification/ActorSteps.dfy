/** What each step of the actor changes, field by field: the messages' side of the state
    machine, for the proofs about messages. */
module ActorSteps {
  import opened Types
  import opened Collections
  import opened Addresses
  import opened ActorModel

  // --- Branch by branch ---

  lemma IssueFrame(cfg: Config, s: State, cmd: NetworkCommand)
    ensures var s' := IssueCommand(cfg, s, cmd);
            && s'.events == s.events && s'.parked == s.parked && s'.connections == s.connections
            && s'.attempts == s.attempts && s'.lost == s.lost
            && s'.next == s.next + (if cmd.SendMessage? then 1 else 0)
            && s'.commands == s.commands + CommandOf(cfg, s, cmd)
            && s'.exchanges == s.exchanges + FinishedAtOnce(s, cmd)
            && s'.requests == s.requests + if cmd.Listen? || cmd.ListenViaRelay? then [cmd] else []
  {
    hide TranslateAddress;
  }

  /** The command that a front-end call puts into the channel. */
  function CommandOf(cfg: Config, s: State, cmd: NetworkCommand): seq<SwarmCommand> {
    match cmd
    case SendMessage(addr, msg) => [Send(s.next, TranslateAddress(cfg.nodeType, addr), msg)]
    case Listen(addr) => [SwarmCommand.Listen(addr, |s.requests|)]
    case GetLocalAddresses => []
    case ListenViaRelay(relayAddr) => [SwarmCommand.ListenViaRelay(relayAddr, |s.requests|)]
  }

  function FinishedAtOnce(s: State, cmd: NetworkCommand): seq<Exchange> {
    match cmd
    case SendMessage(_, _) => [Exchange(cmd, MessageSent(s.next))]
    case GetLocalAddresses => [Exchange(cmd, LocalAddresses(s.localAddrs))]
    case _ => []
  }

  function ResumeReply(s: State): (reply: NetworkReply)
    requires s.waiting.Some?
    ensures !reply.MessageSent?
  {
    if s.waiting.value !in s.mailbox then Failure(EventLoopDropped)
    else match s.mailbox[s.waiting.value]
      case Ok(addr) => ListenSuccess(addr)
      case Err(reason) => Failure(reason)
  }

  /** Nothing about messages changes. */
  predicate SameMessages(s: State, s': State) {
    && s'.next == s.next && s'.commands == s.commands && s'.requests == s.requests
    && s'.events == s.events && s'.parked == s.parked && s'.connections == s.connections
    && s'.attempts == s.attempts && s'.lost == s.lost
  }

  lemma ResumeFrame(s: State)
    requires s.waiting.Some? && s.waiting.value < |s.requests|
    ensures SameMessages(s, ResumeCommand(s))
    ensures ResumeCommand(s).exchanges == s.exchanges + [Exchange(s.requests[s.waiting.value], ResumeReply(s))]
  {
  }

  lemma NewListenAddrFrame(s: State, address: Multiaddr)
    ensures SameMessages(s, OnNewListenAddr(s, address))
    ensures OnNewListenAddr(s, address).exchanges == s.exchanges
  {
    hide Print, Contains;
  }

  lemma DoSendFrame(cfg: Config, s: State, item: Item, addr: Address, dialOk: bool, outcome: MessageId -> Outcome)
    ensures var s' := DoSend(cfg, s, item, addr, dialOk, outcome);
            match Destination(cfg, addr)
            case None => s'.parked == s.parked && s'.attempts == s.attempts && s'.lost == s.lost
            case Some(peer) =>
              if peer in s.connections then
                s'.parked == s.parked && s'.lost == s.lost &&
                s'.attempts == s.attempts + AttemptsOf(peer, [item], outcome)
              else if dialOk then
                s'.parked == s.parked[peer := Queue(s.parked, peer) + [item]] &&
                s'.lost == s.lost && s'.attempts == s.attempts
              else
                s'.parked == s.parked - {peer} &&
                s'.lost == s.lost + Ids(Queue(s.parked, peer)) && s'.attempts == s.attempts
  {
    hide LastPeer, AttemptsOf, FailuresOf, Ids;
  }

  lemma DoSendKeeps(cfg: Config, s: State, item: Item, addr: Address, dialOk: bool, outcome: MessageId -> Outcome)
    ensures var s' := DoSend(cfg, s, item, addr, dialOk, outcome);
            && s'.next == s.next && s'.commands == s.commands && s'.requests == s.requests
            && s'.connections == s.connections && s'.exchanges == s.exchanges
            && s.events <= s'.events
  {
    hide LastPeer, AttemptsOf, FailuresOf, Ids;
  }

  lemma RunCommandFrame(cfg: Config, s: State, cmd: SwarmCommand, listenOk: bool, dialOk: bool,
                        outcome: MessageId -> Outcome)
    ensures var s' := RunCommand(cfg, s, cmd, listenOk, dialOk, outcome);
            && s'.next == s.next && s'.commands == s.commands && s'.requests == s.requests
            && s'.connections == s.connections && s'.exchanges == s.exchanges
            && s.events <= s'.events
            && (!cmd.Send? ==> SameMessages(s, s'))
  {
    hide DoSend;
    if cmd.Send? {
      DoSendKeeps(cfg, s, Item(cmd.id, cmd.msg), cmd.addr, dialOk, outcome);
    }
  }

  lemma EstablishedFrame(cfg: Config, s: State, peer: PeerId, outcome: MessageId -> Outcome)
    ensures var s' := OnEstablished(cfg, s, peer, outcome);
            && s'.next == s.next && s'.commands == s.commands && s'.requests == s.requests
            && s'.exchanges == s.exchanges && s'.lost == s.lost
            && s.events <= s'.events
            && s'.connections == s.connections + multiset{peer}
            && s'.parked == s.parked - {peer}
            && s'.attempts == s.attempts + AttemptsOf(peer, Queue(s.parked, peer), outcome)
  {
    hide LastPeer, FailuresOf, AttemptsOf;
  }

  // --- Step by step ---

  /** The head of the channel is for an unconnected peer, and dialling it is refused at once. */
  predicate DialRefused(cfg: Config, s: State, l: Label, peer: PeerId) {
    && l.Dequeue? && s.commands != [] && s.commands[0].Send?
    && Destination(cfg, s.commands[0].addr) == Some(peer)
    && peer !in s.connections
    && !l.dialOk
  }

  predicate Dispatches(cfg: Config, s: State, l: Label, peer: PeerId) {
    && l.Dequeue? && s.commands != [] && s.commands[0].Send?
    && Destination(cfg, s.commands[0].addr) == Some(peer)
  }

  function Head(s: State): Item
    requires s.commands != [] && s.commands[0].Send?
  {
    Item(s.commands[0].id, s.commands[0].msg)
  }

  predicate HeadLeads(cfg: Config, s: State, l: Label) {
    l.Dequeue? && s.commands != [] && s.commands[0].Send? && Destination(cfg, s.commands[0].addr).Some?
  }

  function HeadPeer(cfg: Config, s: State, l: Label): PeerId
    requires HeadLeads(cfg, s, l)
  {
    Destination(cfg, s.commands[0].addr).value
  }

  /** The front end's side of a step: numbers, channel, finished commands. */
  lemma {:induction false} StepFront(cfg: Config, s: State, l: Label)
    requires Enabled(s, l)
    ensures var s' := Step(cfg, s, l);
            && s'.next == s.next + (if l.Issue? && l.cmd.SendMessage? then 1 else 0)
            && s'.commands == (if l.Dequeue? then s.commands[1..]
                               else if l.Issue? then s.commands + CommandOf(cfg, s, l.cmd) else s.commands)
            && s'.exchanges == (match l
                 case Issue(cmd) => s.exchanges + FinishedAtOnce(s, cmd)
                 case Resume => s.exchanges + [Exchange(s.requests[s.waiting.value], ResumeReply(s))]
                 case _ => s.exchanges)
            && s'.requests == (if l.Issue? && (l.cmd.Listen? || l.cmd.ListenViaRelay?) then s.requests + [l.cmd]
                               else s.requests)
            && s.events <= s'.events
  {
    hide IssueCommand, ResumeCommand, OnNewListenAddr, OnEstablished, RunCommand,
         CommandOf, FinishedAtOnce, ResumeReply;
    match l {
      case Issue(cmd) => IssueFrame(cfg, s, cmd);
      case Resume => ResumeFrame(s);
      case Dequeue(listenOk, dialOk, outcome) =>
        RunCommandFrame(cfg, s.(commands := s.commands[1..]), s.commands[0], listenOk, dialOk, outcome);
      case NewListenAddr(address, _) => NewListenAddrFrame(s, address);
      case Established(peer, outcome) => EstablishedFrame(cfg, s, peer, outcome);
      case _ =>
    }
  }

  /** The event loop's side of a step: connections, queues, attempts, losses. */
  lemma {:induction false} StepQueues(cfg: Config, s: State, l: Label)
    requires Enabled(s, l)
    ensures var s' := Step(cfg, s, l);
            match l
            case Established(peer, outcome) =>
              && s'.connections == s.connections + multiset{peer}
              && s'.parked == s.parked - {peer}
              && s'.attempts == s.attempts + AttemptsOf(peer, Queue(s.parked, peer), outcome)
              && s'.lost == s.lost
            case Dequeue(_, _, outcome) =>
              && s'.connections == s.connections
              && (if !HeadLeads(cfg, s, l) then
                    s'.parked == s.parked && s'.attempts == s.attempts && s'.lost == s.lost
                  else
                    var peer := HeadPeer(cfg, s, l);
                    if peer in s.connections then
                      s'.parked == s.parked && s'.lost == s.lost &&
                      s'.attempts == s.attempts + AttemptsOf(peer, [Head(s)], outcome)
                    else if DialRefused(cfg, s, l, peer) then
                      s'.parked == s.parked - {peer} &&
                      s'.lost == s.lost + Ids(Queue(s.parked, peer)) && s'.attempts == s.attempts
                    else
                      s'.parked == s.parked[peer := Queue(s.parked, peer) + [Head(s)]] &&
                      s'.lost == s.lost && s'.attempts == s.attempts)
            case _ =>
              && s'.connections == (if l.Closed? then s.connections - multiset{l.peer} else s.connections)
              && s'.parked == s.parked && s'.attempts == s.attempts && s'.lost == s.lost
  {
    hide IssueCommand, ResumeCommand, OnNewListenAddr, OnEstablished, DoSend, LastPeer;
    match l {
      case Issue(cmd) => IssueFrame(cfg, s, cmd);
      case Resume => ResumeFrame(s);
      case Dequeue(listenOk, dialOk, outcome) =>
        var s1, cmd := s.(commands := s.commands[1..]), s.commands[0];
        RunCommandFrame(cfg, s1, cmd, listenOk, dialOk, outcome);
        if cmd.Send? {
          DoSendFrame(cfg, s1, Head(s), cmd.addr, dialOk, outcome);
        }
        hide RunCommand, Destination;
        assert cmd.Send? ==> Step(cfg, s, l) == DoSend(cfg, s1, Head(s), cmd.addr, dialOk, outcome) by {
          SendIsDoSend(cfg, s1, cmd, listenOk, dialOk, outcome);
        }
      case NewListenAddr(address, _) => NewListenAddrFrame(s, address);
      case Established(peer, outcome) => EstablishedFrame(cfg, s, peer, outcome);
      case _ =>
    }
  }

  lemma SendIsDoSend(cfg: Config, s: State, cmd: SwarmCommand, listenOk: bool, dialOk: bool,
                     outcome: MessageId -> Outcome)
    ensures cmd.Send? ==> RunCommand(cfg, s, cmd, listenOk, dialOk, outcome) ==
                          DoSend(cfg, s, Item(cmd.id, cmd.msg), cmd.addr, dialOk, outcome)
  {
    hide DoSend;
  }

  // --- Concrete runs ---

  lemma RunOneMore(cfg: Config, labels: seq<Label>, l: Label)
    ensures Run(cfg, labels + [l]) == Next(cfg, Run(cfg, labels), l)
  {
    hide Next;
    assert (labels + [l])[..|labels|] == labels;
  }

  lemma RunFourMore(cfg: Config, labels: seq<Label>, l1: Label, l2: Label, l3: Label, l4: Label)
    ensures Run(cfg, labels + [l1, l2, l3, l4]) ==
            Next(cfg, Next(cfg, Next(cfg, Next(cfg, Run(cfg, labels), l1), l2), l3), l4)
  {
    RunOneMore(cfg, labels, l1);
    RunOneMore(cfg, labels + [l1], l2);
    RunOneMore(cfg, labels + [l1] + [l2], l3);
    RunOneMore(cfg, labels + [l1] + [l2] + [l3], l4);
    assert labels + [l1] + [l2] + [l3] + [l4] == labels + [l1, l2, l3, l4];
    hide *;
  }
}
