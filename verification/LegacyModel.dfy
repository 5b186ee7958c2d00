/** The earlier callback network of meerkat-net as a state machine over the same labels, and
    the proof that the actor moves in lockstep with it. */
module LegacyModel {
  import opened Types
  import opened Collections
  import opened Addresses
  import A = ActorModel
  import Replies = ActorReplies
  import opened ActorReports

  datatype Command =
    | Send(id: MessageId, addr: Address, msg: Message)
    | Listen(addr: Address, token: A.Token)

  /** A call of the on_send_error callback. */
  datatype ErrorCall = ErrorCall(id: MessageId, error: SendError)

  datatype State = State(
    next: MessageId,
    waiting: Option<A.Token>,
    commands: seq<Command>,
    mailbox: map<A.Token, Result<Address, Refusal>>,
    localAddrs: seq<Address>,             // shared with the event loop, which fills it
    parked: map<PeerId, seq<Item>>,
    pendingListen: Option<A.Token>,
    connections: multiset<PeerId>,
    // history
    listens: nat,                         // listen calls so far
    dropped: seq<A.Token>,
    attempts: seq<A.Attempt>,
    errors: seq<ErrorCall>,               // calls of the on_send_error callback
    messages: seq<NetworkEvent>)          // calls of the on_message callback

  function Init(): State {
    State(1, None, [], map[], [], map[], None, multiset{}, 0, [], [], [], [])
  }

  /** The calls of the interface, up to their first await. Relay listening does not exist here. */
  function Call(s: State, cmd: NetworkCommand): State {
    match cmd
    case SendMessage(addr, msg) => s.(next := s.next + 1, commands := s.commands + [Send(s.next, addr, msg)])
    case Listen(addr) =>
      s.(commands := s.commands + [Command.Listen(addr, s.listens)],
         waiting := Some(s.listens),
         listens := s.listens + 1)
    case _ => s
  }

  function ErrorCallOf(outcome: MessageId -> A.Outcome): Item -> seq<ErrorCall> {
    (item: Item) => if outcome(item.id) == A.Delivered then [] else [ErrorCall(item.id, ProtocolError)]
  }

  function ErrorCallsOf(items: seq<Item>, outcome: MessageId -> A.Outcome): seq<ErrorCall> {
    FlatMap(ErrorCallOf(outcome), items)
  }

  function SendAll(s: State, peer: PeerId, items: seq<Item>, outcome: MessageId -> A.Outcome): State {
    s.(attempts := s.attempts + A.AttemptsOf(peer, items, outcome),
       errors := s.errors + ErrorCallsOf(items, outcome))
  }

  function Fail(s: State, id: MessageId, error: SendError): State {
    s.(errors := s.errors + [ErrorCall(id, error)])
  }

  function HandleSend(cfg: A.Config, s: State, item: Item, addr: Address, dialOk: bool,
                      outcome: MessageId -> A.Outcome): State {
    match cfg.parse(addr)
    case None => Fail(s, item.id, UnreachableAddress(addr))
    case Some(m) =>
      match FirstPeer(m)
      case None => Fail(s, item.id, ProtocolError)
      case Some(peer) =>
        if peer in s.connections then SendAll(s, peer, [item], outcome)
        else if dialOk then s.(parked := s.parked[peer := A.Queue(s.parked, peer) + [item]])
        else Fail(s, item.id, ProtocolError).(parked := s.parked - {peer})
  }

  function RunCommand(cfg: A.Config, s: State, cmd: Command, listenOk: bool, dialOk: bool,
                      outcome: MessageId -> A.Outcome): State {
    match cmd
    case Send(id, addr, msg) => HandleSend(cfg, s, Item(id, msg), addr, dialOk, outcome)
    case Listen(addr, token) =>
      if cfg.parse(addr) == None then s.(mailbox := s.mailbox[token := Err(InvalidAddress)])
      else if !listenOk then s.(mailbox := s.mailbox[token := Err(ListenRejected)])
      else s.(pendingListen := Some(token), dropped := s.dropped + A.ListenSlot(s.pendingListen))
  }

  function OnNewListenAddr(s: State, address: Multiaddr): State {
    var addr := Print(address);
    var s := s.(localAddrs := s.localAddrs + [addr]);
    if s.pendingListen.Some? then
      s.(pendingListen := None, mailbox := s.mailbox[s.pendingListen.value := Ok(addr)])
    else s
  }

  function OnEstablished(s: State, peer: PeerId, outcome: MessageId -> A.Outcome): State {
    SendAll(s.(connections := s.connections + multiset{peer}, parked := s.parked - {peer}),
            peer, A.Queue(s.parked, peer), outcome)
  }

  predicate Enabled(s: State, l: A.Label) {
    match l
    case Issue(_) => s.waiting == None
    case Resume => s.waiting.Some? && s.waiting.value < s.listens &&
                   (s.waiting.value in s.mailbox || s.waiting.value in s.dropped)
    case Dequeue(_, _, _) => s.commands != []
    case Closed(peer) => peer in s.connections
    case _ => true
  }

  function Step(cfg: A.Config, s: State, l: A.Label): State
    requires Enabled(s, l)
  {
    match l
    case Issue(cmd) => Call(s, cmd)
    case Resume => s.(waiting := None)
    case Dequeue(listenOk, dialOk, outcome) =>
      RunCommand(cfg, s.(commands := s.commands[1..]), s.commands[0], listenOk, dialOk, outcome)
    case NewListenAddr(address, _) => OnNewListenAddr(s, address)
    case Established(peer, outcome) => OnEstablished(s, peer, outcome)
    case Closed(peer) => s.(connections := s.connections - multiset{peer})
    case Incoming(peer, msg) => s.(messages := s.messages + [MessageReceived(peer, msg)])
    case _ => s
  }

  function Next(cfg: A.Config, s: State, l: A.Label): State {
    if Enabled(s, l) then Step(cfg, s, l) else s
  }

  function Run(cfg: A.Config, labels: seq<A.Label>): State {
    if labels == [] then Init()
    else Next(cfg, Run(cfg, labels[..|labels| - 1]), labels[|labels| - 1])
  }

  // --- Replies ---

  lemma NextWaits(cfg: A.Config, s: State, l: A.Label)
    requires s.waiting.Some? ==> s.waiting.value < s.listens
    ensures var s' := Next(cfg, s, l); s'.waiting.Some? ==> s'.waiting.value < s'.listens
  {
    hide FirstPeer, A.AttemptsOf, ErrorCallsOf, Print;
  }

  lemma {:induction false} RunWaits(cfg: A.Config, labels: seq<A.Label>)
    ensures var s := Run(cfg, labels); s.waiting.Some? ==> s.waiting.value < s.listens
  {
    if labels != [] {
      RunWaits(cfg, labels[..|labels| - 1]);
      NextWaits(cfg, Run(cfg, labels[..|labels| - 1]), labels[|labels| - 1]);
      hide Next;
    }
  }

  /** As soon as a waiting listen call has been answered, either way, it returns. */
  lemma {:induction false} AnsweredReturns(cfg: A.Config, labels: seq<A.Label>, t: A.Token)
    requires Run(cfg, labels).waiting == Some(t) && t in Run(cfg, labels).mailbox
    ensures Run(cfg, labels + [A.Resume]) == Run(cfg, labels).(waiting := None)
  {
    RunWaits(cfg, labels);
    assert (labels + [A.Resume])[..|labels|] == labels;
    assert Run(cfg, labels + [A.Resume]) == Next(cfg, Run(cfg, labels), A.Resume);
    hide Run;
  }

  // --- Lockstep ---

  function Translated(commands: seq<A.SwarmCommand>): seq<Command> {
    FlatMap(TranslatedOne, commands)
  }

  function TranslatedOne(cmd: A.SwarmCommand): seq<Command> {
    match cmd
    case Send(id, addr, msg) => [Send(id, addr, msg)]
    case Listen(addr, token) => [Command.Listen(addr, token)]
    case ListenViaRelay(_, _) => []
  }

  function ReportedOne(event: NetworkEvent): seq<ErrorCall> {
    if event.SendFailed? then [ErrorCall(event.id, event.error)] else []
  }

  /** The reported failures, by id and kind of error. */
  function Reported(events: seq<NetworkEvent>): seq<ErrorCall> {
    FlatMap(ReportedOne, events)
  }

  /** Both networks read the same peer, or none, from the address. */
  predicate RoutesAlike(cfg: A.Config, addr: Address) {
    match cfg.parse(addr)
    case None => true
    case Some(m) => FirstPeer(m) == LastPeer(m)
  }

  /** The label is within what both networks offer and treat alike. */
  predicate Common(cfg: A.Config, l: A.Label) {
    l.Issue? ==> match l.cmd
      case SendMessage(addr, _) => RoutesAlike(cfg, addr)
      case ListenViaRelay(_) => false
      case _ => true
  }

  predicate CommandCommon(cfg: A.Config, cmd: A.SwarmCommand) {
    match cmd
    case Send(_, addr, _) => RoutesAlike(cfg, addr)
    case Listen(_, _) => true
    case ListenViaRelay(_, _) => false
  }

  ghost predicate Lockstep(cfg: A.Config, s: A.State, l: State) {
    && l.next == s.next && l.waiting == s.waiting && l.listens == |s.requests|
    && (forall i :: 0 <= i < |s.commands| ==> CommandCommon(cfg, s.commands[i]))
    && l.commands == Translated(s.commands)
    && l.mailbox == s.mailbox && l.dropped == s.dropped
    && l.parked == s.parked && l.connections == s.connections
    && l.pendingListen == s.pendingListen && s.pendingRelay == None
    && l.attempts == s.attempts
    && l.errors == Reported(s.events) && l.messages == Receptions(s.events)
    && l.localAddrs == s.listenLog
  }

  lemma {:induction false} ReportedFailures(items: seq<Item>, outcome: MessageId -> A.Outcome)
    ensures Reported(A.FailuresOf(items, outcome)) == ErrorCallsOf(items, outcome)
  {
    if items != [] {
      ReportedFailures(items[1..], outcome);
      FlatMapConcat(ReportedOne, A.FailureEvent(outcome)(items[0]), A.FailuresOf(items[1..], outcome));
      FlatMapOne(ReportedOne, SendFailed(items[0].id, ProtocolError));
    }
  }

  lemma TranslatedHead(cfg: A.Config, commands: seq<A.SwarmCommand>)
    requires commands != [] && CommandCommon(cfg, commands[0])
    ensures Translated(commands) != [] && Translated(commands)[1..] == Translated(commands[1..])
    ensures Translated(commands)[0] == match commands[0]
                                       case Send(id, addr, msg) => Send(id, addr, msg)
                                       case Listen(addr, token) => Command.Listen(addr, token)
                                       case ListenViaRelay(relayAddr, token) => Command.Listen(relayAddr, token)
  {
  }

  lemma CallLockstep(cfg: A.Config, s: A.State, l: State, cmd: NetworkCommand)
    requires Lockstep(cfg, s, l) && Common(cfg, A.Issue(cmd)) && cfg.nodeType == Server
    ensures Lockstep(cfg, A.IssueCommand(cfg, s, cmd), Call(l, cmd))
  {
    hide LastPeer, FirstPeer, FlatMap, RoutesAlike;
    var s' := A.IssueCommand(cfg, s, cmd);
    if s'.commands != s.commands {
      var last := s'.commands[|s.commands|];
      FlatMapSnoc(TranslatedOne, s.commands, last);
    }
  }

  lemma SendAllLockstep(cfg: A.Config, s: A.State, l: State, peer: PeerId, items: seq<Item>,
                        outcome: MessageId -> A.Outcome)
    requires Lockstep(cfg, s, l)
    ensures Lockstep(cfg, A.SendAll(s, peer, items, outcome), SendAll(l, peer, items, outcome))
  {
    FlatMapConcat(ReportedOne, s.events, A.FailuresOf(items, outcome));
    FlatMapConcat(Reception, s.events, A.FailuresOf(items, outcome));
    ReportedFailures(items, outcome);
    FailuresHoldNoReceptions(items, outcome);
    hide FlatMap, A.AttemptsOf, CommandCommon;
  }

  lemma FailLockstep(cfg: A.Config, s: A.State, l: State, id: MessageId, error: SendError)
    requires Lockstep(cfg, s, l)
    ensures Lockstep(cfg, A.Fail(s, id, error), Fail(l, id, error))
  {
    FlatMapSnoc(ReportedOne, s.events, SendFailed(id, error));
    FlatMapSnoc(Reception, s.events, SendFailed(id, error));
    hide FlatMap, CommandCommon;
  }

  /** Changing the parked queues alike keeps the lockstep. */
  lemma ParkLockstep(cfg: A.Config, s: A.State, l: State, parked: map<PeerId, seq<Item>>, lost: seq<MessageId>)
    requires Lockstep(cfg, s, l)
    ensures Lockstep(cfg, s.(parked := parked, lost := lost), l.(parked := parked))
  {
    hide FlatMap, CommandCommon;
  }

  lemma HandleSendLockstep(cfg: A.Config, s: A.State, l: State, item: Item, addr: Address, dialOk: bool,
                           outcome: MessageId -> A.Outcome)
    requires Lockstep(cfg, s, l) && RoutesAlike(cfg, addr)
    ensures Lockstep(cfg, A.DoSend(cfg, s, item, addr, dialOk, outcome),
                     HandleSend(cfg, l, item, addr, dialOk, outcome))
  {
    assert l.parked == s.parked && l.connections == s.connections;
    hide Lockstep, LastPeer, FirstPeer, SendAll, A.SendAll;
    match A.Destination(cfg, addr) {
      case None =>
        FailLockstep(cfg, s, l, item.id, if cfg.parse(addr) == None then UnreachableAddress(addr) else ProtocolError);
      case Some(peer) =>
        SendAllLockstep(cfg, s, l, peer, [item], outcome);
        ParkLockstep(cfg, s, l, s.parked[peer := A.Queue(s.parked, peer) + [item]], s.lost);
        FailLockstep(cfg, s, l, item.id, ProtocolError);
        ParkLockstep(cfg, A.Fail(s, item.id, ProtocolError), Fail(l, item.id, ProtocolError),
                     s.parked - {peer}, s.lost + A.Ids(A.Queue(s.parked, peer)));
    }
  }

  lemma DequeueLockstep(cfg: A.Config, s: A.State, l: State, listenOk: bool, dialOk: bool,
                        outcome: MessageId -> A.Outcome)
    requires Lockstep(cfg, s, l) && s.commands != []
    ensures l.commands != []
    ensures Lockstep(cfg,
                     A.RunCommand(cfg, s.(commands := s.commands[1..]), s.commands[0], listenOk, dialOk, outcome),
                     RunCommand(cfg, l.(commands := l.commands[1..]), l.commands[0], listenOk, dialOk, outcome))
  {
    TranslatedHead(cfg, s.commands);
    var s1, l1 := s.(commands := s.commands[1..]), l.(commands := l.commands[1..]);
    assert CommandCommon(cfg, s.commands[0]);
    TakeLockstep(cfg, s, l);
    hide FlatMap, RoutesAlike, A.DoSend, HandleSend;
    if s.commands[0].Send? {
      var cmd := s.commands[0];
      HandleSendLockstep(cfg, s1, l1, Item(cmd.id, cmd.msg), cmd.addr, dialOk, outcome);
      hide Lockstep;
    }
  }

  lemma TakeLockstep(cfg: A.Config, s: A.State, l: State)
    requires Lockstep(cfg, s, l) && s.commands != [] && l.commands != []
    requires l.commands[1..] == Translated(s.commands[1..])
    ensures Lockstep(cfg, s.(commands := s.commands[1..]), l.(commands := l.commands[1..]))
  {
    hide FlatMap, CommandCommon;
  }

  lemma NewListenAddrLockstep(cfg: A.Config, s: A.State, l: State, address: Multiaddr)
    requires Lockstep(cfg, s, l)
    ensures Lockstep(cfg, A.OnNewListenAddr(s, address), OnNewListenAddr(l, address))
  {
    hide FlatMap, CommandCommon, Print, Contains;
  }

  lemma EstablishedLockstep(cfg: A.Config, s: A.State, l: State, peer: PeerId, outcome: MessageId -> A.Outcome)
    requires Lockstep(cfg, s, l)
    ensures Lockstep(cfg, A.OnEstablished(cfg, s, peer, outcome), OnEstablished(l, peer, outcome))
  {
    var s1 := s.(connections := s.connections + multiset{peer}, events := s.events + [PeerConnected(peer)],
                 parked := s.parked - {peer});
    var l1 := l.(connections := l.connections + multiset{peer}, parked := l.parked - {peer});
    FlatMapSnoc(ReportedOne, s.events, PeerConnected(peer));
    FlatMapSnoc(Reception, s.events, PeerConnected(peer));
    hide FlatMap, CommandCommon, A.AttemptsOf, LastPeer;
    assert Lockstep(cfg, s1, l1);
    SendAllLockstep(cfg, s1, l1, peer, A.Queue(s.parked, peer), outcome);
    assert A.OnEstablished(cfg, s, peer, outcome) == A.SendAll(s1, peer, A.Queue(s.parked, peer), outcome);
  }

  lemma EventLockstep(cfg: A.Config, s: A.State, l: State, connections: multiset<PeerId>, event: NetworkEvent)
    requires Lockstep(cfg, s, l) && !event.SendFailed?
    ensures Lockstep(cfg, s.(connections := connections, events := s.events + [event]),
                     l.(connections := connections, messages := l.messages + Reception(event)))
  {
    FlatMapSnoc(ReportedOne, s.events, event);
    FlatMapSnoc(Reception, s.events, event);
    hide FlatMap, CommandCommon;
  }

  lemma ResumeLockstep(cfg: A.Config, s: A.State, l: State)
    requires Lockstep(cfg, s, l) && A.Enabled(s, A.Resume)
    ensures Lockstep(cfg, A.ResumeCommand(s), l.(waiting := None))
  {
    hide FlatMap, CommandCommon;
  }

  lemma EnabledAlike(cfg: A.Config, s: A.State, l: State, event: A.Label)
    requires Lockstep(cfg, s, l)
    ensures A.Enabled(s, event) <==> Enabled(l, event)
  {
    if s.commands != [] {
      assert CommandCommon(cfg, s.commands[0]);
      TranslatedHead(cfg, s.commands);
    }
    hide FlatMap;
  }

  lemma NextLockstep(cfg: A.Config, s: A.State, l: State, event: A.Label)
    requires Lockstep(cfg, s, l) && Common(cfg, event) && cfg.nodeType == Server
    ensures Lockstep(cfg, A.Next(cfg, s, event), Next(cfg, l, event))
  {
    EnabledAlike(cfg, s, l, event);
    if A.Enabled(s, event) {
      assert l.connections == s.connections;
      hide Lockstep, A.IssueCommand, A.ResumeCommand, A.RunCommand, A.OnNewListenAddr, A.OnEstablished,
           Call, RunCommand, OnNewListenAddr, OnEstablished;
      match event {
        case Issue(cmd) => CallLockstep(cfg, s, l, cmd);
        case Resume => ResumeLockstep(cfg, s, l);
        case Dequeue(listenOk, dialOk, outcome) => DequeueLockstep(cfg, s, l, listenOk, dialOk, outcome);
        case Incoming(peer, msg) => EventLockstep(cfg, s, l, s.connections, MessageReceived(peer, msg));
        case NewListenAddr(address, _) => NewListenAddrLockstep(cfg, s, l, address);
        case Established(peer, outcome) => EstablishedLockstep(cfg, s, l, peer, outcome);
        case Closed(peer) =>
          EventLockstep(cfg, s, l, s.connections - multiset{peer}, PeerDisconnected(peer));
        case OtherSwarmEvent =>
      }
    }
  }

  /** On a server node, without relay requests and with addresses both networks read alike, the
      two networks run in lockstep: from the same commands and the same network behaviour
      they have the same messages parked and attempted and report the same failures. */
  lemma {:induction false} RunLockstep(cfg: A.Config, labels: seq<A.Label>)
    requires cfg.nodeType == Server
    requires forall i :: 0 <= i < |labels| ==> Common(cfg, labels[i])
    ensures Lockstep(cfg, A.Run(cfg, labels), Run(cfg, labels))
  {
    hide A.Next, Next, Common;
    if labels != [] {
      var n := |labels| - 1;
      RunLockstep(cfg, labels[..n]);
      hide Lockstep;
      NextLockstep(cfg, A.Run(cfg, labels[..n]), Run(cfg, labels[..n]), labels[n]);
    }
  }

  /** The actor's local addresses are a subsequence of the legacy ones: it keeps an announced
      address only if it answers a request. */
  lemma {:induction false} LocalAddressesAreLegacyOnes(cfg: A.Config, labels: seq<A.Label>)
    requires cfg.nodeType == Server
    requires forall i :: 0 <= i < |labels| ==> Common(cfg, labels[i])
    ensures Subsequence(A.Run(cfg, labels).localAddrs, Run(cfg, labels).localAddrs)
  {
    RunLockstep(cfg, labels);
    Replies.LocalAddressesAreAnnounced(cfg, labels);
    hide A.Run, Run, Subsequence;
  }

  /** The condition on addresses is the exact one: already the first message sent to an address
      is parked for the same peer by both networks iff they read it alike. */
  lemma ParkedAlikeIffRoutesAlike(cfg: A.Config, addr: Address, msg: Message, outcome: MessageId -> A.Outcome)
    requires cfg.nodeType == Server
    ensures var labels := [A.Issue(SendMessage(addr, msg)), A.Dequeue(true, true, outcome)];
            A.Run(cfg, labels).parked == Run(cfg, labels).parked <==> RoutesAlike(cfg, addr)
  {
    var issue, dequeue := A.Issue(SendMessage(addr, msg)), A.Dequeue(true, true, outcome);
    var labels := [issue, dequeue];
    assert labels[..1] == [issue] && [issue][..0] == [];
    assert A.Run(cfg, [issue]) == A.Next(cfg, A.Init(), issue);
    assert Run(cfg, [issue]) == Next(cfg, Init(), issue);
    assert A.Run(cfg, labels) == A.Next(cfg, A.Run(cfg, [issue]), dequeue);
    assert Run(cfg, labels) == Next(cfg, Run(cfg, [issue]), dequeue);
    if cfg.parse(addr).Some? {
      LastPeerFromFront(cfg.parse(addr).value);
    }
    hide LastPeer, FirstPeer;
    var item := Item(1, msg);
    var s, l := A.Run(cfg, [issue]), Run(cfg, [issue]);
    assert s.commands == [A.Send(1, addr, msg)] && s.parked == map[] && s.connections == multiset{};
    assert l.commands == [Send(1, addr, msg)] && l.parked == map[] && l.connections == multiset{};
    assert [] + [item] == [item];
    assert A.Run(cfg, labels).parked == match A.Destination(cfg, addr)
                                        case None => map[]
                                        case Some(peer) => map[peer := [item]];
    if RoutesAlike(cfg, addr) {
    } else {
      var first, last := FirstPeer(cfg.parse(addr).value).value, LastPeer(cfg.parse(addr).value).value;
      assert Run(cfg, labels).parked == map[first := [item]];
      assert last in A.Run(cfg, labels).parked && last !in Run(cfg, labels).parked;
    }
  }
}
