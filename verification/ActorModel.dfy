/** The network actor as a state machine. One label is one atomic step: a front-end call up to
    its first await, the resumption of a waiting front end, one branch of the event loop's
    select (each branch is awaited to its end before the loop polls again), or the delivery of
    one incoming stream. What libp2p answers is part of the label. */
module ActorModel {
  import opened Types
  import opened Collections
  import opened Addresses

  /** The node type, and multiaddr parsing as an arbitrary partial function. */
  datatype Config = Config(nodeType: NodeType, parse: Address -> Option<Multiaddr>)

  /** Oneshot channels are named by the number of the request that created them. */
  type Token = nat

  datatype SwarmCommand =
    | Send(id: MessageId, addr: Address, msg: Message)
    | Listen(addr: Address, token: Token)
    | ListenViaRelay(relayAddr: Address, token: Token)

  datatype RelayRequest = RelayRequest(relayAddr: Address, token: Token)

  /** What opening a stream and writing a message to it comes to. */
  datatype Outcome = Delivered | OpenFailed | WriteFailed

  // Records of the history.

  datatype Attempt = Attempt(peer: PeerId, item: Item, outcome: Outcome)

  datatype Exchange = Exchange(cmd: NetworkCommand, reply: NetworkReply)

  /** A successful reply to a parked request: it was parked when `parkedAt` listen addresses
      had been announced, and number `at` answered it. */
  datatype Grant = Grant(token: Token, viaRelay: bool, addr: Address, parkedAt: nat, at: nat)

  /** A circuit listen_on made for a parked relay request. */
  datatype CircuitListen = CircuitListen(peer: PeerId, token: Token, relayAddr: Address, arg: Multiaddr, logged: nat)

  datatype State = State(
    // the front end
    next: MessageId,
    localAddrs: seq<Address>,
    waiting: Option<Token>,
    // channels
    commands: seq<SwarmCommand>,
    mailbox: map<Token, Result<Address, Refusal>>,
    events: seq<NetworkEvent>,
    // the event loop
    parked: map<PeerId, seq<Item>>,
    pendingListen: Option<Token>,
    pendingRelay: Option<RelayRequest>,
    connections: multiset<PeerId>,
    // history
    requests: seq<NetworkCommand>,        // the command behind each token
    exchanges: seq<Exchange>,             // finished commands with their replies
    answers: seq<Token>,                  // tokens in the order of being answered
    dropped: seq<Token>,                  // tokens whose sender was overwritten unanswered
    attempts: seq<Attempt>,
    lost: seq<MessageId>,                 // ids removed from a queue without attempt or report
    listenLog: seq<Address>,              // announced listen addresses
    since: nat,                           // length of listenLog when a slot was last filled
    grants: seq<Grant>,
    circuitListens: seq<CircuitListen>)

  function Init(): State {
    State(1, [], None, [], map[], [], map[], None, None, multiset{},
          [], [], [], [], [], [], [], 0, [], [])
  }

  datatype Label =
    | Issue(cmd: NetworkCommand)
    | Resume
    | Dequeue(listenOk: bool, dialOk: bool, outcome: MessageId -> Outcome)
    | Incoming(peer: PeerId, msg: Message)
    | NewListenAddr(address: Multiaddr, listener: Option<Token>)   // by the listener of a request
    | Established(peer: PeerId, outcome: MessageId -> Outcome)
    | Closed(peer: PeerId)
    | OtherSwarmEvent

  // --- Front end ---

  function IssueCommand(cfg: Config, s: State, cmd: NetworkCommand): State {
    match cmd
    case SendMessage(addr, msg) =>
      s.(next := s.next + 1,
         commands := s.commands + [Send(s.next, TranslateAddress(cfg.nodeType, addr), msg)],
         exchanges := s.exchanges + [Exchange(cmd, MessageSent(s.next))])
    case Listen(addr) =>
      s.(commands := s.commands + [SwarmCommand.Listen(addr, |s.requests|)],
         waiting := Some(|s.requests|),
         requests := s.requests + [cmd])
    case GetLocalAddresses =>
      s.(exchanges := s.exchanges + [Exchange(cmd, LocalAddresses(s.localAddrs))])
    case ListenViaRelay(relayAddr) =>
      s.(commands := s.commands + [SwarmCommand.ListenViaRelay(relayAddr, |s.requests|)],
         waiting := Some(|s.requests|),
         requests := s.requests + [cmd])
  }

  /** The awaited oneshot resolves: with its value, or with an error if its sender is gone. */
  function ResumeCommand(s: State): State
    requires s.waiting.Some?
    requires s.waiting.value < |s.requests|
  {
    var cmd := s.requests[s.waiting.value];
    if s.waiting.value !in s.mailbox then
      s.(waiting := None, exchanges := s.exchanges + [Exchange(cmd, Failure(EventLoopDropped))])
    else match s.mailbox[s.waiting.value]
      case Ok(addr) =>
        s.(waiting := None, localAddrs := s.localAddrs + [addr],
           exchanges := s.exchanges + [Exchange(cmd, ListenSuccess(addr))])
      case Err(reason) =>
        s.(waiting := None, exchanges := s.exchanges + [Exchange(cmd, Failure(reason))])
  }

  // --- Sending ---

  function Queue(parked: map<PeerId, seq<Item>>, peer: PeerId): seq<Item> {
    if peer in parked then parked[peer] else []
  }

  function Ids(items: seq<Item>): (ids: seq<MessageId>)
    ensures |ids| == |items| && forall i :: 0 <= i < |ids| ==> ids[i] == items[i].id
  {
    seq(|items|, i requires 0 <= i < |items| => items[i].id)
  }

  function AttemptsOf(peer: PeerId, items: seq<Item>, outcome: MessageId -> Outcome): (attempts: seq<Attempt>)
    ensures |attempts| == |items|
    ensures forall i :: 0 <= i < |items| ==> attempts[i] == Attempt(peer, items[i], outcome(items[i].id))
  {
    seq(|items|, i requires 0 <= i < |items| => Attempt(peer, items[i], outcome(items[i].id)))
  }

  /** The report of an attempt, if it failed. */
  function FailureEvent(outcome: MessageId -> Outcome): Item -> seq<NetworkEvent> {
    (item: Item) => if outcome(item.id) == Delivered then [] else [SendFailed(item.id, ProtocolError)]
  }

  function FailuresOf(items: seq<Item>, outcome: MessageId -> Outcome): seq<NetworkEvent> {
    FlatMap(FailureEvent(outcome), items)
  }

  /** Try the items in order, each on a stream of its own. */
  function SendAll(s: State, peer: PeerId, items: seq<Item>, outcome: MessageId -> Outcome): State {
    s.(attempts := s.attempts + AttemptsOf(peer, items, outcome),
       events := s.events + FailuresOf(items, outcome))
  }

  function Fail(s: State, id: MessageId, error: SendError): State {
    s.(events := s.events + [SendFailed(id, error)])
  }

  /** The peer an address leads to, if it parses and names one. */
  function Destination(cfg: Config, addr: Address): Option<PeerId> {
    match cfg.parse(addr)
    case None => None
    case Some(m) => LastPeer(m)
  }

  function DoSend(cfg: Config, s: State, item: Item, addr: Address, dialOk: bool,
                  outcome: MessageId -> Outcome): State {
    match Destination(cfg, addr)
    case None =>
      Fail(s, item.id, if cfg.parse(addr) == None then UnreachableAddress(addr) else ProtocolError)
    case Some(peer) =>
      if peer in s.connections then SendAll(s, peer, [item], outcome)
      else if dialOk then s.(parked := s.parked[peer := Queue(s.parked, peer) + [item]])
      else Fail(s, item.id, ProtocolError).(
             parked := s.parked - {peer},
             lost := s.lost + Ids(Queue(s.parked, peer)))
  }

  // --- Replies ---

  function Refuse(s: State, token: Token, reason: Refusal): State {
    s.(mailbox := s.mailbox[token := Err(reason)], answers := s.answers + [token])
  }

  /** Answer a parked request with the address announced last. */
  function Accept(s: State, token: Token, viaRelay: bool, addr: Address): State
    requires s.listenLog != []
  {
    s.(mailbox := s.mailbox[token := Ok(addr)],
       answers := s.answers + [token],
       grants := s.grants + [Grant(token, viaRelay, addr, s.since, |s.listenLog| - 1)])
  }

  /** The reply sender held by a slot. */
  function ListenSlot(slot: Option<Token>): seq<Token> {
    if slot.Some? then [slot.value] else []
  }

  function RelaySlot(slot: Option<RelayRequest>): seq<Token> {
    if slot.Some? then [slot.value.token] else []
  }

  // --- The event loop's branches ---

  function RunCommand(cfg: Config, s: State, cmd: SwarmCommand, listenOk: bool, dialOk: bool,
                      outcome: MessageId -> Outcome): State {
    match cmd
    case Send(id, addr, msg) => DoSend(cfg, s, Item(id, msg), addr, dialOk, outcome)
    case Listen(addr, token) =>
      if cfg.parse(addr) == None then Refuse(s, token, InvalidAddress)
      else if !listenOk then Refuse(s, token, ListenRejected)
      else s.(pendingListen := Some(token), since := |s.listenLog|, dropped := s.dropped + ListenSlot(s.pendingListen))
    case ListenViaRelay(relayAddr, token) =>
      if cfg.parse(relayAddr) == None then Refuse(s, token, InvalidAddress)
      else if !dialOk then Refuse(s, token, DialRejected)
      else s.(pendingRelay := Some(RelayRequest(relayAddr, token)), since := |s.listenLog|,
              dropped := s.dropped + RelaySlot(s.pendingRelay))
  }

  function OnNewListenAddr(s: State, address: Multiaddr): State {
    var addr := Print(address);
    var s := s.(listenLog := s.listenLog + [addr]);
    if Contains(addr, CIRCUIT_TEXT) && s.pendingRelay.Some? then
      Accept(s.(pendingRelay := None), s.pendingRelay.value.token, true, addr)
    else if s.pendingListen.Some? then
      Accept(s.(pendingListen := None), s.pendingListen.value, false, addr)
    else s
  }

  /** Listen through the relay once the connection to the parked relay request's peer is up. */
  function ListenOnCircuit(cfg: Config, s: State, peer: PeerId): State {
    if s.pendingRelay.Some? && Destination(cfg, s.pendingRelay.value.relayAddr) == Some(peer) then
      var RelayRequest(relayAddr, token) := s.pendingRelay.value;
      s.(circuitListens := s.circuitListens +
           [CircuitListen(peer, token, relayAddr, cfg.parse(relayAddr).value + [P2pCircuit], |s.listenLog|)])
    else s
  }

  function Connected(s: State, peer: PeerId): State {
    s.(connections := s.connections + multiset{peer}, events := s.events + [PeerConnected(peer)])
  }

  function OnEstablished(cfg: Config, s: State, peer: PeerId, outcome: MessageId -> Outcome): State {
    var s := ListenOnCircuit(cfg, Connected(s, peer), peer);
    SendAll(s.(parked := s.parked - {peer}), peer, Queue(s.parked, peer), outcome)
  }

  function OnClosed(s: State, peer: PeerId): State {
    s.(connections := s.connections - multiset{peer}, events := s.events + [PeerDisconnected(peer)])
  }

  // --- Runs ---

  /** When a step can happen: a front end that awaits a reply takes no command, and a
      connection closes only if it exists. */
  predicate Enabled(s: State, l: Label) {
    match l
    case Issue(_) => s.waiting == None
    case Resume => s.waiting.Some? && s.waiting.value < |s.requests| &&
                   (s.waiting.value in s.mailbox || s.waiting.value in s.dropped)
    case Dequeue(_, _, _) => s.commands != []
    case Closed(peer) => peer in s.connections
    case _ => true
  }

  function Step(cfg: Config, s: State, l: Label): State
    requires Enabled(s, l)
  {
    match l
    case Issue(cmd) => IssueCommand(cfg, s, cmd)
    case Resume => ResumeCommand(s)
    case Dequeue(listenOk, dialOk, outcome) =>
      RunCommand(cfg, s.(commands := s.commands[1..]), s.commands[0], listenOk, dialOk, outcome)
    case Incoming(peer, msg) => s.(events := s.events + [MessageReceived(peer, msg)])
    case NewListenAddr(address, _) => OnNewListenAddr(s, address)
    case Established(peer, outcome) => OnEstablished(cfg, s, peer, outcome)
    case Closed(peer) => OnClosed(s, peer)
    case OtherSwarmEvent => s
  }

  /** Labels that cannot happen are skipped, so every label sequence describes a run and
      every run is described by one. */
  function Next(cfg: Config, s: State, l: Label): State {
    if Enabled(s, l) then Step(cfg, s, l) else s
  }

  function Run(cfg: Config, labels: seq<Label>): State {
    if labels == [] then Init()
    else Next(cfg, Run(cfg, labels[..|labels| - 1]), labels[|labels| - 1])
  }
}
