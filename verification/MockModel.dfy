/** The in-memory network of meerkat-net-v2: any number of nodes on one registry, each with an
    event queue that the others append to. */
module MockModel {
  import opened Types
  import opened Collections
  import opened Addresses

  type Queues = map<PeerId, seq<NetworkEvent>>

  // --- One command ---

  function Append(queues: Queues, peer: PeerId, event: NetworkEvent): Queues {
    if peer in queues then queues[peer := queues[peer] + [event]] else queues
  }

  /** The event a send causes, and the queue it goes to. */
  function Delivery(queues: Queues, from: PeerId, id: MessageId, addr: Address, msg: Message): (PeerId, NetworkEvent) {
    match MockTarget(addr)
    case None => (from, SendFailed(id, ProtocolError))
    case Some(peer) =>
      if peer in queues then (peer, MessageReceived(from, msg))
      else (from, SendFailed(id, UnreachableAddress(addr)))
  }

  function AfterSend(queues: Queues, from: PeerId, id: MessageId, addr: Address, msg: Message): Queues {
    var (to, event) := Delivery(queues, from, id, addr, msg);
    Append(queues, to, event)
  }

  /** The address a node reports for a listen address. */
  function BoundAddress(addr: Address, peer: PeerId): Address {
    addr + "/" + P2P + "/" + peer
  }

  // --- Listen, then send to the reported address ---

  lemma {:induction false} FirstP2pOfBound(segs: seq<string>, peer: string)
    requires |segs| >= 1
    ensures FirstP2pSegment(segs + [P2P, peer]) ==
            if FirstP2pSegment(segs + [P2P]).Some? then FirstP2pSegment(segs + [P2P]) else Some(peer)
    ensures FirstP2pSegment(segs + [P2P]) == None <==> P2P !in segs
  {
    var long, short := segs + [P2P, peer], segs + [P2P];
    if |segs| == 1 {
      assert long[1..] == [P2P, peer] && short[1..] == [P2P];
      assert FirstP2pSegment([P2P, peer]) == Some(peer);
    } else {
      assert long[1..] == segs[1..] + [P2P, peer] && short[1..] == segs[1..] + [P2P];
      FirstP2pOfBound(segs[1..], peer);
      assert segs == [segs[0]] + segs[1..];
    }
  }

  /** The address a listen returns leads back to the listener exactly if the listen address names
      no peer of its own, or happens to name the listener first. */
  lemma {:induction false} BoundAddressLeadsBack(addr: Address, peer: PeerId)
    requires '/' !in peer
    ensures MockTarget(BoundAddress(addr, peer)) == Some(peer) <==>
              "p2p" !in Split(addr) || FirstP2pSegment(Split(addr) + ["p2p"]) == Some(peer)
  {
    SplitTwice(addr, P2P, peer);
    SplitSlashFree(peer);
    assert Split(addr) + [P2P] + [peer] == Split(addr) + [P2P, peer];
    FirstP2pOfBound(Split(addr), peer);
  }

  /** A send by any node to the address a listener reported adds exactly that message to the
      listener's queue and leaves every other queue alone. */
  lemma ListenSendRoundTrip(queues: Queues, listener: PeerId, listenAddr: Address,
                            from: PeerId, id: MessageId, msg: Message)
    requires listener in queues && '/' !in listener && "p2p" !in Split(listenAddr)
    ensures AfterSend(queues, from, id, BoundAddress(listenAddr, listener), msg) ==
            queues[listener := queues[listener] + [MessageReceived(from, msg)]]
  {
    BoundAddressLeadsBack(listenAddr, listener);
  }

  // --- Many nodes ---

  datatype Node = Node(localAddrs: seq<Address>, next: MessageId, taken: seq<NetworkEvent>)

  /** One SendMessage, and the event it caused in whose queue. */
  datatype Sent = Sent(from: PeerId, id: MessageId, addr: Address, msg: Message, to: PeerId, event: NetworkEvent)

  /** The log is history: one entry a send, over all nodes. */
  datatype World = World(queues: Queues, nodes: map<PeerId, Node>, log: seq<Sent>)

  datatype Label = Join(peer: PeerId) | Command(peer: PeerId, cmd: NetworkCommand) | TakeEvent(peer: PeerId)

  function RunCommand(w: World, peer: PeerId, cmd: NetworkCommand): World
    requires peer in w.nodes
  {
    var node := w.nodes[peer];
    match cmd
    case Listen(addr) =>
      w.(nodes := w.nodes[peer := node.(localAddrs := node.localAddrs + [BoundAddress(addr, peer)])])
    case SendMessage(addr, msg) =>
      var (to, event) := Delivery(w.queues, peer, node.next, addr, msg);
      w.(queues := Append(w.queues, to, event),
         nodes := w.nodes[peer := node.(next := node.next + 1)],
         log := w.log + [Sent(peer, node.next, addr, msg, to, event)])
    case _ => w
  }

  function TakeFirst(w: World, peer: PeerId): World
    requires peer in w.nodes && peer in w.queues
  {
    if w.queues[peer] == [] then w
    else
      var node := w.nodes[peer];
      w.(queues := w.queues[peer := w.queues[peer][1..]],
         nodes := w.nodes[peer := node.(taken := node.taken + [w.queues[peer][0]])])
  }

  /** A node joins under a fresh peer id; labels of unknown nodes are skipped. */
  function Next(w: World, l: Label): World {
    match l
    case Join(peer) =>
      if peer in w.nodes then w
      else w.(queues := w.queues[peer := []], nodes := w.nodes[peer := Node([], 1, [])])
    case Command(peer, cmd) => if peer in w.nodes then RunCommand(w, peer, cmd) else w
    case TakeEvent(peer) => if peer in w.nodes && peer in w.queues then TakeFirst(w, peer) else w
  }

  function Run(labels: seq<Label>): World {
    if labels == [] then World(map[], map[], [])
    else Next(Run(labels[..|labels| - 1]), labels[|labels| - 1])
  }

  function EventTo(peer: PeerId): Sent -> seq<NetworkEvent> {
    (sent: Sent) => if sent.to == peer then [sent.event] else []
  }

  function EventsTo(log: seq<Sent>, peer: PeerId): seq<NetworkEvent> {
    FlatMap(EventTo(peer), log)
  }

  function IdFrom(peer: PeerId): Sent -> seq<MessageId> {
    (sent: Sent) => if sent.from == peer then [sent.id] else []
  }

  function IdsFrom(log: seq<Sent>, peer: PeerId): seq<MessageId> {
    FlatMap(IdFrom(peer), log)
  }

  ghost predicate NodeAccounted(w: World, peer: PeerId) {
    if peer in w.nodes && peer in w.queues then
      && w.nodes[peer].next >= 1
      && w.nodes[peer].taken + w.queues[peer] == EventsTo(w.log, peer)
      && IdsFrom(w.log, peer) == Range(1, w.nodes[peer].next)
    else EventsTo(w.log, peer) == [] && IdsFrom(w.log, peer) == []
  }

  /** The event of a send is its message, at the registered peer that the address names first, or
      its failure at the sender: the address names no peer, or one that is not reached. */
  predicate SentSound(queues: Queues, sent: Sent) {
    && sent.to in queues
    && match sent.event
       case MessageReceived(peer, msg) =>
         peer == sent.from && msg == sent.msg && MockTarget(sent.addr) == Some(sent.to)
       case SendFailed(id, error) =>
         && id == sent.id && sent.to == sent.from
         && error == if MockTarget(sent.addr) == None then ProtocolError else UnreachableAddress(sent.addr)
       case _ => false
  }

  ghost predicate Accounted(w: World) {
    && w.queues.Keys == w.nodes.Keys
    && (forall peer :: NodeAccounted(w, peer))
    && (forall i :: 0 <= i < |w.log| ==> SentSound(w.queues, w.log[i]))
  }

  lemma SendAccountsNode(w: World, w': World, sent: Sent, other: PeerId)
    requires w.queues.Keys == w.nodes.Keys && NodeAccounted(w, other)
    requires sent.from in w.nodes && sent.to in w.queues && sent.id == w.nodes[sent.from].next
    requires w'.queues == w.queues[sent.to := w.queues[sent.to] + [sent.event]]
    requires w'.nodes == w.nodes[sent.from := w.nodes[sent.from].(next := sent.id + 1)]
    requires w'.log == w.log + [sent]
    ensures NodeAccounted(w', other)
  {
    FlatMapSnoc(EventTo(other), w.log, sent);
    FlatMapSnoc(IdFrom(other), w.log, sent);
    if other in w.nodes {
      var node := w.nodes[other];
      Regroup(node.taken, w.queues[other], [sent.event]);
      assert node.taken + w.queues[other] + [] == node.taken + w.queues[other];
      assert Range(1, node.next) + [] == Range(1, node.next);
    }
    hide FlatMap;
  }

  lemma SendAccounted(w: World, peer: PeerId, addr: Address, msg: Message)
    requires Accounted(w) && peer in w.nodes
    ensures Accounted(RunCommand(w, peer, SendMessage(addr, msg)))
  {
    var node := w.nodes[peer];
    var (to, event) := Delivery(w.queues, peer, node.next, addr, msg);
    var sent, w' := Sent(peer, node.next, addr, msg, to, event), RunCommand(w, peer, SendMessage(addr, msg));
    DeliveryInQueues(w.queues, peer, node.next, addr, msg);
    DeliverySound(w.queues, peer, node.next, addr, msg);
    hide Delivery;
    assert w'.log == w.log + [sent];
    SentSoundStays(w, w', [sent]);
    hide SentSound, NodeAccounted;
    forall other
      ensures NodeAccounted(w', other)
    {
      SendAccountsNode(w, w', sent, other);
    }
  }

  lemma DeliverySound(queues: Queues, from: PeerId, id: MessageId, addr: Address, msg: Message)
    requires from in queues
    ensures var (to, event) := Delivery(queues, from, id, addr, msg);
            SentSound(queues, Sent(from, id, addr, msg, to, event))
  {
    hide MockTarget;
  }

  lemma SentSoundStays(w: World, w': World, more: seq<Sent>)
    requires w.queues.Keys <= w'.queues.Keys && w'.log == w.log + more
    requires forall i :: 0 <= i < |w.log| ==> SentSound(w.queues, w.log[i])
    requires forall i :: 0 <= i < |more| ==> SentSound(w.queues, more[i])
    ensures forall i :: 0 <= i < |w'.log| ==> SentSound(w'.queues, w'.log[i])
  {
    hide MockTarget;
  }

  lemma DeliveryInQueues(queues: Queues, from: PeerId, id: MessageId, addr: Address, msg: Message)
    requires from in queues
    ensures Delivery(queues, from, id, addr, msg).0 in queues
  {
  }

  lemma NextAccounted(w: World, l: Label)
    requires Accounted(w)
    ensures Accounted(Next(w, l))
  {
    var w' := Next(w, l);
    if l.Command? && l.cmd.SendMessage? && l.peer in w.nodes {
      SendAccounted(w, l.peer, l.cmd.addr, l.cmd.msg);
    } else {
      SentSoundStays(w, w', []);
      hide SentSound;
      forall other
        ensures NodeAccounted(w', other)
      {
        assert NodeAccounted(w, other);
        if l.TakeEvent? && l.peer == other && other in w.nodes && w.queues[other] != [] {
          assert w.nodes[other].taken + w.queues[other] ==
                 w.nodes[other].taken + [w.queues[other][0]] + w.queues[other][1..];
        }
      }
    }
  }

  /** Over every run of any number of nodes: what a node has taken and what is still in its
      queue are exactly the events sent to it, in the order of the sends; every send by a node,
      numbered without gaps, caused exactly one event; and that event is its own message at the
      target, or its own failure at the sender. */
  lemma {:induction false} EveryNodeAccounted(labels: seq<Label>)
    ensures Accounted(Run(labels))
  {
    if labels != [] {
      EveryNodeAccounted(labels[..|labels| - 1]);
      NextAccounted(Run(labels[..|labels| - 1]), labels[|labels| - 1]);
    }
  }

  /** The sends that a node was told to make. */
  function Told(labels: seq<Label>, peer: PeerId): seq<(Address, Message)> {
    if labels == [] then []
    else
      var before, l := labels[..|labels| - 1], labels[|labels| - 1];
      Told(before, peer) +
      if l.Command? && l.peer == peer && peer in Run(before).nodes && l.cmd.SendMessage?
      then [(l.cmd.addr, l.cmd.msg)] else []
  }

  function CommandFrom(peer: PeerId): Sent -> seq<(Address, Message)> {
    (sent: Sent) => if sent.from == peer then [(sent.addr, sent.msg)] else []
  }

  /** The log has an entry for each of them, in order, and no other. */
  lemma {:induction false} EverySendLogged(labels: seq<Label>, peer: PeerId)
    ensures FlatMap(CommandFrom(peer), Run(labels).log) == Told(labels, peer)
  {
    if labels != [] {
      var before := labels[..|labels| - 1];
      EverySendLogged(before, peer);
      NextLogged(Run(before), labels[|labels| - 1], peer);
    }
  }

  lemma NextLogged(w: World, l: Label, peer: PeerId)
    ensures FlatMap(CommandFrom(peer), Next(w, l).log) ==
            FlatMap(CommandFrom(peer), w.log) +
            if l.Command? && l.peer == peer && peer in w.nodes && l.cmd.SendMessage?
            then [(l.cmd.addr, l.cmd.msg)] else []
  {
    hide Delivery, Append;
    var log, log' := w.log, Next(w, l).log;
    if log' != log {
      FlatMapSnoc(CommandFrom(peer), log, log'[|log|]);
    }
  }

  // --- Local addresses ---

  /** The addresses that a node should have: one for each of its Listen commands, in order. */
  function Listened(labels: seq<Label>, peer: PeerId): seq<Address> {
    if labels == [] then []
    else
      var before, l := labels[..|labels| - 1], labels[|labels| - 1];
      Listened(before, peer) +
      if l.Command? && l.peer == peer && peer in Run(before).nodes && l.cmd.Listen?
      then [l.cmd.addr + "/p2p/" + peer] else []
  }

  lemma BoundAddressText(addr: Address, peer: PeerId)
    ensures BoundAddress(addr, peer) == addr + "/p2p/" + peer
  {
    assert "/" + P2P + "/" == "/p2p/";
    assert addr + "/" + P2P + "/" + peer == addr + ("/" + P2P + "/") + peer;
  }

  lemma NextLocalAddrs(w: World, l: Label, peer: PeerId)
    requires peer in w.nodes
    ensures peer in Next(w, l).nodes
    ensures Next(w, l).nodes[peer].localAddrs ==
            w.nodes[peer].localAddrs +
            if l.Command? && l.peer == peer && l.cmd.Listen? then [l.cmd.addr + "/p2p/" + peer] else []
  {
    hide Delivery, Append;
    if l.Command? && l.cmd.Listen? {
      BoundAddressText(l.cmd.addr, l.peer);
    }
    hide BoundAddress;
  }

  /** Over every run: a node's local addresses are, in order, those that its Listen commands asked for,
      each with the node's own peer id behind it, and no others. */
  lemma {:induction false} LocalAddrsAreListened(labels: seq<Label>, peer: PeerId)
    ensures if peer in Run(labels).nodes then Run(labels).nodes[peer].localAddrs == Listened(labels, peer)
            else Listened(labels, peer) == []
  {
    if labels != [] {
      var before, l := labels[..|labels| - 1], labels[|labels| - 1];
      LocalAddrsAreListened(before, peer);
      if peer in Run(before).nodes {
        NextLocalAddrs(Run(before), l, peer);
      } else {
        NextNewcomer(Run(before), l, peer);
      }
      hide Next;
    }
  }

  lemma NextNewcomer(w: World, l: Label, peer: PeerId)
    requires peer !in w.nodes
    ensures peer in Next(w, l).nodes ==> Next(w, l).nodes[peer].localAddrs == []
  {
    hide Delivery, Append;
  }

  /** Taking an event from a queue that holds one takes the oldest. */
  lemma TakeEventTakesOldest(labels: seq<Label>, peer: PeerId)
    requires var w := Run(labels); peer in w.nodes && peer in w.queues && w.queues[peer] != []
    ensures var w, w' := Run(labels), Run(labels + [TakeEvent(peer)]);
            && peer in w'.nodes && peer in w'.queues
            && w'.nodes[peer].taken == w.nodes[peer].taken + [w.queues[peer][0]]
            && w'.queues[peer] == w.queues[peer][1..]
  {
    assert (labels + [TakeEvent(peer)])[..|labels|] == labels;
    assert Run(labels + [TakeEvent(peer)]) == Next(Run(labels), TakeEvent(peer));
    hide Run;
  }

  // --- Totals ---

  ghost function Sum(f: map<PeerId, int>): int
    decreases f.Keys
  {
    if f == map[] then 0
    else
      var peer := SomeKey(f);
      assert (f - {peer}).Keys == f.Keys - {peer};
      f[peer] + Sum(f - {peer})
  }

  lemma {:induction false} SumSplit(f: map<PeerId, int>, peer: PeerId)
    requires peer in f
    ensures Sum(f) == f[peer] + Sum(f - {peer})
    decreases f.Keys
  {
    var first := SomeKey(f);
    if first != peer {
      assert (f - {first}).Keys == f.Keys - {first} && (f - {peer}).Keys == f.Keys - {peer};
      SumSplit(f - {first}, peer);
      SumSplit(f - {peer}, first);
      assert f - {first} - {peer} == f - {peer} - {first};
    }
  }

  lemma SumUpdate(f: map<PeerId, int>, peer: PeerId, n: int)
    ensures Sum(f[peer := n]) == Sum(f) + n - if peer in f then f[peer] else 0
  {
    SumSplit(f[peer := n], peer);
    assert f[peer := n] - {peer} == f - {peer};
    if peer in f {
      SumSplit(f, peer);
    } else {
      assert f - {peer} == f;
    }
  }

  ghost function EventCounts(w: World): map<PeerId, int> {
    map peer | peer in w.nodes :: |w.nodes[peer].taken| + if peer in w.queues then |w.queues[peer]| else 0
  }

  ghost function SendCounts(w: World): map<PeerId, int> {
    map peer | peer in w.nodes :: w.nodes[peer].next - 1
  }

  ghost predicate Balanced(w: World) {
    w.queues.Keys == w.nodes.Keys && Sum(EventCounts(w)) == Sum(SendCounts(w)) == |w.log|
  }

  lemma JoinBalanced(w: World, peer: PeerId)
    requires Balanced(w) && peer !in w.nodes
    ensures Balanced(Next(w, Join(peer)))
  {
    var w' := Next(w, Join(peer));
    SumUpdate(EventCounts(w), peer, 0);
    SumUpdate(SendCounts(w), peer, 0);
    hide Sum;
    assert EventCounts(w') == EventCounts(w)[peer := 0];
    assert SendCounts(w') == SendCounts(w)[peer := 0];
  }

  lemma EventCountsAfterSend(w: World, w': World, to: PeerId)
    requires w.queues.Keys == w.nodes.Keys && to in w.nodes
    requires w'.nodes.Keys == w.nodes.Keys && w'.queues.Keys == w.queues.Keys
    requires forall p :: p in w.nodes ==> w'.nodes[p].taken == w.nodes[p].taken
    requires forall p :: p in w.queues ==> |w'.queues[p]| == |w.queues[p]| + if p == to then 1 else 0
    ensures to in EventCounts(w) && EventCounts(w') == EventCounts(w)[to := EventCounts(w)[to] + 1]
  {
    assert EventCounts(w').Keys == EventCounts(w).Keys;
  }

  lemma SendCountsAfterSend(w: World, w': World, from: PeerId)
    requires from in w.nodes
    requires w'.nodes == w.nodes[from := w.nodes[from].(next := w.nodes[from].next + 1)]
    ensures from in SendCounts(w) && SendCounts(w') == SendCounts(w)[from := SendCounts(w)[from] + 1]
  {
    assert SendCounts(w').Keys == SendCounts(w).Keys;
  }

  lemma SendBalanced(w: World, peer: PeerId, addr: Address, msg: Message)
    requires Balanced(w) && peer in w.nodes
    ensures Balanced(RunCommand(w, peer, SendMessage(addr, msg)))
  {
    hide Delivery, Append, Sum, RunCommand, EventCounts, SendCounts;
    SendEffect(w, peer, addr, msg);
    CountsAfterSend(w, RunCommand(w, peer, SendMessage(addr, msg)), peer,
                    Delivery(w.queues, peer, w.nodes[peer].next, addr, msg).0);
  }

  lemma CountsAfterSend(w: World, w': World, from: PeerId, to: PeerId)
    requires Balanced(w) && from in w.nodes && to in w.nodes
    requires w'.nodes.Keys == w.nodes.Keys && w'.queues.Keys == w.queues.Keys
    requires w'.nodes == w.nodes[from := w.nodes[from].(next := w.nodes[from].next + 1)]
    requires forall p :: p in w.queues ==> |w'.queues[p]| == |w.queues[p]| + if p == to then 1 else 0
    requires |w'.log| == |w.log| + 1
    ensures Balanced(w')
  {
    hide Sum, EventCounts, SendCounts;
    EventCountsAfterSend(w, w', to);
    SendCountsAfterSend(w, w', from);
    BothGrow(EventCounts(w), to, SendCounts(w), from, |w.log|);
  }

  lemma BothGrow(events: map<PeerId, int>, to: PeerId, sends: map<PeerId, int>, from: PeerId, total: int)
    requires to in events && from in sends && Sum(events) == Sum(sends) == total
    ensures Sum(events[to := events[to] + 1]) == Sum(sends[from := sends[from] + 1]) == total + 1
  {
    SumUpdate(events, to, events[to] + 1);
    SumUpdate(sends, from, sends[from] + 1);
  }

  /** What a send changes: one queue, one counter, one log entry. */
  lemma SendEffect(w: World, peer: PeerId, addr: Address, msg: Message)
    requires w.queues.Keys == w.nodes.Keys && peer in w.nodes
    ensures var w' := RunCommand(w, peer, SendMessage(addr, msg));
            var to := Delivery(w.queues, peer, w.nodes[peer].next, addr, msg).0;
            && to in w.nodes
            && w'.nodes.Keys == w.nodes.Keys && w'.queues.Keys == w.queues.Keys
            && w'.nodes == w.nodes[peer := w.nodes[peer].(next := w.nodes[peer].next + 1)]
            && (forall p :: p in w.queues ==> |w'.queues[p]| == |w.queues[p]| + if p == to then 1 else 0)
            && |w'.log| == |w.log| + 1
  {
    DeliveryInQueues(w.queues, peer, w.nodes[peer].next, addr, msg);
    hide Delivery;
  }

  lemma CountsSame(w: World, w': World)
    requires Balanced(w)
    requires w'.queues.Keys == w.queues.Keys && w'.nodes.Keys == w.nodes.Keys && w'.log == w.log
    requires forall p :: p in w.nodes ==> w'.nodes[p].next == w.nodes[p].next
    requires forall p :: p in w.nodes ==>
               |w'.nodes[p].taken| + |w'.queues[p]| == |w.nodes[p].taken| + |w.queues[p]|
    ensures Balanced(w')
  {
    hide Sum;
    assert EventCounts(w') == EventCounts(w) && SendCounts(w') == SendCounts(w);
  }

  lemma NextBalanced(w: World, l: Label)
    requires Balanced(w)
    ensures Balanced(Next(w, l))
  {
    match l {
      case Join(peer) => if peer !in w.nodes { JoinBalanced(w, peer); }
      case Command(peer, cmd) =>
        if peer in w.nodes && cmd.SendMessage? {
          SendBalanced(w, peer, cmd.addr, cmd.msg);
        } else {
          hide Balanced, Delivery;
          CountsSame(w, Next(w, l));
        }
      case TakeEvent(peer) =>
        assert w.queues.Keys == w.nodes.Keys;
        hide Balanced;
        CountsSame(w, Next(w, l));
    }
  }

  /** Conservation: over all nodes, events queued and taken are as many as messages sent. */
  lemma {:induction false} EventsEqualSends(labels: seq<Label>)
    ensures var w := Run(labels);
            w.queues.Keys == w.nodes.Keys && Sum(EventCounts(w)) == Sum(SendCounts(w)) == |w.log|
  {
    if labels != [] {
      EventsEqualSends(labels[..|labels| - 1]);
      NextBalanced(Run(labels[..|labels| - 1]), labels[|labels| - 1]);
    } else {
      assert EventCounts(Run([])) == map[] && SendCounts(Run([])) == map[];
    }
  }
}
