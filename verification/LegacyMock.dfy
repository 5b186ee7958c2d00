/** The mock network of meerkat-net: networks register addresses in a shared table and send to
    registered addresses after a delay. */
module LegacyMock {
  import opened Types
  import opened Collections

  /** A network is known by its number; its on_message callback is what the table holds. */
  type Owner = nat

  datatype Network = Network(localId: PeerId, localAddrs: seq<Address>, next: MessageId)

  /** A message whose delivery thread sleeps; `routed` records whether its address was
      registered when it was sent. */
  datatype Sending = Sending(from: PeerId, addr: Address, msg: Message, routed: bool)

  /** A call of the owner's on_message callback. */
  datatype Delivery = Delivery(to: Owner, from: PeerId, addr: Address, msg: Message)

  datatype World = World(
    networks: seq<Network>,
    peers: map<Address, Owner>,
    sleeping: seq<Sending>,
    // history
    delivered: seq<Delivery>,
    vanished: seq<Sending>)               // woke up to find their address unregistered

  datatype Label =
    | Create(localId: PeerId)
    | Listen(owner: Owner, addr: Address)
    | Send(owner: Owner, addr: Address, msg: Message)
    | WakeUp(index: nat)

  function Registered(peers: map<Address, Owner>, owner: Owner, addr: Address): map<Address, Owner> {
    if addr in peers then peers else peers[addr := owner]
  }

  function Listed(peers: map<Address, Owner>, addrs: seq<Address>, addr: Address): seq<Address> {
    if addr in peers then addrs else addrs + [addr]
  }

  /** Whose callback a message to the address is handed to. */
  function Recipient(peers: map<Address, Owner>, addr: Address): Option<Owner> {
    if addr in peers then Some(peers[addr]) else None
  }

  function Register(w: World, owner: Owner, addr: Address): World
    requires owner < |w.networks|
  {
    var network := w.networks[owner];
    w.(peers := Registered(w.peers, owner, addr),
       networks := w.networks[owner := network.(localAddrs := Listed(w.peers, network.localAddrs, addr))])
  }

  function StartSend(w: World, owner: Owner, addr: Address, msg: Message): World
    requires owner < |w.networks|
  {
    var network := w.networks[owner];
    w.(networks := w.networks[owner := network.(next := network.next + 1)],
       sleeping := w.sleeping + [Sending(network.localId, addr, msg, addr in w.peers)])
  }

  function Deliver(w: World, index: nat): World
    requires index < |w.sleeping|
  {
    var sending := w.sleeping[index];
    var w := w.(sleeping := w.sleeping[..index] + w.sleeping[index + 1..]);
    match Recipient(w.peers, sending.addr)
    case Some(to) => w.(delivered := w.delivered + [Delivery(to, sending.from, sending.addr, sending.msg)])
    case None => w.(vanished := w.vanished + [sending])
  }

  function Next(w: World, l: Label): World {
    match l
    case Create(localId) => w.(networks := w.networks + [Network(localId, [], 1)])
    case Listen(owner, addr) => if owner < |w.networks| then Register(w, owner, addr) else w
    case Send(owner, addr, msg) => if owner < |w.networks| then StartSend(w, owner, addr, msg) else w
    case WakeUp(index) => if index < |w.sleeping| then Deliver(w, index) else w
  }

  function Run(labels: seq<Label>): World {
    if labels == [] then World([], map[], [], [], [])
    else Next(Run(labels[..|labels| - 1]), labels[|labels| - 1])
  }

  // --- Ownership ---

  /** The addresses of the owner are registered for it, and none is listed twice. */
  ghost predicate AddrsOwned(peers: map<Address, Owner>, owner: Owner, addrs: seq<Address>) {
    && (forall i :: 0 <= i < |addrs| ==> addrs[i] in peers && peers[addrs[i]] == owner)
    && (forall i, j :: 0 <= i < j < |addrs| ==> addrs[i] != addrs[j])
  }

  ghost predicate Owned(w: World) {
    && (forall n :: 0 <= n < |w.networks| ==> AddrsOwned(w.peers, n, w.networks[n].localAddrs))
    && (forall addr :: addr in w.peers ==>
          w.peers[addr] < |w.networks| && addr in w.networks[w.peers[addr]].localAddrs)
    && (forall i :: 0 <= i < |w.sleeping| && w.sleeping[i].routed ==> w.sleeping[i].addr in w.peers)
    && (forall i :: 0 <= i < |w.vanished| ==> !w.vanished[i].routed)
    && (forall i :: 0 <= i < |w.delivered| ==>
          w.delivered[i].addr in w.peers && w.peers[w.delivered[i].addr] == w.delivered[i].to)
  }

  lemma RegisterOwned(w: World, owner: Owner, addr: Address)
    requires Owned(w) && owner < |w.networks|
    ensures Owned(Register(w, owner, addr))
  {
    var w' := Register(w, owner, addr);
    if addr !in w.peers {
      var addrs := w.networks[owner].localAddrs;
      assert AddrsOwned(w.peers, owner, addrs);
      forall n | 0 <= n < |w'.networks|
        ensures AddrsOwned(w'.peers, n, w'.networks[n].localAddrs)
      {
        assert AddrsOwned(w.peers, n, w.networks[n].localAddrs);
      }
      forall a | a in w'.peers
        ensures a in w'.networks[w'.peers[a]].localAddrs
      {
        if a == addr {
          assert (addrs + [addr])[|addrs|] == addr;
        }
      }
    }
  }

  lemma NextOwned(w: World, l: Label)
    requires Owned(w)
    ensures Owned(Next(w, l))
  {
    match l {
      case Listen(owner, addr) => if owner < |w.networks| { RegisterOwned(w, owner, addr); }
      case WakeUp(index) =>
        if index < |w.sleeping| {
          var sleeping := w.sleeping[..index] + w.sleeping[index + 1..];
          forall i | 0 <= i < |sleeping|
            ensures sleeping[i] == w.sleeping[if i < index then i else i + 1] {}
        }
      case _ =>
    }
  }

  /** Over every interleaving of listens, sends and delayed deliveries: the registered addresses
      are exactly the local addresses of all networks, each listed once, by its owner; every
      message delivered so far went to the owner of its address; and a message sent to a
      registered address never vanishes. */
  lemma {:induction false} RunOwned(labels: seq<Label>)
    ensures Owned(Run(labels))
  {
    if labels != [] {
      RunOwned(labels[..|labels| - 1]);
      NextOwned(Run(labels[..|labels| - 1]), labels[|labels| - 1]);
    }
  }

  /** An address once registered keeps its owner. */
  lemma {:induction false} OwnerIsForever(labels: seq<Label>, k: nat, addr: Address)
    requires k <= |labels| && addr in Run(labels[..k]).peers
    ensures addr in Run(labels).peers && Run(labels).peers[addr] == Run(labels[..k]).peers[addr]
  {
    if k < |labels| {
      assert labels[..|labels| - 1][..k] == labels[..k];
      OwnerIsForever(labels[..|labels| - 1], k, addr);
    } else {
      assert labels[..k] == labels;
    }
  }

  function Count(w: World): int {
    |w.sleeping| + |w.delivered| + |w.vanished|
  }

  lemma NextCount(w: World, l: Label)
    ensures Count(Next(w, l)) == Count(w) + if l.Send? && l.owner < |w.networks| then 1 else 0
  {
    hide Recipient, Registered, Listed;
  }

  lemma NextTotal(w: World, l: Label)
    ensures TotalSent(Next(w, l).networks) ==
            TotalSent(w.networks) + if l.Send? && l.owner < |w.networks| then 1 else 0
  {
    match l {
      case Create(localId) =>
        TotalSentConcat(w.networks, [Network(localId, [], 1)]);
        assert TotalSent([Network(localId, [], 1)]) == 0;
      case Listen(owner, addr) =>
        if owner < |w.networks| {
          TotalSentUpdate(w.networks, owner, Register(w, owner, addr).networks[owner]);
        }
      case Send(owner, addr, msg) =>
        if owner < |w.networks| {
          TotalSentUpdate(w.networks, owner, StartSend(w, owner, addr, msg).networks[owner]);
        }
      case WakeUp(_) =>
    }
    hide TotalSent;
  }

  /** Every message sent is asleep, delivered or vanished: the counts add up. */
  lemma {:induction false} SendsAccounted(labels: seq<Label>)
    ensures var w := Run(labels);
            |w.sleeping| + |w.delivered| + |w.vanished| == TotalSent(w.networks)
  {
    if labels != [] {
      SendsAccounted(labels[..|labels| - 1]);
      NextCount(Run(labels[..|labels| - 1]), labels[|labels| - 1]);
      NextTotal(Run(labels[..|labels| - 1]), labels[|labels| - 1]);
      hide Next, TotalSent;
    }
  }

  function TotalSent(networks: seq<Network>): int {
    if networks == [] then 0 else networks[0].next - 1 + TotalSent(networks[1..])
  }

  lemma {:induction false} TotalSentConcat(a: seq<Network>, b: seq<Network>)
    ensures TotalSent(a + b) == TotalSent(a) + TotalSent(b)
  {
    if a == [] {
      assert a + b == b;
    } else {
      TotalSentConcat(a[1..], b);
      assert (a + b)[1..] == a[1..] + b;
    }
  }

  lemma TotalSentUpdate(networks: seq<Network>, n: nat, network: Network)
    requires n < |networks|
    ensures TotalSent(networks[n := network]) == TotalSent(networks) + network.next - networks[n].next
  {
    TotalSentConcat(networks[..n], [networks[n]] + networks[n + 1..]);
    TotalSentConcat(networks[..n], [network] + networks[n + 1..]);
    assert networks == networks[..n] + ([networks[n]] + networks[n + 1..]);
    assert networks[n := network] == networks[..n] + ([network] + networks[n + 1..]);
  }

  // --- The messages themselves ---

  /** A message on its way: who sent what to which address. */
  datatype Letter = Letter(from: PeerId, addr: Address, msg: Message)

  function LetterAsleep(s: Sending): seq<Letter> {
    [Letter(s.from, s.addr, s.msg)]
  }

  function LetterDelivered(d: Delivery): seq<Letter> {
    [Letter(d.from, d.addr, d.msg)]
  }

  /** The messages that are asleep, delivered or vanished. */
  function LettersIn(w: World): multiset<Letter> {
    multiset(FlatMap(LetterAsleep, w.sleeping)) + multiset(FlatMap(LetterDelivered, w.delivered)) +
    multiset(FlatMap(LetterAsleep, w.vanished))
  }

  function LetterOf(w: World, l: Label): seq<Letter> {
    if l.Send? && l.owner < |w.networks| then [Letter(w.networks[l.owner].localId, l.addr, l.msg)] else []
  }

  /** The messages that the networks were told to send. */
  function LettersSent(labels: seq<Label>): seq<Letter> {
    if labels == [] then []
    else LettersSent(labels[..|labels| - 1]) + LetterOf(Run(labels[..|labels| - 1]), labels[|labels| - 1])
  }

  lemma TakeLetter(sleeping: seq<Sending>, index: nat)
    requires index < |sleeping|
    ensures multiset(FlatMap(LetterAsleep, sleeping)) ==
            multiset(FlatMap(LetterAsleep, sleeping[..index] + sleeping[index + 1..])) +
            multiset(LetterAsleep(sleeping[index]))
  {
    CutOut(sleeping, index);
    LettersAround(sleeping[..index], sleeping[index], sleeping[index + 1..]);
    hide *;
  }

  lemma CutOut(s: seq<Sending>, index: nat)
    requires index < |s|
    ensures s == s[..index] + [s[index]] + s[index + 1..]
  {
  }

  lemma LettersAround(before: seq<Sending>, x: Sending, after: seq<Sending>)
    ensures multiset(FlatMap(LetterAsleep, before + [x] + after)) ==
            multiset(FlatMap(LetterAsleep, before + after)) + multiset(LetterAsleep(x))
  {
    FlatMapConcat(LetterAsleep, before + [x], after);
    FlatMapSnoc(LetterAsleep, before, x);
    FlatMapConcat(LetterAsleep, before, after);
    hide *;
    MiddleOut(FlatMap(LetterAsleep, before), LetterAsleep(x), FlatMap(LetterAsleep, after));
  }

  lemma MiddleOut(a: seq<Letter>, b: seq<Letter>, c: seq<Letter>)
    ensures multiset(a + b + c) == multiset(a + c) + multiset(b)
  {
  }

  lemma DeliverLetters(w: World, index: nat)
    requires index < |w.sleeping|
    ensures LettersIn(Deliver(w, index)) == LettersIn(w)
  {
    var x := w.sleeping[index];
    TakeLetter(w.sleeping, index);
    match Recipient(w.peers, x.addr) {
      case Some(to) => FlatMapSnoc(LetterDelivered, w.delivered, Delivery(to, x.from, x.addr, x.msg));
      case None => FlatMapSnoc(LetterAsleep, w.vanished, x);
    }
    hide FlatMap, Recipient;
  }

  lemma NextLetters(w: World, l: Label)
    ensures LettersIn(Next(w, l)) == LettersIn(w) + multiset(LetterOf(w, l))
  {
    hide LettersIn, Deliver, FlatMap;
    match l {
      case Send(owner, addr, msg) =>
        if owner < |w.networks| {
          SendLetters(w, owner, addr, msg);
        }
      case WakeUp(index) =>
        if index < |w.sleeping| {
          DeliverLetters(w, index);
        }
      case Listen(owner, addr) => SameLetters(w, Next(w, l));
      case Create(localId) => SameLetters(w, Next(w, l));
    }
    assert LettersIn(w) + multiset{} == LettersIn(w);
  }

  lemma SendLetters(w: World, owner: Owner, addr: Address, msg: Message)
    requires owner < |w.networks|
    ensures LettersIn(StartSend(w, owner, addr, msg)) ==
            LettersIn(w) + multiset([Letter(w.networks[owner].localId, addr, msg)])
  {
    FlatMapSnoc(LetterAsleep, w.sleeping, Sending(w.networks[owner].localId, addr, msg, addr in w.peers));
    hide FlatMap;
  }

  lemma SameLetters(w: World, w': World)
    requires w'.sleeping == w.sleeping && w'.delivered == w.delivered && w'.vanished == w.vanished
    ensures LettersIn(w') == LettersIn(w)
  {
  }

  /** Over every interleaving: the messages asleep, delivered and vanished are exactly those sent, each
      as often as it was sent, under the sender's name and to the address it was sent to. */
  lemma {:induction false} LettersAccounted(labels: seq<Label>)
    ensures LettersIn(Run(labels)) == multiset(LettersSent(labels))
  {
    if labels != [] {
      LettersAccounted(labels[..|labels| - 1]);
      NextLetters(Run(labels[..|labels| - 1]), labels[|labels| - 1]);
      hide Next, LettersIn, LetterOf;
    }
  }

  // --- The networks themselves ---

  lemma RunOneMore(labels: seq<Label>, l: Label)
    ensures Run(labels + [l]) == Next(Run(labels), l)
  {
    hide Next;
    assert (labels + [l])[..|labels|] == labels;
  }

  class SharedMockState {
    var peers: map<Address, Owner>
    ghost var run: seq<Label>             // what the networks and their threads have done so far

    /** The table is the one that the steps taken so far lead to. */
    ghost predicate Reached()
      reads this
    {
      peers == Run(run).peers
    }

    constructor ()
      ensures Reached() && run == []
    {
      peers, run := map[], [];
    }

    /** What a delivery thread does after its sleep: it calls whoever owns the address now, if anyone.
        An address that was registered at the time of the send still is, for the same owner. */
    method WakeUp(ghost index: nat, sending: Sending) returns (to: Option<Owner>)
      requires Reached() && index < |Run(run).sleeping| && Run(run).sleeping[index] == sending
      modifies this`run
      ensures Reached() && run == old(run) + [Label.WakeUp(index)]
      ensures sending.routed ==> to.Some?
      ensures match to
              case Some(owner) =>
                && owner < |Run(run).networks| && sending.addr in Run(run).networks[owner].localAddrs
                && Run(run).delivered == Run(old(run)).delivered +
                                         [Delivery(owner, sending.from, sending.addr, sending.msg)]
              case None => Run(run).delivered == Run(old(run)).delivered && sending.addr !in peers
    {
      RunOwned(run);
      RunOneMore(run, Label.WakeUp(index));
      hide Run;
      run := run + [Label.WakeUp(index)];
      if sending.addr in peers {
        return Some(peers[sending.addr]);
      }
      return None;
    }
  }

  class MockNetwork {
    const onMessage: Owner
    const localId: PeerId
    const shared: SharedMockState
    var localAddrs: seq<Address>
    var nextMessageId: MessageId

    /** This object is the network of its number among those that share the table. */
    ghost predicate Valid()
      reads this, shared
    {
      && shared.Reached()
      && onMessage < |Run(shared.run).networks|
      && Run(shared.run).networks[onMessage] == Network(localId, localAddrs, nextMessageId)
    }

    /** Callbacks are numbered in the order of creation of their networks. */
    constructor (onMessage: Owner, localId: PeerId, shared: SharedMockState)
      requires shared.Reached() && onMessage == |Run(shared.run).networks|
      modifies shared`run
      ensures Valid() && this.onMessage == onMessage && this.localId == localId && this.shared == shared
      ensures shared.run == old(shared.run) + [Create(localId)]
      ensures localAddrs == [] && nextMessageId == 1
    {
      this.onMessage, this.localId, this.shared := onMessage, localId, shared;
      localAddrs, nextMessageId := [], 1;
      new;
      RunOneMore(shared.run, Create(localId));
      shared.run := shared.run + [Create(localId)];
    }

    /** Fails, and changes nothing, if anyone listens on the address already. */
    method Listen(addr: Address) returns (ok: bool)
      requires Valid()
      modifies this`localAddrs, shared
      ensures Valid() && shared.run == old(shared.run) + [Label.Listen(onMessage, addr)]
      ensures ok <==> addr !in old(shared.peers)
      ensures !ok ==> shared.peers == old(shared.peers) && localAddrs == old(localAddrs)
      ensures ok ==> shared.peers == old(shared.peers)[addr := onMessage] && localAddrs == old(localAddrs) + [addr]
    {
      hide Run;
      RunOneMore(shared.run, Label.Listen(onMessage, addr));
      shared.run := shared.run + [Label.Listen(onMessage, addr)];
      if addr in shared.peers {
        return false;
      }
      shared.peers := shared.peers[addr := onMessage];
      localAddrs := localAddrs + [addr];
      return true;
    }

    /** The id; a thread that carries the message has gone to sleep. */
    method Send(addr: Address, msg: Message) returns (id: MessageId, sending: Sending)
      requires Valid()
      modifies this`nextMessageId, shared`run
      ensures Valid() && shared.run == old(shared.run) + [Label.Send(onMessage, addr, msg)]
      ensures id == old(nextMessageId) && nextMessageId == id + 1
      ensures sending == Sending(localId, addr, msg, addr in shared.peers)
      ensures Run(shared.run).sleeping == Run(old(shared.run)).sleeping + [sending]
    {
      hide Run;
      RunOneMore(shared.run, Label.Send(onMessage, addr, msg));
      shared.run := shared.run + [Label.Send(onMessage, addr, msg)];
      id := nextMessageId;
      nextMessageId := nextMessageId + 1;
      sending := Sending(localId, addr, msg, addr in shared.peers);
    }
  }

  /** A network listens, another one sends to its address, and when the message wakes up it is the
      listener's callback that gets it, under the sender's name. */
  method ListenSendDeliver(listener: MockNetwork, sender: MockNetwork, addr: Address, msg: Message)
    returns (to: Option<Owner>)
    requires listener.Valid() && sender.Valid() && listener.shared == sender.shared
    requires listener.onMessage != sender.onMessage && addr !in listener.shared.peers
    modifies listener, sender, listener.shared
    ensures to == Some(listener.onMessage)
    ensures var delivered := Run(listener.shared.run).delivered;
            delivered != [] &&
            delivered[|delivered| - 1] == Delivery(listener.onMessage, sender.localId, addr, msg)
  {
    ghost var shared := listener.shared;
    RunOneMore(shared.run, Label.Listen(listener.onMessage, addr));
    var ok := listener.Listen(addr);
    var id, sending := sender.Send(addr, msg);
    ghost var sleeping := Run(shared.run).sleeping;
    to := listener.shared.WakeUp(|sleeping| - 1, sending);
    RunOwned(shared.run);
    hide Run;
  }
}
