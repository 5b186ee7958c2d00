/** What becomes of accepted messages, and that the actor and the mock network serve the same
    commands alike. */
module Agreement {
  import opened Types
  import opened Collections
  import opened Addresses
  import opened ActorModel
  import opened ActorSteps
  import opened ActorSends
  import MockModel

  // --- Messages to one peer ---

  function IssuedItem(cfg: Config, peer: PeerId): Exchange -> seq<Item> {
    (e: Exchange) =>
      if e.cmd.SendMessage? && e.reply.MessageSent? &&
         Destination(cfg, TranslateAddress(cfg.nodeType, e.cmd.addr)) == Some(peer)
      then [Item(e.reply.id, e.cmd.msg)] else []
  }

  /** The accepted messages whose address, as the node dials it, leads to the peer. */
  function IssuedItems(cfg: Config, exchanges: seq<Exchange>, peer: PeerId): seq<Item> {
    FlatMap(IssuedItem(cfg, peer), exchanges)
  }

  function QueuedItem(cfg: Config, peer: PeerId): SwarmCommand -> seq<Item> {
    (cmd: SwarmCommand) =>
      if cmd.Send? && Destination(cfg, cmd.addr) == Some(peer) then [Item(cmd.id, cmd.msg)] else []
  }

  /** The messages for the peer that are still in the channel. */
  function QueuedItems(cfg: Config, commands: seq<SwarmCommand>, peer: PeerId): seq<Item> {
    FlatMap(QueuedItem(cfg, peer), commands)
  }

  /** Where the accepted messages for a peer are: attempted, parked, or in the channel. */
  function Handled(cfg: Config, s: State, peer: PeerId): seq<Item> {
    Served(s, peer) + QueuedItems(cfg, s.commands, peer)
  }

  ghost predicate Complete(cfg: Config, s: State, peer: PeerId) {
    Handled(cfg, s, peer) == IssuedItems(cfg, s.exchanges, peer)
  }

  ghost predicate Short(cfg: Config, s: State, peer: PeerId) {
    |Handled(cfg, s, peer)| < |IssuedItems(cfg, s.exchanges, peer)|
  }

  /** The items a step adds to a peer's messages. */
  function IssuedBy(cfg: Config, s: State, l: Label, peer: PeerId): seq<Item> {
    if l.Issue? && l.cmd.SendMessage? then IssuedItem(cfg, peer)(Exchange(l.cmd, MessageSent(s.next))) else []
  }

  lemma StepIssuedItems(cfg: Config, s: State, l: Label, peer: PeerId)
    requires Enabled(s, l)
    ensures IssuedItems(cfg, Step(cfg, s, l).exchanges, peer) ==
            IssuedItems(cfg, s.exchanges, peer) + IssuedBy(cfg, s, l, peer)
  {
    StepFront(cfg, s, l);
    hide Step, LastPeer, TranslateAddress, Destination, FlatMap;
    match l {
      case Issue(cmd) =>
        if FinishedAtOnce(s, cmd) != [] {
          FlatMapSnoc(IssuedItem(cfg, peer), s.exchanges, FinishedAtOnce(s, cmd)[0]);
        }
      case Resume =>
        FlatMapSnoc(IssuedItem(cfg, peer), s.exchanges, Exchange(s.requests[s.waiting.value], ResumeReply(s)));
      case _ =>
    }
  }

  lemma StepQueuedItems(cfg: Config, s: State, l: Label, peer: PeerId)
    requires Enabled(s, l)
    ensures var s' := Step(cfg, s, l);
            if l.Dequeue? then
              QueuedItems(cfg, s.commands, peer) ==
              (if Dispatches(cfg, s, l, peer) then [Head(s)] else []) + QueuedItems(cfg, s'.commands, peer)
            else
              QueuedItems(cfg, s'.commands, peer) == QueuedItems(cfg, s.commands, peer) + IssuedBy(cfg, s, l, peer)
  {
    StepFront(cfg, s, l);
    hide Step, LastPeer, TranslateAddress;
    if l.Issue? && CommandOf(cfg, s, l.cmd) != [] {
      FlatMapSnoc(QueuedItem(cfg, peer), s.commands, CommandOf(cfg, s, l.cmd)[0]);
    }
  }

  lemma StepHandled(cfg: Config, s: State, l: Label, peer: PeerId)
    requires Enabled(s, l) && ParkedExcludesConnected(s)
    ensures !DialRefused(cfg, s, l, peer) ==>
              Handled(cfg, Step(cfg, s, l), peer) == Handled(cfg, s, peer) + IssuedBy(cfg, s, l, peer)
    ensures DialRefused(cfg, s, l, peer) ==>
              |Handled(cfg, Step(cfg, s, l), peer)| < |Handled(cfg, s, peer)|
  {
    StepServed(cfg, s, l, peer);
    StepQueuedItems(cfg, s, l, peer);
    ServedHolds(s, peer);
    hide Step, Enabled, LastPeer, TranslateAddress, AttemptedItems, QueuedItems, Destination, Served, Queue;
    var s' := Step(cfg, s, l);
    var served := Served(s, peer);
    var queued, queued' := QueuedItems(cfg, s.commands, peer), QueuedItems(cfg, s'.commands, peer);
    if l.Dequeue? && Dispatches(cfg, s, l, peer) {
      MoveHead(served, Head(s), queued', AttemptedItems(s.attempts, peer));
    } else if l.Dequeue? {
      assert [] + queued' == queued' && served + queued + [] == served + queued;
    } else {
      Regroup(served, queued, IssuedBy(cfg, s, l, peer));
    }
    hide *;
  }

  lemma MoveHead(served: seq<Item>, head: Item, queued: seq<Item>, attempted: seq<Item>)
    requires |attempted| <= |served|
    ensures served + [head] + queued == served + ([head] + queued) + []
    ensures |attempted + queued| < |served + ([head] + queued)|
  {
  }

  lemma ServedHolds(s: State, peer: PeerId)
    ensures |AttemptedItems(s.attempts, peer)| <= |Served(s, peer)|
  {
  }

  lemma NextHandled(cfg: Config, s: State, l: Label, peer: PeerId)
    requires ParkedExcludesConnected(s)
    ensures Complete(cfg, s, peer) && !(Enabled(s, l) && DialRefused(cfg, s, l, peer)) ==>
              Complete(cfg, Next(cfg, s, l), peer)
    ensures (Complete(cfg, s, peer) && Enabled(s, l) && DialRefused(cfg, s, l, peer)) || Short(cfg, s, peer) ==>
              Short(cfg, Next(cfg, s, l), peer)
  {
    hide Step, Handled, IssuedItems, DialRefused, IssuedBy;
    if Enabled(s, l) {
      StepIssuedItems(cfg, s, l, peer);
      StepHandled(cfg, s, l, peer);
      RefusalIssuesNothing(cfg, s, l, peer);
    }
  }

  lemma RefusalIssuesNothing(cfg: Config, s: State, l: Label, peer: PeerId)
    ensures DialRefused(cfg, s, l, peer) ==> IssuedBy(cfg, s, l, peer) == []
  {
  }

  /** Step number k of a run refuses a dial to the peer. */
  predicate RefusedAt(cfg: Config, labels: seq<Label>, k: nat, peer: PeerId)
    requires k < |labels|
  {
    var s := Run(cfg, labels[..k]);
    Enabled(s, labels[k]) && DialRefused(cfg, s, labels[k], peer)
  }

  ghost predicate RefusedSomewhere(cfg: Config, labels: seq<Label>, peer: PeerId) {
    exists k :: 0 <= k < |labels| && RefusedAt(cfg, labels, k, peer)
  }

  lemma RefusedSnoc(cfg: Config, labels: seq<Label>, peer: PeerId)
    requires labels != []
    ensures var n := |labels| - 1;
            RefusedSomewhere(cfg, labels, peer) <==>
              RefusedSomewhere(cfg, labels[..n], peer) || RefusedAt(cfg, labels, n, peer)
  {
    hide Run, Enabled, DialRefused;
    var n := |labels| - 1;
    forall k | 0 <= k < n
      ensures RefusedAt(cfg, labels, k, peer) <==> RefusedAt(cfg, labels[..n], k, peer)
    {
      assert labels[..n][..k] == labels[..k];
    }
  }

  /** Every accepted message for a peer is, in order and exactly once, attempted, parked or in
      the channel - if and only if no dial to that peer was ever refused. */
  lemma {:induction false} CompleteIffNeverRefused(cfg: Config, labels: seq<Label>, peer: PeerId)
    ensures Complete(cfg, Run(cfg, labels), peer) <==> !RefusedSomewhere(cfg, labels, peer)
    ensures RefusedSomewhere(cfg, labels, peer) ==> Short(cfg, Run(cfg, labels), peer)
  {
    if labels != [] {
      var n := |labels| - 1;
      var s := Run(cfg, labels[..n]);
      CompleteIffNeverRefused(cfg, labels[..n], peer);
      RunParkedExcludesConnected(cfg, labels[..n]);
      NextHandled(cfg, s, labels[n], peer);
      RefusedSnoc(cfg, labels, peer);
      hide Next, Handled, IssuedItems, RefusedSomewhere, DialRefused, Enabled;
    } else {
      hide RefusedSomewhere;
      NothingRefusedYet(cfg, peer);
    }
  }

  lemma NothingRefusedYet(cfg: Config, peer: PeerId)
    ensures !RefusedSomewhere(cfg, [], peer)
  {
  }

  /** What a refused dial takes out of a peer's messages: the parked queue and the refused one. */
  lemma RefusedHandled(cfg: Config, s: State, l: Label, peer: PeerId)
    requires Enabled(s, l) && ParkedExcludesConnected(s) && DialRefused(cfg, s, l, peer)
    ensures var s' := Step(cfg, s, l);
            var attempted, queued := AttemptedItems(s.attempts, peer), QueuedItems(cfg, s'.commands, peer);
            && Handled(cfg, s, peer) == attempted + (Queue(s.parked, peer) + [Head(s)]) + queued
            && Handled(cfg, s', peer) == attempted + queued
  {
    StepServed(cfg, s, l, peer);
    StepQueuedItems(cfg, s, l, peer);
    hide Step, Enabled, LastPeer, TranslateAddress, AttemptedItems, QueuedItems, Destination, Queue;
    var queued := QueuedItems(cfg, Step(cfg, s, l).commands, peer);
    assert QueuedItems(cfg, s.commands, peer) == [Head(s)] + queued;
    RegroupFour(AttemptedItems(s.attempts, peer), Queue(s.parked, peer), [Head(s)], queued);
  }

  lemma RegroupFour(a: seq<Item>, b: seq<Item>, c: seq<Item>, d: seq<Item>)
    ensures a + b + (c + d) == a + (b + c) + d
  {
  }

  ghost predicate HandledIssuedOnly(cfg: Config, s: State, peer: PeerId) {
    Subsequence(Handled(cfg, s, peer), IssuedItems(cfg, s.exchanges, peer))
  }

  lemma {:induction false} NextHandledIssuedOnly(cfg: Config, s: State, l: Label, peer: PeerId)
    requires ParkedExcludesConnected(s) && HandledIssuedOnly(cfg, s, peer)
    ensures HandledIssuedOnly(cfg, Next(cfg, s, l), peer)
  {
    if Enabled(s, l) {
      StepIssuedItems(cfg, s, l, peer);
      StepHandled(cfg, s, l, peer);
      RefusalIssuesNothing(cfg, s, l, peer);
      var issued := IssuedItems(cfg, s.exchanges, peer);
      SubsequenceGrows(Handled(cfg, s, peer), issued, IssuedBy(cfg, s, l, peer));
      if DialRefused(cfg, s, l, peer) {
        RefusedHandled(cfg, s, l, peer);
        SubsequenceCut(AttemptedItems(s.attempts, peer), Queue(s.parked, peer) + [Head(s)],
                       QueuedItems(cfg, Step(cfg, s, l).commands, peer), issued);
        assert issued + [] == issued;
      }
      hide Step, Handled, IssuedItems, IssuedBy, DialRefused, Enabled, Subsequence, QueuedItems, AttemptedItems, Queue;
    }
  }

  /** In every run, refused dials or not: the messages attempted for a peer, then those parked for
      it, then those in the channel are accepted messages for that very peer, unaltered, in
      the order of acceptance and none of them twice. */
  lemma {:induction false} RunHandledIssuedOnly(cfg: Config, labels: seq<Label>, peer: PeerId)
    ensures HandledIssuedOnly(cfg, Run(cfg, labels), peer)
  {
    if labels != [] {
      RunHandledIssuedOnly(cfg, labels[..|labels| - 1], peer);
      RunParkedExcludesConnected(cfg, labels[..|labels| - 1]);
      NextHandledIssuedOnly(cfg, Run(cfg, labels[..|labels| - 1]), labels[|labels| - 1], peer);
      hide Next, HandledIssuedOnly;
    } else {
      assert PicksFrom([], Handled(cfg, Init(), peer), IssuedItems(cfg, [], peer));
    }
  }

  // --- The same commands on the mock ---

  /** An address that both networks read the same way: printed from a multiaddr that names a
      peer, and whose first peer is its last - as when it names exactly one. */
  ghost predicate Agreeable(cfg: Config, addr: Address) {
    exists m :: WellFormed(m) && addr == Print(m) && cfg.parse(addr) == Some(m) &&
                LastPeer(m).Some? && FirstPeer(m) == LastPeer(m)
  }

  lemma AgreeableTarget(cfg: Config, addr: Address)
    requires Agreeable(cfg, addr)
    ensures MockTarget(addr) == Destination(cfg, addr) && MockTarget(addr).Some?
  {
    var m :| WellFormed(m) && addr == Print(m) && cfg.parse(addr) == Some(m) &&
             LastPeer(m).Some? && FirstPeer(m) == LastPeer(m);
    ExtractorCorrespondence(m);
  }

  function SendLabel(me: PeerId): Exchange -> seq<MockModel.Label> {
    (e: Exchange) => if e.cmd.SendMessage? then [MockModel.Command(me, e.cmd)] else []
  }

  /** The same sends as commands to a mock node. */
  function SendLabels(me: PeerId, exchanges: seq<Exchange>): seq<MockModel.Label> {
    FlatMap(SendLabel(me), exchanges)
  }

  /** The mock nodes after a node of theirs has been given the sends, too. */
  function MockAfter(before: seq<MockModel.Label>, me: PeerId, exchanges: seq<Exchange>): MockModel.World {
    MockModel.Run(before + SendLabels(me, exchanges))
  }

  lemma MockAfterNone(before: seq<MockModel.Label>, me: PeerId)
    ensures MockAfter(before, me, []) == MockModel.Run(before)
  {
    assert before + [] == before;
  }

  lemma MockAfterOneMore(before: seq<MockModel.Label>, me: PeerId, exchanges: seq<Exchange>)
    requires exchanges != []
    ensures var w, e := MockAfter(before, me, exchanges[..|exchanges| - 1]), exchanges[|exchanges| - 1];
            MockAfter(before, me, exchanges) ==
            if e.cmd.SendMessage? then MockModel.Next(w, MockModel.Command(me, e.cmd)) else w
  {
    hide MockModel.Next;
    var front, e := exchanges[..|exchanges| - 1], exchanges[|exchanges| - 1];
    assert front + [e] == exchanges;
    FlatMapSnoc(SendLabel(me), front, e);
    Regroup(before, SendLabels(me, front), SendLabel(me)(e));
    var labels := before + SendLabels(me, front);
    if e.cmd.SendMessage? {
      assert (labels + [MockModel.Command(me, e.cmd)])[..|labels|] == labels;
    } else {
      assert labels + [] == labels;
    }
  }

  function Received(me: PeerId, items: seq<Item>): (events: seq<NetworkEvent>)
    ensures |events| == |items|
    ensures forall i :: 0 <= i < |items| ==> events[i] == MessageReceived(me, items[i].msg)
  {
    seq(|items|, i requires 0 <= i < |items| => MessageReceived(me, items[i].msg))
  }

  /** The send goes to a registered peer by an address that both networks read the same way. */
  ghost predicate SendAgreeable(cfg: Config, registered: set<PeerId>, e: Exchange)
    requires e.cmd.SendMessage?
  {
    && e.reply.MessageSent?
    && Agreeable(cfg, e.cmd.addr)
    && MockTarget(e.cmd.addr).Some?
    && MockTarget(e.cmd.addr).value in registered
  }

  ghost predicate AllAgreeable(cfg: Config, start: MockModel.Queues, exchanges: seq<Exchange>) {
    forall i :: 0 <= i < |exchanges| && exchanges[i].cmd.SendMessage? ==> SendAgreeable(cfg, start.Keys, exchanges[i])
  }

  lemma {:induction false} MockDeliversIssued(cfg: Config, before: seq<MockModel.Label>, me: PeerId,
                                              exchanges: seq<Exchange>, peer: PeerId)
    requires cfg.nodeType == Server
    requires var w := MockModel.Run(before); me in w.nodes && peer in w.queues && AllAgreeable(cfg, w.queues, exchanges)
    ensures var w, w' := MockModel.Run(before), MockAfter(before, me, exchanges);
            && w'.nodes.Keys == w.nodes.Keys && w'.queues.Keys == w.queues.Keys
            && w'.queues[peer] == w.queues[peer] + Received(me, IssuedItems(cfg, exchanges, peer))
  {
    hide MockTarget, Agreeable, Destination, TranslateAddress, AllAgreeable, SendAgreeable,
         MockModel.Run, MockModel.RunCommand;
    var start := MockModel.Run(before).queues[peer];
    if exchanges == [] {
      MockAfterNone(before, me);
      assert start + Received(me, []) == start;
    } else {
      var front, e := exchanges[..|exchanges| - 1], exchanges[|exchanges| - 1];
      AgreeableSnoc(cfg, MockModel.Run(before).queues, exchanges);
      MockDeliversIssued(cfg, before, me, front, peer);
      MockAfterOneMore(before, me, exchanges);
      IssuedSnoc(cfg, exchanges, peer);
      hide MockAfter, IssuedItems;
      var issued, last := IssuedItems(cfg, front, peer), IssuedItem(cfg, peer)(e);
      if e.cmd.SendMessage? {
        MockDeliversOne(cfg, MockAfter(before, me, front), me, e, peer);
      }
      ReceivedConcat(me, issued, last);
      Regroup(start, Received(me, issued), Received(me, last));
    }
  }

  lemma AgreeableSnoc(cfg: Config, start: MockModel.Queues, exchanges: seq<Exchange>)
    requires exchanges != [] && AllAgreeable(cfg, start, exchanges)
    ensures AllAgreeable(cfg, start, exchanges[..|exchanges| - 1])
    ensures var e := exchanges[|exchanges| - 1]; e.cmd.SendMessage? ==> SendAgreeable(cfg, start.Keys, e)
  {
    hide SendAgreeable;
  }

  lemma IssuedSnoc(cfg: Config, exchanges: seq<Exchange>, peer: PeerId)
    requires exchanges != []
    ensures var e := exchanges[|exchanges| - 1];
            IssuedItems(cfg, exchanges, peer) ==
            IssuedItems(cfg, exchanges[..|exchanges| - 1], peer) + IssuedItem(cfg, peer)(e)
  {
    assert exchanges == exchanges[..|exchanges| - 1] + [exchanges[|exchanges| - 1]];
    FlatMapSnoc(IssuedItem(cfg, peer), exchanges[..|exchanges| - 1], exchanges[|exchanges| - 1]);
  }

  lemma ReceivedConcat(me: PeerId, a: seq<Item>, b: seq<Item>)
    ensures Received(me, a + b) == Received(me, a) + Received(me, b)
    ensures b == [] ==> Received(me, a) + Received(me, b) == Received(me, a)
  {
  }

  lemma MockDeliversOne(cfg: Config, w: MockModel.World, me: PeerId, e: Exchange, peer: PeerId)
    requires cfg.nodeType == Server && me in w.nodes && peer in w.queues
    requires e.cmd.SendMessage? && SendAgreeable(cfg, w.queues.Keys, e)
    ensures var w' := MockModel.Next(w, MockModel.Command(me, e.cmd));
            && w'.nodes.Keys == w.nodes.Keys && w'.queues.Keys == w.queues.Keys
            && w'.queues[peer] == w.queues[peer] + Received(me, IssuedItem(cfg, peer)(e))
  {
    hide MockTarget, Destination, Agreeable;
    AgreeableTarget(cfg, e.cmd.addr);
    AfterSendDelivers(w.queues, me, w.nodes[me].next, e.cmd.addr, e.cmd.msg);
  }

  lemma AfterSendDelivers(queues: MockModel.Queues, from: PeerId, id: MessageId, addr: Address, msg: Message)
    requires MockTarget(addr).Some? && MockTarget(addr).value in queues
    ensures var to := MockTarget(addr).value;
            MockModel.AfterSend(queues, from, id, addr, msg) ==
            queues[to := queues[to] + [MessageReceived(from, msg)]]
  {
    hide MockTarget;
  }

  // --- The same ids ---

  ghost predicate NoSendRequests(s: State) {
    forall t :: 0 <= t < |s.requests| ==> !s.requests[t].SendMessage?
  }

  function SendId(e: Exchange): seq<MessageId> {
    if e.cmd.SendMessage? && e.reply.MessageSent? then [e.reply.id] else []
  }

  /** The ids in the replies to the sends. */
  function SendIds(exchanges: seq<Exchange>): seq<MessageId> {
    FlatMap(SendId, exchanges)
  }

  function Sends(exchanges: seq<Exchange>): nat {
    if exchanges == [] then 0
    else Sends(exchanges[..|exchanges| - 1]) + if exchanges[|exchanges| - 1].cmd.SendMessage? then 1 else 0
  }

  /** A step leaves the exchanges alone or adds one; a send takes the next number. */
  ghost predicate Numbered(s: State, s': State) {
    || (s'.exchanges == s.exchanges && s'.next == s.next)
    || (&& |s'.exchanges| == |s.exchanges| + 1
        && s'.exchanges[..|s.exchanges|] == s.exchanges
        && var e := s'.exchanges[|s.exchanges|];
           if e.cmd.SendMessage? then e.reply == MessageSent(s.next) && s'.next == s.next + 1
           else s'.next == s.next)
  }

  lemma StepNumbers(cfg: Config, s: State, l: Label)
    requires Enabled(s, l) && NoSendRequests(s)
    ensures Numbered(s, Step(cfg, s, l)) && NoSendRequests(Step(cfg, s, l))
  {
    StepFront(cfg, s, l);
    hide Step;
  }

  ghost predicate NumberedFromOne(exchanges: seq<Exchange>, next: MessageId) {
    next == 1 + Sends(exchanges) && SendIds(exchanges) == Range(1, next)
  }

  lemma NumbersGrow(s: State, s': State)
    requires Numbered(s, s') && NumberedFromOne(s.exchanges, s.next)
    ensures NumberedFromOne(s'.exchanges, s'.next)
  {
    if s'.exchanges != s.exchanges {
      var e := s'.exchanges[|s.exchanges|];
      assert s'.exchanges == s.exchanges + [e];
      FlatMapSnoc(SendId, s.exchanges, e);
      assert SendIds(s.exchanges) + [] == SendIds(s.exchanges);
      hide SendIds;
    }
  }

  lemma {:induction false} RunNumbers(cfg: Config, labels: seq<Label>)
    ensures var s := Run(cfg, labels); NoSendRequests(s) && NumberedFromOne(s.exchanges, s.next)
  {
    if labels != [] {
      var s, l := Run(cfg, labels[..|labels| - 1]), labels[|labels| - 1];
      RunNumbers(cfg, labels[..|labels| - 1]);
      if Enabled(s, l) {
        StepNumbers(cfg, s, l);
        NumbersGrow(s, Step(cfg, s, l));
      }
      hide Step, NoSendRequests, NumberedFromOne;
    }
  }

  lemma {:induction false} MockNumbers(before: seq<MockModel.Label>, me: PeerId, exchanges: seq<Exchange>)
    requires me in MockModel.Run(before).nodes
    ensures var w, w' := MockModel.Run(before), MockAfter(before, me, exchanges);
            me in w'.nodes && w'.nodes[me].next == w.nodes[me].next + Sends(exchanges)
  {
    hide MockModel.Run, MockModel.Delivery;
    if exchanges == [] {
      MockAfterNone(before, me);
    } else {
      MockNumbers(before, me, exchanges[..|exchanges| - 1]);
      MockAfterOneMore(before, me, exchanges);
      hide MockAfter;
    }
  }

  /** The actor replies to its sends with the very ids that a mock node, new to the registry, gives
      the same sends: from 1 upwards without gaps. */
  lemma {:induction false} SameMessageIds(cfg: Config, labels: seq<Label>, before: seq<MockModel.Label>, me: PeerId)
    requires var w := MockModel.Run(before); me in w.nodes && w.nodes[me].next == 1
    ensures var s := Run(cfg, labels);
            var mock := MockAfter(before, me, s.exchanges);
            && me in mock.nodes && mock.nodes[me].next == s.next
            && MockModel.IdsFrom(mock.log, me) == SendIds(s.exchanges)
  {
    var s := Run(cfg, labels);
    RunNumbers(cfg, labels);
    MockNumbers(before, me, s.exchanges);
    MockModel.EveryNodeAccounted(before + SendLabels(me, s.exchanges));
    assert MockModel.NodeAccounted(MockAfter(before, me, s.exchanges), me);
    hide Run, MockModel.Run, MockModel.IdsFrom, SendIds, Range, Sends, MockModel.EventsTo, MockModel.SentSound;
  }

  /** Quiescent agreement: once nothing waits in the channel or in a queue, what the actor has
      attempted for a destination is, message for message and in order, what a mock node
      handed the same sends has appended to that destination's queue - if and only if no dial
      to the peer was refused. It takes addresses that both read the same way and registered
      destinations; connections may come and go at will, and the mock nodes may have any past. */
  lemma {:induction false} QuiescentAgreement(cfg: Config, labels: seq<Label>, before: seq<MockModel.Label>,
                                              me: PeerId, peer: PeerId)
    requires cfg.nodeType == Server
    requires var w := MockModel.Run(before);
             me in w.nodes && peer in w.queues && AllAgreeable(cfg, w.queues, Run(cfg, labels).exchanges)
    requires Run(cfg, labels).commands == [] && Run(cfg, labels).parked == map[]
    ensures var s, w := Run(cfg, labels), MockModel.Run(before);
            var mock := MockAfter(before, me, s.exchanges);
            && peer in mock.queues
            && (mock.queues[peer] == w.queues[peer] + Received(me, AttemptedItems(s.attempts, peer)) <==>
                !RefusedSomewhere(cfg, labels, peer))
  {
    CompleteIffNeverRefused(cfg, labels, peer);
    var s := Run(cfg, labels);
    MockDeliversIssued(cfg, before, me, s.exchanges, peer);
    assert Handled(cfg, s, peer) == AttemptedItems(s.attempts, peer);
    hide Run, MockModel.Run, MockAfter, AllAgreeable, RefusedSomewhere, IssuedItems, Handled;
  }

  // --- Delivered messages ---

  function DeliveredItem(peer: PeerId): Attempt -> seq<Item> {
    (attempt: Attempt) => if attempt.peer == peer && attempt.outcome == Delivered then [attempt.item] else []
  }

  /** The items written to a stream to the peer without an error. */
  function DeliveredItems(attempts: seq<Attempt>, peer: PeerId): seq<Item> {
    FlatMap(DeliveredItem(peer), attempts)
  }

  ghost predicate NoneFailed(attempts: seq<Attempt>, peer: PeerId) {
    forall i :: 0 <= i < |attempts| && attempts[i].peer == peer ==> attempts[i].outcome == Delivered
  }

  lemma {:induction false} DeliveredAmongAttempted(attempts: seq<Attempt>, peer: PeerId)
    ensures |DeliveredItems(attempts, peer)| <= |AttemptedItems(attempts, peer)|
    ensures NoneFailed(attempts, peer) ==> DeliveredItems(attempts, peer) == AttemptedItems(attempts, peer)
    ensures !NoneFailed(attempts, peer) ==> |DeliveredItems(attempts, peer)| < |AttemptedItems(attempts, peer)|
  {
    if attempts != [] {
      DeliveredAmongAttempted(attempts[1..], peer);
      assert attempts == [attempts[0]] + attempts[1..];
    }
  }

  /** At quiescence, what the actor has delivered to a destination is, in order, what the mock has
      appended to its queue, if and only if no dial to the peer was refused and no attempt failed. */
  lemma {:induction false} QuiescentDelivery(cfg: Config, labels: seq<Label>, before: seq<MockModel.Label>,
                                             me: PeerId, peer: PeerId)
    requires cfg.nodeType == Server
    requires var w := MockModel.Run(before);
             me in w.nodes && peer in w.queues && AllAgreeable(cfg, w.queues, Run(cfg, labels).exchanges)
    requires Run(cfg, labels).commands == [] && Run(cfg, labels).parked == map[]
    ensures var s, w := Run(cfg, labels), MockModel.Run(before);
            var mock := MockAfter(before, me, s.exchanges);
            && peer in mock.queues
            && (mock.queues[peer] == w.queues[peer] + Received(me, DeliveredItems(s.attempts, peer)) <==>
                !RefusedSomewhere(cfg, labels, peer) && NoneFailed(s.attempts, peer))
  {
    CompleteIffNeverRefused(cfg, labels, peer);
    var s := Run(cfg, labels);
    MockDeliversIssued(cfg, before, me, s.exchanges, peer);
    DeliveredAmongAttempted(s.attempts, peer);
    assert Handled(cfg, s, peer) == AttemptedItems(s.attempts, peer);
    hide Run, MockModel.Run, MockAfter, AllAgreeable, RefusedSomewhere, IssuedItems, Handled, NoneFailed,
         DeliveredItems, AttemptedItems;
  }
}
