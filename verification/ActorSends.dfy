/** What every run of the actor keeps about messages: no id is duplicated or forged, each
    peer is served in order, and an id is lost silently in exactly one situation. */
module ActorSends {
  import opened Types
  import opened Collections
  import opened Addresses
  import opened ActorModel
  import opened ActorSteps

  // --- Where the ids are ---

  function QueuedId(cmd: SwarmCommand): seq<MessageId> {
    if cmd.Send? then [cmd.id] else []
  }

  function QueuedIds(commands: seq<SwarmCommand>): seq<MessageId> {
    FlatMap(QueuedId, commands)
  }

  lemma IdsConcat(a: seq<Item>, b: seq<Item>)
    ensures Ids(a + b) == Ids(a) + Ids(b)
  {
  }

  /** The ids in all parked queues together. */
  ghost function ParkedIds(parked: map<PeerId, seq<Item>>): multiset<MessageId>
    decreases parked.Keys
  {
    if parked == map[] then multiset{}
    else
      var peer := SomeKey(parked);
      assert (parked - {peer}).Keys == parked.Keys - {peer};
      multiset(Ids(parked[peer])) + ParkedIds(parked - {peer})
  }

  function SentId(attempt: Attempt): seq<MessageId> {
    if attempt.outcome == Delivered then [attempt.item.id] else []
  }

  /** Ids whose message was written to a stream without an error. */
  function SentIds(attempts: seq<Attempt>): seq<MessageId> {
    FlatMap(SentId, attempts)
  }

  function FailedId(event: NetworkEvent): seq<MessageId> {
    if event.SendFailed? then [event.id] else []
  }

  /** Ids reported to the manager by a SendFailed event. */
  function FailedIds(events: seq<NetworkEvent>): seq<MessageId> {
    FlatMap(FailedId, events)
  }

  ghost function PlacesOf(commands: seq<SwarmCommand>, parked: map<PeerId, seq<Item>>, attempts: seq<Attempt>,
                          events: seq<NetworkEvent>, lost: seq<MessageId>): multiset<MessageId> {
    multiset(QueuedIds(commands)) + ParkedIds(parked) +
    multiset(SentIds(attempts)) + multiset(FailedIds(events)) + multiset(lost)
  }

  /** Every place an id can be in, counted together. */
  ghost function Places(s: State): multiset<MessageId> {
    PlacesOf(s.commands, s.parked, s.attempts, s.events, s.lost)
  }

  /** Any one queue can be taken out of the count. */
  lemma {:induction false} ParkedIdsSplit(parked: map<PeerId, seq<Item>>, peer: PeerId)
    ensures ParkedIds(parked) == multiset(Ids(Queue(parked, peer))) + ParkedIds(parked - {peer})
    decreases parked.Keys
  {
    if peer !in parked {
      assert parked - {peer} == parked;
    } else {
      var first := SomeKey(parked);
      if first != peer {
        assert (parked - {first}).Keys == parked.Keys - {first};
        assert (parked - {peer}).Keys == parked.Keys - {peer};
        ParkedIdsSplit(parked - {first}, peer);
        ParkedIdsSplit(parked - {peer}, first);
        ParkedIdsSwap(parked, peer, first);
      }
    }
  }

  lemma ParkedIdsSwap(parked: map<PeerId, seq<Item>>, peer: PeerId, first: PeerId)
    requires peer in parked && first in parked && first != peer
    requires ParkedIds(parked) == multiset(Ids(parked[first])) + ParkedIds(parked - {first})
    requires ParkedIds(parked - {first}) ==
             multiset(Ids(Queue(parked - {first}, peer))) + ParkedIds(parked - {first} - {peer})
    requires ParkedIds(parked - {peer}) ==
             multiset(Ids(Queue(parked - {peer}, first))) + ParkedIds(parked - {peer} - {first})
    ensures ParkedIds(parked) == multiset(Ids(Queue(parked, peer))) + ParkedIds(parked - {peer})
  {
    hide ParkedIds, Ids;
    assert parked - {first} - {peer} == parked - {peer} - {first};
  }

  lemma ParkedIdsUpdate(parked: map<PeerId, seq<Item>>, peer: PeerId, items: seq<Item>)
    ensures ParkedIds(parked[peer := items]) == multiset(Ids(items)) + ParkedIds(parked - {peer})
  {
    ParkedIdsSplit(parked[peer := items], peer);
    assert parked[peer := items] - {peer} == parked - {peer};
  }

  lemma AttemptsOfCons(peer: PeerId, items: seq<Item>, outcome: MessageId -> Outcome)
    requires items != []
    ensures AttemptsOf(peer, items, outcome) ==
            [Attempt(peer, items[0], outcome(items[0].id))] + AttemptsOf(peer, items[1..], outcome)
  {
  }

  /** An attempt sends its id or reports it, never both and never neither. */
  lemma {:induction false} AttemptsPartition(peer: PeerId, items: seq<Item>, outcome: MessageId -> Outcome)
    ensures multiset(SentIds(AttemptsOf(peer, items, outcome))) + multiset(FailedIds(FailuresOf(items, outcome)))
         == multiset(Ids(items))
  {
    if items != [] {
      var first, rest := Attempt(peer, items[0], outcome(items[0].id)), items[1..];
      AttemptsPartition(peer, rest, outcome);
      OneAttemptPartition(peer, items[0], outcome);
      PartsOfCons(peer, items, outcome);
      hide SentIds, FailedIds, Ids, AttemptsOf, FailuresOf;
      JoinPartitions(items[0].id, SentIds([first]), FailedIds(FailureEvent(outcome)(items[0])),
                     SentIds(AttemptsOf(peer, rest, outcome)), FailedIds(FailuresOf(rest, outcome)), Ids(rest));
    }
  }

  lemma PartsOfCons(peer: PeerId, items: seq<Item>, outcome: MessageId -> Outcome)
    requires items != []
    ensures var rest := items[1..];
            && SentIds(AttemptsOf(peer, items, outcome)) ==
               SentIds([Attempt(peer, items[0], outcome(items[0].id))]) + SentIds(AttemptsOf(peer, rest, outcome))
            && FailedIds(FailuresOf(items, outcome)) ==
               FailedIds(FailureEvent(outcome)(items[0])) + FailedIds(FailuresOf(rest, outcome))
            && Ids(items) == [items[0].id] + Ids(rest)
  {
    var rest := items[1..];
    AttemptsOfCons(peer, items, outcome);
    FlatMapConcat(SentId, [Attempt(peer, items[0], outcome(items[0].id))], AttemptsOf(peer, rest, outcome));
    FlatMapConcat(FailedId, FailureEvent(outcome)(items[0]), FailuresOf(rest, outcome));
    assert FailuresOf(items, outcome) == FailureEvent(outcome)(items[0]) + FailuresOf(rest, outcome);
  }

  lemma OneAttemptPartition(peer: PeerId, item: Item, outcome: MessageId -> Outcome)
    ensures multiset(SentIds([Attempt(peer, item, outcome(item.id))])) +
            multiset(FailedIds(FailureEvent(outcome)(item))) == multiset{item.id}
  {
    FlatMapOne(SentId, Attempt(peer, item, outcome(item.id)));
    FlatMapOne(FailedId, SendFailed(item.id, ProtocolError));
  }

  lemma JoinPartitions(id: nat, sent1: seq<nat>, failed1: seq<nat>, sent: seq<nat>, failed: seq<nat>, ids: seq<nat>)
    requires multiset(sent1) + multiset(failed1) == multiset{id}
    requires multiset(sent) + multiset(failed) == multiset(ids)
    ensures multiset(sent1 + sent) + multiset(failed1 + failed) == multiset([id] + ids)
  {
  }

  lemma {:induction false} SendAllPlaces(s: State, peer: PeerId, items: seq<Item>, outcome: MessageId -> Outcome)
    ensures Places(SendAll(s, peer, items, outcome)) == Places(s) + multiset(Ids(items))
  {
    AttemptsPartition(peer, items, outcome);
    FlatMapConcat(SentId, s.attempts, AttemptsOf(peer, items, outcome));
    FlatMapConcat(FailedId, s.events, FailuresOf(items, outcome));
  }

  lemma FailPlaces(s: State, id: MessageId, error: SendError)
    ensures Places(Fail(s, id, error)) == Places(s) + multiset{id}
  {
    FlatMapSnoc(FailedId, s.events, SendFailed(id, error));
  }

  lemma ParkPlaces(s: State, peer: PeerId, item: Item)
    ensures Places(s.(parked := s.parked[peer := Queue(s.parked, peer) + [item]])) == Places(s) + multiset{item.id}
  {
    ParkedIdsSplit(s.parked, peer);
    ParkedIdsUpdate(s.parked, peer, Queue(s.parked, peer) + [item]);
    IdsConcat(Queue(s.parked, peer), [item]);
    assert Ids([item]) == [item.id];
  }

  lemma UnparkPlaces(s: State, peer: PeerId)
    ensures Places(s.(parked := s.parked - {peer})) + multiset(Ids(Queue(s.parked, peer))) == Places(s)
  {
    ParkedIdsSplit(s.parked, peer);
  }

  lemma LosePlaces(s: State, peer: PeerId)
    ensures Places(s.(parked := s.parked - {peer}, lost := s.lost + Ids(Queue(s.parked, peer)))) == Places(s)
  {
    ParkedIdsSplit(s.parked, peer);
  }

  lemma EventPlaces(s: State, event: NetworkEvent)
    requires !event.SendFailed?
    ensures Places(s.(events := s.events + [event])) == Places(s)
  {
    FlatMapSnoc(FailedId, s.events, event);
  }

  lemma DoSendPlaces(cfg: Config, s: State, item: Item, addr: Address, dialOk: bool, outcome: MessageId -> Outcome)
    ensures Places(DoSend(cfg, s, item, addr, dialOk, outcome)) == Places(s) + multiset{item.id}
  {
    hide Places;
    match Destination(cfg, addr) {
      case None =>
        FailPlaces(s, item.id, if cfg.parse(addr) == None then UnreachableAddress(addr) else ProtocolError);
      case Some(peer) =>
        SendAllPlaces(s, peer, [item], outcome);
        assert Ids([item]) == [item.id];
        ParkPlaces(s, peer, item);
        var failed := Fail(s, item.id, ProtocolError);
        FailPlaces(s, item.id, ProtocolError);
        LosePlaces(failed, peer);
    }
  }

  lemma {:induction false} EstablishedPlaces(cfg: Config, s: State, peer: PeerId, outcome: MessageId -> Outcome)
    ensures Places(OnEstablished(cfg, s, peer, outcome)) == Places(s)
  {
    var s1 := s.(connections := s.connections + multiset{peer}, events := s.events + [PeerConnected(peer)]);
    var s2 := ListenOnCircuit(cfg, s1, peer);
    EventPlaces(s, PeerConnected(peer));
    assert Places(s2) == Places(s1) == Places(s);
    UnparkPlaces(s2, peer);
    SendAllPlaces(s2.(parked := s2.parked - {peer}), peer, Queue(s.parked, peer), outcome);
  }

  lemma CommandPlaces(s: State, cmd: SwarmCommand)
    ensures Places(s.(commands := s.commands + [cmd])) ==
            Places(s) + if cmd.Send? then multiset{cmd.id} else multiset{}
  {
    FlatMapSnoc(QueuedId, s.commands, cmd);
  }

  lemma {:induction false} IssuePlaces(cfg: Config, s: State, cmd: NetworkCommand)
    ensures Places(IssueCommand(cfg, s, cmd)) ==
            Places(s) + if cmd.SendMessage? then multiset{s.next} else multiset{}
  {
    hide TranslateAddress;
    hide PlacesOf;
    var s' := IssueCommand(cfg, s, cmd);
    if |s'.commands| > |s.commands| {
      CommandPlaces(s, s'.commands[|s.commands|]);
    }
  }

  lemma {:induction false} DequeuePlaces(cfg: Config, s: State, listenOk: bool, dialOk: bool,
                                         outcome: MessageId -> Outcome)
    requires s.commands != []
    ensures var s1 := s.(commands := s.commands[1..]);
            Places(RunCommand(cfg, s1, s.commands[0], listenOk, dialOk, outcome)) == Places(s)
  {
    hide DoSend, PlacesOf;
    var cmd, s1 := s.commands[0], s.(commands := s.commands[1..]);
    TakePlaces(s);
    if cmd.Send? {
      DoSendPlaces(cfg, s1, Item(cmd.id, cmd.msg), cmd.addr, dialOk, outcome);
    }
  }

  lemma TakePlaces(s: State)
    requires s.commands != []
    ensures Places(s.(commands := s.commands[1..])) +
            (if s.commands[0].Send? then multiset{s.commands[0].id} else multiset{}) == Places(s)
  {
  }

  lemma {:induction false} ReplyPlaces(s: State, address: Multiaddr)
    ensures Places(OnNewListenAddr(s, address)) == Places(s)
    ensures s.waiting.Some? && s.waiting.value < |s.requests| ==> Places(ResumeCommand(s)) == Places(s)
  {
    hide PlacesOf;
  }

  /** A step creates exactly the id of a SendMessage command; all other steps only move ids. */
  lemma {:induction false} StepPlaces(cfg: Config, s: State, l: Label)
    requires Enabled(s, l)
    ensures Places(Step(cfg, s, l)) ==
            Places(s) + if l.Issue? && l.cmd.SendMessage? then multiset{s.next} else multiset{}
  {
    hide Places, IssueCommand, ResumeCommand, RunCommand, OnNewListenAddr, OnEstablished;
    match l {
      case Issue(cmd) => IssuePlaces(cfg, s, cmd);
      case Resume => ReplyPlaces(s, []);
      case Dequeue(listenOk, dialOk, outcome) => DequeuePlaces(cfg, s, listenOk, dialOk, outcome);
      case Incoming(peer, msg) => EventPlaces(s, MessageReceived(peer, msg));
      case NewListenAddr(address, _) => ReplyPlaces(s, address);
      case Established(peer, outcome) => EstablishedPlaces(cfg, s, peer, outcome);
      case Closed(peer) =>
        EventPlaces(s.(connections := s.connections - multiset{peer}), PeerDisconnected(peer));
        ConnectionPlaces(s, s.connections - multiset{peer});
      case OtherSwarmEvent =>
    }
  }

  lemma ConnectionPlaces(s: State, connections: multiset<PeerId>)
    ensures Places(s.(connections := connections)) == Places(s)
  {
  }

  lemma QueuedIdsHead(commands: seq<SwarmCommand>)
    requires commands != []
    ensures QueuedIds(commands) == QueuedId(commands[0]) + QueuedIds(commands[1..])
  {
  }

  lemma InitPlaces()
    ensures Places(Init()) == multiset{}
  {
  }

  /** The ids from 1 up to, but not including, next: each of them once. */
  ghost predicate AllOnce(places: multiset<MessageId>, next: nat) {
    next >= 1 && places == multiset(Range(1, next))
  }

  lemma AllOnceGrows(places: multiset<MessageId>, next: nat)
    requires AllOnce(places, next)
    ensures AllOnce(places + multiset{next}, next + 1)
  {
    RangeGrows(1, next);
  }

  ghost predicate Conserved(s: State) {
    AllOnce(Places(s), s.next)
  }

  lemma {:induction false} NextConserved(cfg: Config, s: State, l: Label)
    requires Conserved(s)
    ensures Conserved(Next(cfg, s, l))
  {
    hide Step, Places, AllOnce, Enabled, CommandOf, FinishedAtOnce, ResumeReply;
    if Enabled(s, l) {
      StepPlaces(cfg, s, l);
      StepFront(cfg, s, l);
      if l.Issue? && l.cmd.SendMessage? {
        AllOnceGrows(Places(s), s.next);
      } else {
        assert Places(s) + multiset{} == Places(s);
      }
    }
  }

  lemma {:induction false} RunConserved(cfg: Config, labels: seq<Label>)
    ensures Conserved(Run(cfg, labels))
  {
    InitPlaces();
    hide Places, Next;
    if labels != [] {
      RunConserved(cfg, labels[..|labels| - 1]);
      NextConserved(cfg, Run(cfg, labels[..|labels| - 1]), labels[|labels| - 1]);
    } else {
      RangeEmpty(1);
    }
  }

  lemma RangeEmpty(n: nat)
    ensures Range(n, n) == []
  {
  }

  lemma RangeGrows(lo: nat, hi: nat)
    requires lo <= hi
    ensures multiset(Range(lo, hi + 1)) == multiset(Range(lo, hi)) + multiset{hi}
  {
  }

  /** Conservation over every run: an id below next is in exactly one place, exactly once -
      in the command channel, parked, sent, reported failed, or lost - and no other id is
      anywhere. In particular no id is ever attempted, reported or parked twice. */
  lemma {:induction false} EveryIdInExactlyOnePlace(cfg: Config, labels: seq<Label>, id: MessageId)
    ensures var s := Run(cfg, labels);
            multiset(QueuedIds(s.commands))[id] + ParkedIds(s.parked)[id] + multiset(SentIds(s.attempts))[id] +
            multiset(FailedIds(s.events))[id] + multiset(s.lost)[id]
              == if 1 <= id < s.next then 1 else 0
  {
    RunConserved(cfg, labels);
    RangeCount(1, Run(cfg, labels).next, id);
    assert Places(Run(cfg, labels))[id] == multiset(Range(1, Run(cfg, labels).next))[id];
  }

  /** Places are only left forward: what was sent, reported or lost stays so, parked ids come
      from the channel, and the channel receives new ids only. */
  ghost predicate MovedForward(s: State, s': State) {
    && SentIds(s.attempts) <= SentIds(s'.attempts)
    && FailedIds(s.events) <= FailedIds(s'.events)
    && s.lost <= s'.lost
    && ParkedIds(s'.parked) <= ParkedIds(s.parked) + multiset(QueuedIds(s.commands))
    && (forall id :: id in QueuedIds(s'.commands) ==> id in QueuedIds(s.commands) || id == s.next)
  }

  lemma IdsMoveForward(cfg: Config, s: State, l: Label)
    ensures MovedForward(s, Next(cfg, s, l))
  {
    hide Step;
    var s' := Next(cfg, s, l);
    if Enabled(s, l) {
      HistoriesGrow(cfg, s, l);
      FlatMapConcat(SentId, s.attempts, s'.attempts[|s.attempts|..]);
      FlatMapConcat(FailedId, s.events, s'.events[|s.events|..]);
      assert s.attempts + s'.attempts[|s.attempts|..] == s'.attempts;
      assert s.events + s'.events[|s.events|..] == s'.events;
      ParkedFromChannel(cfg, s, l);
      ChannelGrowsByNew(cfg, s, l);
    }
  }

  lemma {:induction false} HistoriesGrow(cfg: Config, s: State, l: Label)
    requires Enabled(s, l)
    ensures var s' := Step(cfg, s, l); s.attempts <= s'.attempts && s.events <= s'.events && s.lost <= s'.lost
  {
    StepQueues(cfg, s, l);
    StepFront(cfg, s, l);
    hide Step;
  }

  lemma ChannelGrowsByNew(cfg: Config, s: State, l: Label)
    requires Enabled(s, l)
    ensures forall id :: id in QueuedIds(Step(cfg, s, l).commands) ==> id in QueuedIds(s.commands) || id == s.next
  {
    StepFront(cfg, s, l);
    hide Step;
    match l {
      case Issue(cmd) => FlatMapConcat(QueuedId, s.commands, CommandOf(cfg, s, cmd));
      case Dequeue(_, _, _) => QueuedIdsHead(s.commands);
      case _ =>
    }
  }

  lemma {:induction false} ParkedFromChannel(cfg: Config, s: State, l: Label)
    requires Enabled(s, l)
    ensures ParkedIds(Step(cfg, s, l).parked) <= ParkedIds(s.parked) + multiset(QueuedIds(s.commands))
  {
    StepQueues(cfg, s, l);
    hide Step;
    match l {
      case Dequeue(_, _, _) =>
        var cmd := s.commands[0];
        if cmd.Send? && Destination(cfg, cmd.addr).Some? {
          var peer := Destination(cfg, cmd.addr).value;
          ParkedGrowth(s.parked, peer, Item(cmd.id, cmd.msg));
          assert cmd.id in QueuedIds(s.commands);
        }
      case Established(peer, _) => ParkedIdsSplit(s.parked, peer);
      case _ =>
    }
  }

  lemma ParkedGrowth(parked: map<PeerId, seq<Item>>, peer: PeerId, item: Item)
    ensures ParkedIds(parked[peer := Queue(parked, peer) + [item]]) == ParkedIds(parked) + multiset{item.id}
    ensures ParkedIds(parked - {peer}) <= ParkedIds(parked)
  {
    ParkedIdsSplit(parked, peer);
    ParkedIdsUpdate(parked, peer, Queue(parked, peer) + [item]);
    IdsConcat(Queue(parked, peer), [item]);
    assert Ids([item]) == [item.id];
  }

  // --- Connected peers have nothing parked ---

  ghost predicate ParkedExcludesConnected(s: State) {
    forall peer :: peer in s.parked ==> s.parked[peer] != [] && peer !in s.connections
  }

  lemma {:induction false} RunParkedExcludesConnected(cfg: Config, labels: seq<Label>)
    ensures ParkedExcludesConnected(Run(cfg, labels))
  {
    if labels != [] {
      hide Step;
      var before, l := labels[..|labels| - 1], labels[|labels| - 1];
      RunParkedExcludesConnected(cfg, before);
      if Enabled(Run(cfg, before), l) {
        StepQueues(cfg, Run(cfg, before), l);
      }
    }
  }

  // --- Order ---

  function AttemptedItem(peer: PeerId): Attempt -> seq<Item> {
    (attempt: Attempt) => if attempt.peer == peer then [attempt.item] else []
  }

  /** The items attempted for a peer, in the order of the attempts. */
  function AttemptedItems(attempts: seq<Attempt>, peer: PeerId): seq<Item> {
    FlatMap(AttemptedItem(peer), attempts)
  }

  lemma {:induction false} AttemptedItemsOf(to: PeerId, items: seq<Item>, outcome: MessageId -> Outcome, peer: PeerId)
    ensures AttemptedItems(AttemptsOf(to, items, outcome), peer) == if to == peer then items else []
  {
    if items != [] {
      AttemptedItemsOf(to, items[1..], outcome, peer);
      AttemptsOfCons(to, items, outcome);
      var first := Attempt(to, items[0], outcome(items[0].id));
      FlatMapConcat(AttemptedItem(peer), [first], AttemptsOf(to, items[1..], outcome));
      assert AttemptedItems([first], peer) == if to == peer then [items[0]] else [];
      hide AttemptsOf, FlatMap, AttemptedItem;
    }
  }

  /** What has gone to a peer or waits for it. */
  function Served(s: State, peer: PeerId): seq<Item> {
    AttemptedItems(s.attempts, peer) + Queue(s.parked, peer)
  }

  /** How a step changes what was served: a dequeued message joins the end, a refused dial takes
      the queue away, and connecting, draining and disconnecting change nothing. */
  lemma {:induction false} StepServed(cfg: Config, s: State, l: Label, peer: PeerId)
    requires Enabled(s, l) && ParkedExcludesConnected(s)
    ensures Served(Step(cfg, s, l), peer) ==
            if DialRefused(cfg, s, l, peer) then AttemptedItems(s.attempts, peer)
            else if Dispatches(cfg, s, l, peer) then Served(s, peer) + [Head(s)]
            else Served(s, peer)
  {
    StepQueues(cfg, s, l);
    hide Step, Served;
    match l {
      case Dequeue(_, _, outcome) =>
        if s.commands[0].Send? && Destination(cfg, s.commands[0].addr).Some? {
          var to := Destination(cfg, s.commands[0].addr).value;
          ServedDispatch(s, Step(cfg, s, l), to, !DialRefused(cfg, s, l, to), outcome, peer);
        } else {
          ServedUnchanged(s, Step(cfg, s, l), peer);
        }
      case Established(to, outcome) => ServedDrain(s, Step(cfg, s, l), to, outcome, peer);
      case _ => ServedUnchanged(s, Step(cfg, s, l), peer);
    }
  }

  lemma ServedUnchanged(s: State, s': State, peer: PeerId)
    requires s'.attempts == s.attempts + [] && s'.parked == s.parked
    ensures Served(s', peer) == Served(s, peer)
  {
    assert s'.attempts == s.attempts;
  }

  lemma ServedDrain(s: State, s': State, to: PeerId, outcome: MessageId -> Outcome, peer: PeerId)
    requires s'.parked == s.parked - {to}
    requires s'.attempts == s.attempts + AttemptsOf(to, Queue(s.parked, to), outcome)
    ensures Served(s', peer) == Served(s, peer)
  {
    ServedAttempts(s, s', to, Queue(s.parked, to), outcome, peer);
  }

  lemma ServedDispatch(s: State, s': State, to: PeerId, kept: bool, outcome: MessageId -> Outcome, peer: PeerId)
    requires ParkedExcludesConnected(s) && s.commands != [] && s.commands[0].Send?
    requires to in s.connections ==> kept
    requires s'.parked == if to in s.connections then s.parked
                          else if kept then s.parked[to := Queue(s.parked, to) + [Head(s)]]
                          else s.parked - {to}
    requires s'.attempts == s.attempts + if to in s.connections then AttemptsOf(to, [Head(s)], outcome) else []
    ensures Served(s', peer) ==
            if to != peer then Served(s, peer)
            else if kept then Served(s, peer) + [Head(s)]
            else AttemptedItems(s.attempts, peer)
  {
    if to in s.connections {
      ServedAttempts(s, s', to, [Head(s)], outcome, peer);
      assert to == peer ==> Queue(s.parked, peer) == [];
    } else {
      assert s'.attempts == s.attempts;
    }
  }

  lemma ServedAttempts(s: State, s': State, to: PeerId, items: seq<Item>, outcome: MessageId -> Outcome, peer: PeerId)
    requires s'.attempts == s.attempts + AttemptsOf(to, items, outcome)
    ensures AttemptedItems(s'.attempts, peer) == AttemptedItems(s.attempts, peer) + if to == peer then items else []
  {
    AttemptedItemsOf(to, items, outcome, peer);
    FlatMapConcat(AttemptedItem(peer), s.attempts, AttemptsOf(to, items, outcome));
  }

  /** The ids that concern a peer, oldest first, followed by all ids still in the channel. */
  function Timeline(s: State, peer: PeerId): seq<MessageId> {
    Ids(Served(s, peer)) + QueuedIds(s.commands)
  }

  ghost predicate InOrder(s: State, peer: PeerId) {
    Increasing(Timeline(s, peer)) && Below(Timeline(s, peer), s.next)
  }

  lemma StepInOrder(cfg: Config, s: State, l: Label, peer: PeerId)
    requires Enabled(s, l) && ParkedExcludesConnected(s) && InOrder(s, peer)
    ensures InOrder(Step(cfg, s, l), peer)
  {
    StepServed(cfg, s, l, peer);
    StepFront(cfg, s, l);
    hide Step;
    var s' := Step(cfg, s, l);
    match l {
      case Issue(cmd) => IssueInOrder(s, s', peer);
      case Dequeue(_, _, _) =>
        DequeueInOrder(s, s', peer);
      case _ =>
    }
  }

  lemma IssueInOrder(s: State, s': State, peer: PeerId)
    requires InOrder(s, peer)
    requires Served(s', peer) == Served(s, peer)
    requires (s'.commands == s.commands && s'.next == s.next) ||
             (|s'.commands| == |s.commands| + 1 && s'.commands[..|s.commands|] == s.commands &&
              var last := s'.commands[|s.commands|];
              if last.Send? then last.id == s.next && s'.next == s.next + 1 else s'.next == s.next)
    ensures InOrder(s', peer)
  {
    if s'.commands != s.commands {
      var last := s'.commands[|s.commands|];
      assert s'.commands == s.commands + [last];
      FlatMapSnoc(QueuedId, s.commands, last);
      TimelineGrows(Timeline(s, peer), s.next);
      assert Timeline(s', peer) == Timeline(s, peer) + QueuedId(last);
      hide Increasing, Below, Timeline, QueuedIds;
      assert !last.Send? ==> Timeline(s, peer) + [] == Timeline(s, peer);
    }
  }

  lemma TimelineGrows(t: seq<nat>, n: nat)
    requires Increasing(t) && Below(t, n)
    ensures Increasing(t + [n]) && Below(t + [n], n + 1)
  {
  }

  lemma DequeueInOrder(s: State, s': State, peer: PeerId)
    requires InOrder(s, peer) && s.commands != []
    requires s'.commands == s.commands[1..] && s'.next == s.next
    requires || Served(s', peer) == AttemptedItems(s.attempts, peer)
             || (s.commands[0].Send? && Served(s', peer) == Served(s, peer) + [Head(s)])
             || Served(s', peer) == Served(s, peer)
    ensures InOrder(s', peer)
  {
    hide Increasing, Below, AttemptedItems;
    var attempted, queue := AttemptedItems(s.attempts, peer), Queue(s.parked, peer);
    var head, rest := if s.commands[0].Send? then [s.commands[0].id] else [], QueuedIds(s.commands[1..]);
    IdsConcat(attempted, queue);
    assert Timeline(s, peer) == Ids(attempted) + Ids(queue) + head + rest;
    TimelineCuts(Ids(attempted), Ids(queue), head, rest, s.next);
    if s.commands[0].Send? && Served(s', peer) == Served(s, peer) + [Head(s)] {
      IdsConcat(Served(s, peer), [Head(s)]);
      assert Ids([Head(s)]) == head;
    }
  }

  lemma TimelineCuts(attempted: seq<nat>, queue: seq<nat>, head: seq<nat>, rest: seq<nat>, bound: nat)
    requires Increasing(attempted + queue + head + rest) && Below(attempted + queue + head + rest, bound)
    ensures Increasing(attempted + queue + rest) && Below(attempted + queue + rest, bound)
    ensures Increasing(attempted + rest) && Below(attempted + rest, bound)
  {
    IncreasingCut(attempted + queue, head, rest);
    BelowCut(attempted + queue, head, rest, bound);
    IncreasingCut(attempted, queue, rest);
    BelowCut(attempted, queue, rest, bound);
  }

  /** First in, first out, for every peer over every run: ids are attempted in increasing order,
      whatever is parked for the peer is newer than all attempts, and whatever is still in
      the channel is newer than both. */
  lemma {:induction false} RunInOrder(cfg: Config, labels: seq<Label>, peer: PeerId)
    ensures InOrder(Run(cfg, labels), peer)
  {
    if labels != [] {
      hide Step;
      var before, l := labels[..|labels| - 1], labels[|labels| - 1];
      RunInOrder(cfg, before, peer);
      RunParkedExcludesConnected(cfg, before);
      if Enabled(Run(cfg, before), l) {
        StepInOrder(cfg, Run(cfg, before), l, peer);
      }
    }
  }

  /** The numbers are the newest below next, without a gap. */
  ghost predicate Newest(queued: seq<nat>, next: nat) {
    |queued| < next && queued == Range(next - |queued|, next)
  }

  lemma NewestGrows(queued: seq<nat>, next: nat)
    requires Newest(queued, next)
    ensures Newest(queued + [next], next + 1)
  {
  }

  lemma NewestShrinks(queued: seq<nat>, next: nat)
    requires queued != [] && Newest(queued, next)
    ensures Newest(queued[1..], next)
  {
    RangeTail(next - |queued|, next);
  }

  /** The channel holds the newest ids, without a gap. */
  ghost predicate ChannelNewest(s: State) {
    Newest(QueuedIds(s.commands), s.next)
  }

  lemma NextChannelNewest(cfg: Config, s: State, l: Label)
    requires ChannelNewest(s)
    ensures ChannelNewest(Next(cfg, s, l))
  {
    hide Step, Newest;
    if Enabled(s, l) {
      StepQueuedIds(cfg, s, l);
      StepFront(cfg, s, l);
      var queued := QueuedIds(s.commands);
      hide QueuedIds, CommandOf, FinishedAtOnce, ResumeReply;
      if l.Issue? && l.cmd.SendMessage? {
        NewestGrows(queued, s.next);
      } else if l.Dequeue? && s.commands[0].Send? {
        NewestShrinks(queued, s.next);
      }
    }
  }

  lemma StepQueuedIds(cfg: Config, s: State, l: Label)
    requires Enabled(s, l)
    ensures var queued, queued' := QueuedIds(s.commands), QueuedIds(Step(cfg, s, l).commands);
            if l.Issue? && l.cmd.SendMessage? then queued' == queued + [s.next]
            else if l.Dequeue? && s.commands[0].Send? then queued != [] && queued' == queued[1..]
            else queued' == queued
  {
    StepFront(cfg, s, l);
    hide Step;
    match l {
      case Issue(cmd) =>
        FlatMapConcat(QueuedId, s.commands, CommandOf(cfg, s, cmd));
        IssuedIds(cfg, s, cmd);
        hide CommandOf;
        assert QueuedIds(s.commands) + [] == QueuedIds(s.commands);
      case Dequeue(_, _, _) => QueuedIdsHead(s.commands);
      case _ =>
    }
  }

  lemma IssuedIds(cfg: Config, s: State, cmd: NetworkCommand)
    ensures FlatMap(QueuedId, CommandOf(cfg, s, cmd)) == if cmd.SendMessage? then [s.next] else []
  {
    hide TranslateAddress;
    if CommandOf(cfg, s, cmd) != [] {
      FlatMapOne(QueuedId, CommandOf(cfg, s, cmd)[0]);
    }
  }

  lemma RangeTail(lo: nat, hi: nat)
    requires lo < hi
    ensures Range(lo, hi)[1..] == Range(lo + 1, hi)
  {
    RangeElements(lo, hi);
    RangeElements(lo + 1, hi);
  }

  lemma {:induction false} RunChannelNewest(cfg: Config, labels: seq<Label>)
    ensures ChannelNewest(Run(cfg, labels))
  {
    hide Next;
    if labels != [] {
      RunChannelNewest(cfg, labels[..|labels| - 1]);
      NextChannelNewest(cfg, Run(cfg, labels[..|labels| - 1]), labels[|labels| - 1]);
    }
  }

  /** Whatever has left the channel, for whichever peer and however it ended, is older than
      everything still in it. */
  lemma {:induction false} DequeuedBeforeQueued(cfg: Config, labels: seq<Label>, id: MessageId, queued: MessageId)
    ensures var s := Run(cfg, labels);
            && queued in QueuedIds(s.commands)
            && (id in ParkedIds(s.parked) || id in SentIds(s.attempts) || id in FailedIds(s.events) || id in s.lost)
            ==> id < queued
  {
    var s := Run(cfg, labels);
    EveryIdInExactlyOnePlace(cfg, labels, id);
    RunChannelNewest(cfg, labels);
    hide Run, ParkedIds, QueuedIds, SentIds, FailedIds;
    if queued in QueuedIds(s.commands) && id !in QueuedIds(s.commands) && id < s.next {
      OlderThanRange(QueuedIds(s.commands), s.next, id, queued);
    }
  }

  lemma OlderThanRange(all: seq<nat>, next: nat, id: nat, queued: nat)
    requires |all| < next && all == Range(next - |all|, next)
    requires queued in all && id !in all && id < next
    ensures id < queued
  {
    RangeElements(next - |all|, next);
    if id >= next - |all| {
      RangeHas(next - |all|, next, id);
    }
  }

  // --- Refused dials and lost ids ---

  /** A refused dial while older messages wait for the same peer. */
  predicate LosesQueue(cfg: Config, s: State, l: Label) {
    exists peer | peer in s.parked :: DialRefused(cfg, s, l, peer)
  }

  /** Step number k of a run loses a queue. */
  predicate LossAt(cfg: Config, labels: seq<Label>, k: nat)
    requires k < |labels|
  {
    var s := Run(cfg, labels[..k]);
    Enabled(s, labels[k]) && LosesQueue(cfg, s, labels[k])
  }

  ghost predicate LossSomewhere(cfg: Config, labels: seq<Label>) {
    exists k :: 0 <= k < |labels| && LossAt(cfg, labels, k)
  }

  lemma LossSnoc(cfg: Config, labels: seq<Label>)
    requires labels != []
    ensures var n := |labels| - 1;
            LossSomewhere(cfg, labels) <==> LossSomewhere(cfg, labels[..n]) || LossAt(cfg, labels, n)
  {
    hide Run, Enabled, LosesQueue;
    var n := |labels| - 1;
    forall k | 0 <= k < n
      ensures LossAt(cfg, labels, k) <==> LossAt(cfg, labels[..n], k)
    {
      assert labels[..n][..k] == labels[..k];
    }
  }

  lemma {:induction false} RecordedIffQueueLost(cfg: Config, labels: seq<Label>)
    ensures Run(cfg, labels).lost != [] <==> LossSomewhere(cfg, labels)
  {
    if labels != [] {
      var n := |labels| - 1;
      var s := Run(cfg, labels[..n]);
      RecordedIffQueueLost(cfg, labels[..n]);
      RunParkedExcludesConnected(cfg, labels[..n]);
      LossSnoc(cfg, labels);
      NextLosesIff(cfg, s, labels[n]);
      hide Next, LosesQueue, LossSomewhere, Enabled;
    }
  }

  lemma NextLosesIff(cfg: Config, s: State, l: Label)
    requires ParkedExcludesConnected(s)
    ensures Next(cfg, s, l).lost != s.lost <==> Enabled(s, l) && LosesQueue(cfg, s, l)
    ensures s.lost <= Next(cfg, s, l).lost
  {
    hide Step, LosesQueue;
    if Enabled(s, l) {
      StepLosesIff(cfg, s, l);
    }
  }

  lemma StepLosesIff(cfg: Config, s: State, l: Label)
    requires Enabled(s, l) && ParkedExcludesConnected(s)
    ensures Step(cfg, s, l).lost != s.lost <==> LosesQueue(cfg, s, l)
    ensures s.lost <= Step(cfg, s, l).lost
  {
    StepQueues(cfg, s, l);
    hide Step;
  }

  /** An accepted message's id that is nowhere: not waiting, not sent, not reported. */
  ghost predicate Missing(s: State, id: MessageId) {
    && 1 <= id < s.next
    && id !in QueuedIds(s.commands) && id !in ParkedIds(s.parked)
    && id !in SentIds(s.attempts) && id !in FailedIds(s.events)
  }

  lemma {:induction false} MissingIffRecorded(cfg: Config, labels: seq<Label>, id: MessageId)
    ensures Missing(Run(cfg, labels), id) <==> id in Run(cfg, labels).lost
  {
    EveryIdInExactlyOnePlace(cfg, labels, id);
    hide Run, QueuedIds, ParkedIds, SentIds, FailedIds;
  }

  /** Some accepted message is missing exactly if, at some step, a dial was refused while older
      messages were parked for that peer. */
  lemma {:induction false} LostIffQueueLost(cfg: Config, labels: seq<Label>)
    ensures (exists id :: Missing(Run(cfg, labels), id)) <==> LossSomewhere(cfg, labels)
  {
    RecordedIffQueueLost(cfg, labels);
    var lost := Run(cfg, labels).lost;
    forall id
      ensures Missing(Run(cfg, labels), id) <==> id in lost
    {
      MissingIffRecorded(cfg, labels, id);
    }
    hide Run, Missing, LossSomewhere;
    if lost != [] {
      assert Missing(Run(cfg, labels), lost[0]);
    }
  }

  /** What a step makes missing: the queue of the peer whose dial it refuses, all of it, and nothing else. */
  lemma {:induction false} StepLosesExactlyTheQueue(cfg: Config, labels: seq<Label>, l: Label, id: MessageId)
    requires Enabled(Run(cfg, labels), l)
    ensures var s := Run(cfg, labels);
            Missing(Run(cfg, labels + [l]), id) <==>
              || Missing(s, id)
              || exists peer | peer in s.parked :: DialRefused(cfg, s, l, peer) && id in Ids(s.parked[peer])
  {
    MissingIffRecorded(cfg, labels, id);
    MissingIffRecorded(cfg, labels + [l], id);
    RunOneMore(cfg, labels, l);
    RunParkedExcludesConnected(cfg, labels);
    hide Run, Missing;
    StepLosesQueue(cfg, Run(cfg, labels), l, id);
  }

  lemma StepLosesQueue(cfg: Config, s: State, l: Label, id: MessageId)
    requires Enabled(s, l) && ParkedExcludesConnected(s)
    ensures id in Step(cfg, s, l).lost <==>
              || id in s.lost
              || exists peer | peer in s.parked :: DialRefused(cfg, s, l, peer) && id in Ids(s.parked[peer])
  {
    StepQueues(cfg, s, l);
    hide Step, Ids;
    if HeadLeads(cfg, s, l) && DialRefused(cfg, s, l, HeadPeer(cfg, s, l)) {
      var peer := HeadPeer(cfg, s, l);
      assert id in s.lost + Ids(Queue(s.parked, peer)) <==> id in s.lost || id in Ids(Queue(s.parked, peer));
      assert peer !in s.parked ==> Ids(Queue(s.parked, peer)) == [];
    }
  }

  /** When nothing waits any more, every accepted message was written to a stream or reported,
      one of the two and once, unless a queue was lost. */
  lemma {:induction false} QuiescentOutcome(cfg: Config, labels: seq<Label>, id: MessageId)
    requires var s := Run(cfg, labels); s.commands == [] && s.parked == map[] && 1 <= id < s.next
    requires !LossSomewhere(cfg, labels)
    ensures var s := Run(cfg, labels);
            multiset(SentIds(s.attempts))[id] + multiset(FailedIds(s.events))[id] == 1
  {
    EveryIdInExactlyOnePlace(cfg, labels, id);
    RecordedIffQueueLost(cfg, labels);
    hide Run, LossSomewhere;
    assert ParkedIds(map[]) == multiset{};
  }

  /** A message parked, and then another one to the same peer whose dial is refused. */
  lemma RefusedAfterParked(cfg: Config, addr: Address, peer: PeerId, first: Message, second: Message,
                           outcome: MessageId -> Outcome)
    requires cfg.nodeType == Server && Destination(cfg, addr) == Some(peer)
    ensures var s2 := Next(cfg, Next(cfg, Init(), Issue(SendMessage(addr, first))), Dequeue(true, true, outcome));
            var s := Next(cfg, Next(cfg, s2, Issue(SendMessage(addr, second))), Dequeue(true, false, outcome));
            && s.lost == [1] && s.events == [SendFailed(2, ProtocolError)] && s.attempts == [] && s.parked == map[]
            && s.exchanges == [Exchange(SendMessage(addr, first), MessageSent(1)),
                               Exchange(SendMessage(addr, second), MessageSent(2))]
  {
    hide Destination;
    var s1 := Next(cfg, Init(), Issue(SendMessage(addr, first)));
    var s2 := Next(cfg, s1, Dequeue(true, true, outcome));
    var s3 := Next(cfg, s2, Issue(SendMessage(addr, second)));
    assert [] + [Item(1, first)] == [Item(1, first)];
    assert s2 == s1.(commands := [], parked := map[peer := [Item(1, first)]]);
    assert s3.commands == [Send(2, addr, second)] && s3.parked == s2.parked;
    assert s3.parked - {peer} == map[];
    assert Ids([Item(1, first)]) == [1];
    assert [] + [1] == [1];
  }

  /** A loss: the second message to a peer finds the dial refused, and the first one, accepted
      and parked before, is gone without an attempt and without a report. */
  lemma RefusedDialLosesOlderMessage(addr: Address, peer: PeerId, first: Message, second: Message,
                                     outcome: MessageId -> Outcome)
    ensures var cfg := Config(Server, _ => Some([P2p(peer)]));
            var s := Run(cfg, [Issue(SendMessage(addr, first)), Dequeue(true, true, outcome),
                               Issue(SendMessage(addr, second)), Dequeue(true, false, outcome)]);
            && Missing(s, 1) && FailedIds(s.events) == [2] && s.attempts == [] && s.parked == map[]
            && s.exchanges == [Exchange(SendMessage(addr, first), MessageSent(1)),
                               Exchange(SendMessage(addr, second), MessageSent(2))]
  {
    var cfg := Config(Server, _ => Some([P2p(peer)]));
    var issue1, issue2 := Issue(SendMessage(addr, first)), Issue(SendMessage(addr, second));
    var park, refuse := Dequeue(true, true, outcome), Dequeue(true, false, outcome);
    var labels := [issue1, park, issue2, refuse];
    assert Destination(cfg, addr) == Some(peer);
    RefusedAfterParked(cfg, addr, peer, first, second, outcome);
    RunFourMore(cfg, [], issue1, park, issue2, refuse);
    assert [] + labels == labels;
    assert Run(cfg, []) == Init();
    MissingIffRecorded(cfg, labels, 1);
    FlatMapOne(FailedId, SendFailed(2, ProtocolError));
    assert FailedId(SendFailed(2, ProtocolError)) == [2];
    hide Run, Next, Missing, Destination, FlatMap;
  }
}
