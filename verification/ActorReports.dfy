/** What the manager is told over a whole run of the actor: connections, received messages, and
    why a send failed. */
module ActorReports {
  import opened Types
  import opened Collections
  import opened Addresses
  import opened ActorModel
  import opened ActorSteps

  // --- The events of one step ---

  function SendEvents(cfg: Config, s: State, item: Item, addr: Address, dialOk: bool, outcome: MessageId -> Outcome)
    : seq<NetworkEvent>
  {
    match Destination(cfg, addr)
    case None => [SendFailed(item.id, Cause(cfg, addr))]
    case Some(peer) =>
      if peer in s.connections then FailuresOf([item], outcome)
      else if dialOk then [] else [SendFailed(item.id, ProtocolError)]
  }

  function StepEvents(cfg: Config, s: State, l: Label): seq<NetworkEvent>
    requires Enabled(s, l)
  {
    match l
    case Dequeue(_, dialOk, outcome) =>
      if s.commands[0].Send? then SendEvents(cfg, s, Head(s), s.commands[0].addr, dialOk, outcome) else []
    case Incoming(peer, msg) => [MessageReceived(peer, msg)]
    case Established(peer, outcome) => [PeerConnected(peer)] + FailuresOf(Queue(s.parked, peer), outcome)
    case Closed(peer) => [PeerDisconnected(peer)]
    case _ => []
  }

  lemma {:induction false} StepAddsEvents(cfg: Config, s: State, l: Label)
    requires Enabled(s, l)
    ensures Step(cfg, s, l).events == s.events + StepEvents(cfg, s, l)
  {
    hide LastPeer, TranslateAddress, FailuresOf, Print, Contains;
    match l {
      case Established(peer, outcome) =>
        Regroup(s.events, [PeerConnected(peer)], FailuresOf(Queue(s.parked, peer), outcome));
      case _ =>
    }
  }

  /** Failed attempts are reported as such, each for one of the items. */
  lemma {:induction false} FailuresAreOf(items: seq<Item>, outcome: MessageId -> Outcome, event: NetworkEvent)
    requires event in FailuresOf(items, outcome)
    ensures exists j :: 0 <= j < |items| && event == SendFailed(items[j].id, ProtocolError)
  {
    if event in FailureEvent(outcome)(items[0]) {
      assert event == SendFailed(items[0].id, ProtocolError);
    } else {
      FailuresAreOf(items[1..], outcome, event);
      var j :| 0 <= j < |items[1..]| && event == SendFailed(items[1..][j].id, ProtocolError);
      assert items[1..][j] == items[j + 1];
    }
  }

  // --- Connections ---

  ghost predicate ConnectionsReported(s: State, peer: PeerId) {
    multiset(s.events)[PeerConnected(peer)] == multiset(s.events)[PeerDisconnected(peer)] + s.connections[peer]
  }

  lemma OnlyFailures(items: seq<Item>, outcome: MessageId -> Outcome, event: NetworkEvent)
    requires !event.SendFailed?
    ensures event !in FailuresOf(items, outcome)
  {
    if event in FailuresOf(items, outcome) {
      FailuresAreOf(items, outcome, event);
      assert false;
    }
  }

  lemma OnlySendFailures(cfg: Config, s: State, item: Item, addr: Address, dialOk: bool, outcome: MessageId -> Outcome,
                         event: NetworkEvent)
    requires !event.SendFailed?
    ensures event !in SendEvents(cfg, s, item, addr, dialOk, outcome)
  {
    hide FailuresOf, Destination;
    OnlyFailures([item], outcome, event);
  }

  /** A connection counts as open exactly as long as it has been announced and not revoked. */
  lemma {:induction false} RunConnectionsReported(cfg: Config, labels: seq<Label>, peer: PeerId)
    ensures ConnectionsReported(Run(cfg, labels), peer)
  {
    if labels != [] {
      var s, l := Run(cfg, labels[..|labels| - 1]), labels[|labels| - 1];
      RunConnectionsReported(cfg, labels[..|labels| - 1], peer);
      if Enabled(s, l) {
        StepConnectionsReported(cfg, s, l, peer);
      }
      hide Step, ConnectionsReported, Enabled;
    }
  }

  lemma StepConnectionsReported(cfg: Config, s: State, l: Label, peer: PeerId)
    requires Enabled(s, l) && ConnectionsReported(s, peer)
    ensures ConnectionsReported(Step(cfg, s, l), peer)
  {
    StepQueues(cfg, s, l);
    StepAddsEvents(cfg, s, l);
    NewConnectionEvents(cfg, s, l, peer);
    hide Step, StepEvents, AttemptsOf, Ids;
    Counts(s.events, StepEvents(cfg, s, l), PeerConnected(peer));
    Counts(s.events, StepEvents(cfg, s, l), PeerDisconnected(peer));
  }

  lemma NewConnectionEvents(cfg: Config, s: State, l: Label, peer: PeerId)
    requires Enabled(s, l)
    ensures multiset(StepEvents(cfg, s, l))[PeerConnected(peer)] == if l.Established? && l.peer == peer then 1 else 0
    ensures multiset(StepEvents(cfg, s, l))[PeerDisconnected(peer)] == if l.Closed? && l.peer == peer then 1 else 0
  {
    hide FailuresOf, SendEvents;
    match l {
      case Dequeue(_, dialOk, outcome) =>
        if s.commands[0].Send? {
          OnlySendFailures(cfg, s, Head(s), s.commands[0].addr, dialOk, outcome, PeerConnected(peer));
          OnlySendFailures(cfg, s, Head(s), s.commands[0].addr, dialOk, outcome, PeerDisconnected(peer));
        }
      case Established(p, outcome) =>
        var queue := Queue(s.parked, p);
        OnlyFailures(queue, outcome, PeerConnected(peer));
        OnlyFailures(queue, outcome, PeerDisconnected(peer));
        Counts([PeerConnected(p)], FailuresOf(queue, outcome), PeerConnected(peer));
        Counts([PeerConnected(p)], FailuresOf(queue, outcome), PeerDisconnected(peer));
      case _ =>
    }
  }

  lemma Counts(a: seq<NetworkEvent>, b: seq<NetworkEvent>, event: NetworkEvent)
    ensures multiset(a + b)[event] == multiset(a)[event] + multiset(b)[event]
  {
  }

  // --- Received messages ---

  function Reception(event: NetworkEvent): seq<NetworkEvent> {
    if event.MessageReceived? then [event] else []
  }

  function Receptions(events: seq<NetworkEvent>): seq<NetworkEvent> {
    FlatMap(Reception, events)
  }

  function ArrivalOf(l: Label): seq<NetworkEvent> {
    if l.Incoming? then [MessageReceived(l.peer, l.msg)] else []
  }

  lemma {:induction false} NoReceptions(events: seq<NetworkEvent>)
    requires forall i :: 0 <= i < |events| ==> !events[i].MessageReceived?
    ensures Receptions(events) == []
  {
    if events != [] {
      NoReceptions(events[1..]);
    }
  }

  lemma FailuresHoldNoReceptions(items: seq<Item>, outcome: MessageId -> Outcome)
    ensures Receptions(FailuresOf(items, outcome)) == []
  {
    forall i | 0 <= i < |FailuresOf(items, outcome)|
      ensures !FailuresOf(items, outcome)[i].MessageReceived?
    {
      FailuresAreOf(items, outcome, FailuresOf(items, outcome)[i]);
    }
    NoReceptions(FailuresOf(items, outcome));
  }

  lemma SendEventsHoldNoReceptions(cfg: Config, s: State, item: Item, addr: Address, dialOk: bool,
                                   outcome: MessageId -> Outcome)
    ensures Receptions(SendEvents(cfg, s, item, addr, dialOk, outcome)) == []
  {
    hide Receptions, FailuresOf, Destination;
    FailuresHoldNoReceptions([item], outcome);
    NoReceptions([SendFailed(item.id, Cause(cfg, addr))]);
    NoReceptions([SendFailed(item.id, ProtocolError)]);
    NoReceptions([]);
  }

  lemma StepReceptions(cfg: Config, s: State, l: Label)
    requires Enabled(s, l)
    ensures Receptions(StepEvents(cfg, s, l)) == ArrivalOf(l)
  {
    hide FailuresOf, SendEvents;
    NoReceptions([]);
    match l {
      case Dequeue(_, dialOk, outcome) =>
        if s.commands[0].Send? {
          SendEventsHoldNoReceptions(cfg, s, Head(s), s.commands[0].addr, dialOk, outcome);
        }
      case Incoming(peer, msg) => FlatMapOne(Reception, MessageReceived(peer, msg));
      case Established(peer, outcome) =>
        FailuresHoldNoReceptions(Queue(s.parked, peer), outcome);
        FlatMapConcat(Reception, [PeerConnected(peer)], FailuresOf(Queue(s.parked, peer), outcome));
        NoReceptions([PeerConnected(peer)]);
      case Closed(peer) => NoReceptions([PeerDisconnected(peer)]);
      case _ =>
    }
    hide Receptions;
  }

  /** Messages that arrive are passed on: each once, in order, and nothing besides. */
  lemma {:induction false} RunReceptions(cfg: Config, labels: seq<Label>)
    ensures Receptions(Run(cfg, labels).events) == FlatMap(ArrivalOf, labels)
  {
    if labels != [] {
      var before, l := labels[..|labels| - 1], labels[|labels| - 1];
      RunReceptions(cfg, before);
      var s := Run(cfg, before);
      FlatMapSnoc(ArrivalOf, before, l);
      assert before + [l] == labels;
      if Enabled(s, l) {
        StepAddsEvents(cfg, s, l);
        StepReceptions(cfg, s, l);
        FlatMapConcat(Reception, s.events, StepEvents(cfg, s, l));
      }
      hide Step, StepEvents;
    }
  }

  // --- Failures ---

  /** What a failed send to a dialled address is put down to. */
  function Cause(cfg: Config, addr: Address): SendError {
    if cfg.parse(addr) == None then UnreachableAddress(addr) else ProtocolError
  }

  /** The id was given to an accepted message, and the error is the one for its address as dialled. */
  predicate ExplainedBy(cfg: Config, e: Exchange, id: MessageId, error: SendError) {
    && e.cmd.SendMessage? && e.reply == MessageSent(id)
    && error == Cause(cfg, TranslateAddress(cfg.nodeType, e.cmd.addr))
  }

  ghost predicate Explained(cfg: Config, exchanges: seq<Exchange>, id: MessageId, error: SendError) {
    exists k :: 0 <= k < |exchanges| && ExplainedBy(cfg, exchanges[k], id, error)
  }

  lemma ExplainedStays(cfg: Config, exchanges: seq<Exchange>, longer: seq<Exchange>, id: MessageId, error: SendError)
    requires Explained(cfg, exchanges, id, error) && exchanges <= longer
    ensures Explained(cfg, longer, id, error)
  {
    hide ExplainedBy;
    var k :| 0 <= k < |exchanges| && ExplainedBy(cfg, exchanges[k], id, error);
    assert longer[k] == exchanges[k];
  }

  ghost predicate CommandExplained(cfg: Config, exchanges: seq<Exchange>, cmd: SwarmCommand) {
    cmd.Send? ==> Explained(cfg, exchanges, cmd.id, Cause(cfg, cmd.addr))
  }

  ghost predicate CommandsExplained(cfg: Config, exchanges: seq<Exchange>, commands: seq<SwarmCommand>) {
    forall i :: 0 <= i < |commands| ==> CommandExplained(cfg, exchanges, commands[i])
  }

  /** The addresses of parked messages parse, so that their failures are protocol errors. */
  ghost predicate ItemsExplained(cfg: Config, exchanges: seq<Exchange>, items: seq<Item>) {
    forall i :: 0 <= i < |items| ==> Explained(cfg, exchanges, items[i].id, ProtocolError)
  }

  ghost predicate EventExplained(cfg: Config, exchanges: seq<Exchange>, event: NetworkEvent) {
    event.SendFailed? ==> Explained(cfg, exchanges, event.id, event.error)
  }

  ghost predicate EventsExplained(cfg: Config, exchanges: seq<Exchange>, events: seq<NetworkEvent>) {
    forall i :: 0 <= i < |events| ==> EventExplained(cfg, exchanges, events[i])
  }

  ghost predicate AllExplained(cfg: Config, s: State) {
    && CommandsExplained(cfg, s.exchanges, s.commands)
    && (forall peer :: ItemsExplained(cfg, s.exchanges, Queue(s.parked, peer)))
    && EventsExplained(cfg, s.exchanges, s.events)
  }

  /** More finished commands explain no less. */
  lemma AllExplainedStays(cfg: Config, s: State, longer: seq<Exchange>)
    requires AllExplained(cfg, s) && s.exchanges <= longer
    ensures CommandsExplained(cfg, longer, s.commands)
    ensures forall peer :: ItemsExplained(cfg, longer, Queue(s.parked, peer))
    ensures EventsExplained(cfg, longer, s.events)
  {
    hide Explained, Cause;
    forall id, error | Explained(cfg, s.exchanges, id, error)
      ensures Explained(cfg, longer, id, error)
    {
      ExplainedStays(cfg, s.exchanges, longer, id, error);
    }
    assert forall i :: 0 <= i < |s.commands| ==> CommandExplained(cfg, s.exchanges, s.commands[i]);
    assert forall i :: 0 <= i < |s.events| ==> EventExplained(cfg, s.exchanges, s.events[i]);
    assert forall peer :: ItemsExplained(cfg, s.exchanges, Queue(s.parked, peer));
    hide Queue;
  }

  lemma IssuedExplained(cfg: Config, s: State, cmd: NetworkCommand)
    ensures CommandsExplained(cfg, s.exchanges + FinishedAtOnce(s, cmd), CommandOf(cfg, s, cmd))
  {
    hide TranslateAddress, Cause;
    if cmd.SendMessage? {
      var exchanges := s.exchanges + FinishedAtOnce(s, cmd);
      assert ExplainedBy(cfg, exchanges[|s.exchanges|], s.next, Cause(cfg, TranslateAddress(cfg.nodeType, cmd.addr)));
    }
  }

  lemma HeadExplained(cfg: Config, s: State, l: Label)
    requires AllExplained(cfg, s) && HeadLeads(cfg, s, l)
    ensures ItemsExplained(cfg, s.exchanges, [Head(s)])
  {
    hide Explained, LastPeer;
    assert CommandExplained(cfg, s.exchanges, s.commands[0]);
  }

  lemma FailuresExplained(cfg: Config, exchanges: seq<Exchange>, items: seq<Item>, outcome: MessageId -> Outcome)
    requires ItemsExplained(cfg, exchanges, items)
    ensures EventsExplained(cfg, exchanges, FailuresOf(items, outcome))
  {
    hide Explained;
    forall i | 0 <= i < |FailuresOf(items, outcome)|
      ensures EventExplained(cfg, exchanges, FailuresOf(items, outcome)[i])
    {
      FailuresAreOf(items, outcome, FailuresOf(items, outcome)[i]);
    }
  }

  lemma NewEventsExplained(cfg: Config, s: State, l: Label)
    requires Enabled(s, l) && AllExplained(cfg, s)
    ensures EventsExplained(cfg, s.exchanges, StepEvents(cfg, s, l))
  {
    hide Explained, LastPeer, FailuresOf;
    match l {
      case Dequeue(_, dialOk, outcome) =>
        if s.commands[0].Send? {
          assert CommandExplained(cfg, s.exchanges, s.commands[0]);
          if HeadLeads(cfg, s, l) {
            HeadExplained(cfg, s, l);
            FailuresExplained(cfg, s.exchanges, [Head(s)], outcome);
          }
        }
      case Established(peer, outcome) =>
        FailuresExplained(cfg, s.exchanges, Queue(s.parked, peer), outcome);
      case _ =>
    }
  }

  lemma StepExplained(cfg: Config, s: State, l: Label)
    requires Enabled(s, l) && AllExplained(cfg, s)
    ensures AllExplained(cfg, Step(cfg, s, l))
  {
    var s' := Step(cfg, s, l);
    StepFront(cfg, s, l);
    AllExplainedStays(cfg, s, s'.exchanges);
    StepCommandsExplained(cfg, s, l);
    StepParkedExplained(cfg, s, l);
    StepEventsExplained(cfg, s, l);
  }

  lemma StepCommandsExplained(cfg: Config, s: State, l: Label)
    requires Enabled(s, l) && AllExplained(cfg, s)
    ensures CommandsExplained(cfg, Step(cfg, s, l).exchanges, Step(cfg, s, l).commands)
  {
    StepFront(cfg, s, l);
    AllExplainedStays(cfg, s, Step(cfg, s, l).exchanges);
    hide Step, AllExplained, CommandExplained;
    if l.Issue? {
      IssuedExplained(cfg, s, l.cmd);
    }
  }

  /** A step leaves a queue alone, empties it, or adds the head of the channel. */
  lemma StepQueue(cfg: Config, s: State, l: Label, peer: PeerId)
    requires Enabled(s, l)
    ensures var queue, queue' := Queue(s.parked, peer), Queue(Step(cfg, s, l).parked, peer);
            || queue' == queue || queue' == []
            || (HeadLeads(cfg, s, l) && queue' == queue + [Head(s)])
  {
    StepQueues(cfg, s, l);
    hide Step, Destination;
  }

  lemma StepParkedExplained(cfg: Config, s: State, l: Label)
    requires Enabled(s, l) && AllExplained(cfg, s)
    ensures forall peer :: ItemsExplained(cfg, Step(cfg, s, l).exchanges, Queue(Step(cfg, s, l).parked, peer))
  {
    StepFront(cfg, s, l);
    var s' := Step(cfg, s, l);
    AllExplainedStays(cfg, s, s'.exchanges);
    if HeadLeads(cfg, s, l) {
      HeadExplained(cfg, s, l);
    }
    hide Step, AllExplained, Explained, Queue;
    forall peer
      ensures ItemsExplained(cfg, s'.exchanges, Queue(s'.parked, peer))
    {
      StepQueue(cfg, s, l, peer);
      assert ItemsExplained(cfg, s'.exchanges, Queue(s.parked, peer));
    }
  }

  lemma StepEventsExplained(cfg: Config, s: State, l: Label)
    requires Enabled(s, l) && AllExplained(cfg, s)
    ensures EventsExplained(cfg, Step(cfg, s, l).exchanges, Step(cfg, s, l).events)
  {
    StepFront(cfg, s, l);
    StepAddsEvents(cfg, s, l);
    NewEventsExplained(cfg, s, l);
    AllExplainedStays(cfg, s, Step(cfg, s, l).exchanges);
    hide Step, AllExplained, EventExplained, FailuresOf, SendEvents;
  }

  /** Every SendFailed event is about an accepted message and tells why: the address as dialled
      does not parse, or else a protocol error. */
  lemma {:induction false} RunExplained(cfg: Config, labels: seq<Label>)
    ensures AllExplained(cfg, Run(cfg, labels))
  {
    if labels != [] {
      var s, l := Run(cfg, labels[..|labels| - 1]), labels[|labels| - 1];
      RunExplained(cfg, labels[..|labels| - 1]);
      if Enabled(s, l) {
        StepExplained(cfg, s, l);
      }
      hide Step, AllExplained, Enabled;
    }
  }
}
