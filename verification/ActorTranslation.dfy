/** What becomes of messages whose dialled address does not parse, and of all messages that a
    browser client's translation changes the address of. */
module ActorTranslation {
  import opened Types
  import opened Collections
  import opened Addresses
  import opened ActorModel
  import opened ActorSteps
  import opened ActorSends
  import opened ActorReports

  // --- Ids identify accepted messages ---

  /** The accepted messages were numbered upwards. */
  ghost predicate IdsAscend(exchanges: seq<Exchange>, next: MessageId) {
    && (forall i :: 0 <= i < |exchanges| && exchanges[i].reply.MessageSent? ==> 1 <= exchanges[i].reply.id < next)
    && (forall i, j :: 0 <= i < j < |exchanges| && exchanges[i].reply.MessageSent? && exchanges[j].reply.MessageSent?
          ==> exchanges[i].reply.id < exchanges[j].reply.id)
  }

  lemma NextIdsAscend(cfg: Config, s: State, l: Label)
    requires s.next >= 1 && IdsAscend(s.exchanges, s.next)
    ensures Next(cfg, s, l).next >= 1 && IdsAscend(Next(cfg, s, l).exchanges, Next(cfg, s, l).next)
  {
    hide Step;
    if Enabled(s, l) {
      StepFront(cfg, s, l);
    }
  }

  lemma {:induction false} RunIdsAscend(cfg: Config, labels: seq<Label>)
    ensures Run(cfg, labels).next >= 1 && IdsAscend(Run(cfg, labels).exchanges, Run(cfg, labels).next)
  {
    hide Next, IdsAscend;
    if labels != [] {
      RunIdsAscend(cfg, labels[..|labels| - 1]);
      NextIdsAscend(cfg, Run(cfg, labels[..|labels| - 1]), labels[|labels| - 1]);
    } else {
      NoIds();
    }
  }

  lemma NoIds()
    ensures IdsAscend([], 1)
  {
  }

  /** So the error that explains a failure of an id is the one of its own message. */
  lemma OneExplanation(cfg: Config, exchanges: seq<Exchange>, next: MessageId, k: nat, error: SendError)
    requires k < |exchanges| && exchanges[k].cmd.SendMessage? && exchanges[k].reply.MessageSent?
    requires IdsAscend(exchanges, next) && Explained(cfg, exchanges, exchanges[k].reply.id, error)
    ensures error == Cause(cfg, TranslateAddress(cfg.nodeType, exchanges[k].cmd.addr))
  {
    hide TranslateAddress, Cause;
    var id := exchanges[k].reply.id;
    var j :| 0 <= j < |exchanges| && ExplainedBy(cfg, exchanges[j], id, error);
    assert j == k;
  }

  // --- Attempted and lost messages parse ---

  function AttemptIds(attempts: seq<Attempt>): (ids: seq<MessageId>)
    ensures |ids| == |attempts| && forall i :: 0 <= i < |ids| ==> ids[i] == attempts[i].item.id
  {
    seq(|attempts|, i requires 0 <= i < |attempts| => attempts[i].item.id)
  }

  ghost predicate IdsParse(cfg: Config, exchanges: seq<Exchange>, ids: seq<MessageId>) {
    forall i :: 0 <= i < |ids| ==> Explained(cfg, exchanges, ids[i], ProtocolError)
  }

  /** Whatever was attempted or lost has an address that parses. */
  ghost predicate HandledParse(cfg: Config, s: State) {
    IdsParse(cfg, s.exchanges, AttemptIds(s.attempts)) && IdsParse(cfg, s.exchanges, s.lost)
  }

  lemma IdsParseGrow(cfg: Config, exchanges: seq<Exchange>, ids: seq<MessageId>, more: seq<MessageId>,
                     longer: seq<Exchange>)
    requires IdsParse(cfg, exchanges, ids) && IdsParse(cfg, exchanges, more) && exchanges <= longer
    ensures IdsParse(cfg, longer, ids + more)
  {
    hide Explained;
    forall i | 0 <= i < |ids + more|
      ensures Explained(cfg, longer, (ids + more)[i], ProtocolError)
    {
      ExplainedStays(cfg, exchanges, longer, (ids + more)[i], ProtocolError);
    }
  }

  /** The items that a step attempts, and the ids that it loses. */
  function NewlyTried(cfg: Config, s: State, l: Label): seq<Item>
    requires Enabled(s, l)
  {
    if l.Established? then Queue(s.parked, l.peer)
    else if HeadLeads(cfg, s, l) && HeadPeer(cfg, s, l) in s.connections then [Head(s)] else []
  }

  function NewlyLost(cfg: Config, s: State, l: Label): seq<Item> {
    if HeadLeads(cfg, s, l) && DialRefused(cfg, s, l, HeadPeer(cfg, s, l)) then Queue(s.parked, HeadPeer(cfg, s, l))
    else []
  }

  lemma TriedIds(attempts: seq<Attempt>, peer: PeerId, items: seq<Item>, outcome: MessageId -> Outcome)
    ensures AttemptIds(attempts + AttemptsOf(peer, items, outcome)) == AttemptIds(attempts) + Ids(items)
  {
  }

  lemma StepTries(cfg: Config, s: State, l: Label)
    requires Enabled(s, l)
    ensures AttemptIds(Step(cfg, s, l).attempts) == AttemptIds(s.attempts) + Ids(NewlyTried(cfg, s, l))
    ensures Step(cfg, s, l).lost == s.lost + Ids(NewlyLost(cfg, s, l))
  {
    StepQueues(cfg, s, l);
    var tried := NewlyTried(cfg, s, l);
    match l {
      case Established(peer, outcome) => TriedIds(s.attempts, peer, tried, outcome);
      case Dequeue(_, _, outcome) =>
        if HeadLeads(cfg, s, l) {
          TriedIds(s.attempts, HeadPeer(cfg, s, l), [Head(s)], outcome);
        }
      case _ =>
    }
    hide Step, Destination, AttemptIds, AttemptsOf;
    assert AttemptIds(s.attempts) + Ids([]) == AttemptIds(s.attempts);
    assert s.lost + Ids([]) == s.lost;
    hide Ids;
  }

  lemma NewlyHandledExplained(cfg: Config, s: State, l: Label)
    requires Enabled(s, l) && AllExplained(cfg, s)
    ensures IdsParse(cfg, s.exchanges, Ids(NewlyTried(cfg, s, l)))
    ensures IdsParse(cfg, s.exchanges, Ids(NewlyLost(cfg, s, l)))
  {
    if HeadLeads(cfg, s, l) {
      HeadExplained(cfg, s, l);
      assert ItemsExplained(cfg, s.exchanges, Queue(s.parked, HeadPeer(cfg, s, l)));
    }
    if l.Established? {
      assert ItemsExplained(cfg, s.exchanges, Queue(s.parked, l.peer));
    }
    hide Explained, Queue, Destination;
  }

  lemma NextHandledParse(cfg: Config, s: State, l: Label)
    requires AllExplained(cfg, s) && HandledParse(cfg, s)
    ensures HandledParse(cfg, Next(cfg, s, l))
  {
    hide Step, IdsParse, AllExplained, Enabled;
    if Enabled(s, l) {
      StepFront(cfg, s, l);
      StepTries(cfg, s, l);
      NewlyHandledExplained(cfg, s, l);
      var longer := Step(cfg, s, l).exchanges;
      IdsParseGrow(cfg, s.exchanges, AttemptIds(s.attempts), Ids(NewlyTried(cfg, s, l)), longer);
      IdsParseGrow(cfg, s.exchanges, s.lost, Ids(NewlyLost(cfg, s, l)), longer);
    }
  }

  lemma {:induction false} RunHandledParse(cfg: Config, labels: seq<Label>)
    ensures HandledParse(cfg, Run(cfg, labels))
  {
    hide Next, AllExplained;
    if labels != [] {
      RunExplained(cfg, labels[..|labels| - 1]);
      RunHandledParse(cfg, labels[..|labels| - 1]);
      hide HandledParse;
      NextHandledParse(cfg, Run(cfg, labels[..|labels| - 1]), labels[|labels| - 1]);
    }
  }

  // --- Messages that cannot be dialled ---

  lemma {:induction false} ParkedIdIsQueued(parked: map<PeerId, seq<Item>>, id: MessageId) returns (peer: PeerId)
    requires id in ParkedIds(parked)
    ensures id in Ids(Queue(parked, peer))
    decreases parked.Keys
  {
    peer := SomeKey(parked);
    if id !in Ids(parked[peer]) {
      assert (parked - {peer}).Keys == parked.Keys - {peer};
      peer := ParkedIdIsQueued(parked - {peer}, id);
    }
  }

  lemma {:induction false} SentIdIsAttempted(attempts: seq<Attempt>, id: MessageId)
    requires id in SentIds(attempts)
    ensures id in AttemptIds(attempts)
  {
    var first, rest := attempts[0], attempts[1..];
    if id in SentId(first) {
      assert AttemptIds(attempts)[0] == id;
    } else {
      SentIdIsAttempted(rest, id);
      var i :| 0 <= i < |rest| && AttemptIds(rest)[i] == id;
      assert AttemptIds(attempts)[i + 1] == id;
    }
  }

  lemma {:induction false} FailedIdIsReported(events: seq<NetworkEvent>, id: MessageId) returns (i: nat)
    requires id in FailedIds(events)
    ensures i < |events| && events[i].SendFailed? && events[i].id == id
  {
    if id in FailedId(events[0]) {
      i := 0;
    } else {
      i := FailedIdIsReported(events[1..], id);
      i := i + 1;
    }
  }

  /** The accepted message at exchange k, whose dialled address does not parse. */
  predicate Undialable(cfg: Config, s: State, k: nat) {
    && k < |s.exchanges| && s.exchanges[k].cmd.SendMessage? && s.exchanges[k].reply.MessageSent?
    && cfg.parse(TranslateAddress(cfg.nodeType, s.exchanges[k].cmd.addr)) == None
  }

  /** Such a message has been attempted, parked or lost by nothing. */
  lemma UndialableNowhere(cfg: Config, labels: seq<Label>, k: nat)
    requires Undialable(cfg, Run(cfg, labels), k)
    ensures var s := Run(cfg, labels);
            var id := s.exchanges[k].reply.id;
            id !in AttemptIds(s.attempts) && id !in s.lost && id !in ParkedIds(s.parked)
  {
    var s := Run(cfg, labels);
    var id := s.exchanges[k].reply.id;
    RunIdsAscend(cfg, labels);
    RunExplained(cfg, labels);
    RunHandledParse(cfg, labels);
    hide Run, TranslateAddress, AttemptIds, Ids, CommandsExplained, EventsExplained, IdsAscend, Explained;
    if Explained(cfg, s.exchanges, id, ProtocolError) {
      OneExplanation(cfg, s.exchanges, s.next, k, ProtocolError);
      assert false;
    }
    if id in ParkedIds(s.parked) {
      var peer := ParkedIdIsQueued(s.parked, id);
      assert ItemsExplained(cfg, s.exchanges, Queue(s.parked, peer));
      QueuedIdExplained(cfg, s.exchanges, Queue(s.parked, peer), id);
      assert false;
    }
  }

  lemma QueuedIdExplained(cfg: Config, exchanges: seq<Exchange>, items: seq<Item>, id: MessageId)
    requires ItemsExplained(cfg, exchanges, items) && id in Ids(items)
    ensures Explained(cfg, exchanges, id, ProtocolError)
  {
    hide Explained;
    var i :| 0 <= i < |items| && Ids(items)[i] == id;
    assert items[i].id == id;
  }

  /** A message whose dialled address does not parse is never attempted, parked or lost: as long as
      it has not left the channel it is there, and then it is reported, once, as unreachable. */
  lemma {:induction false} UndialableIsReported(cfg: Config, labels: seq<Label>, k: nat)
    requires Undialable(cfg, Run(cfg, labels), k)
    ensures var s := Run(cfg, labels);
            var e := s.exchanges[k];
            var dialled := TranslateAddress(cfg.nodeType, e.cmd.addr);
            && e.reply.id !in AttemptIds(s.attempts)
            && if e.reply.id in QueuedIds(s.commands) then e.reply.id !in FailedIds(s.events)
               else
                 && multiset(FailedIds(s.events))[e.reply.id] == 1
                 && SendFailed(e.reply.id, UnreachableAddress(dialled)) in s.events
  {
    var s := Run(cfg, labels);
    var id := s.exchanges[k].reply.id;
    UndialableNowhere(cfg, labels, k);
    EveryIdInExactlyOnePlace(cfg, labels, id);
    RunIdsAscend(cfg, labels);
    RunExplained(cfg, labels);
    if id in SentIds(s.attempts) {
      SentIdIsAttempted(s.attempts, id);
      assert false;
    }
    assert 1 <= id < s.next;
    hide Run, TranslateAddress, AttemptIds, ParkedIds, SentIds, QueuedIds, IdsAscend, Explained, CommandsExplained;
    if id in FailedIds(s.events) {
      var i := FailedIdIsReported(s.events, id);
      assert EventExplained(cfg, s.exchanges, s.events[i]);
      OneExplanation(cfg, s.exchanges, s.next, k, s.events[i].error);
    }
    hide FailedIds;
  }

  /** The parser takes no text with an empty segment right behind a circuit hop. */
  ghost predicate RejectsEmptyHops(cfg: Config) {
    forall addr :: HasEmptyHop(addr) ==> cfg.parse(addr) == None
  }

  /** With such a parser no message to which the translation adds the relay hop leaves a browser
      client: it is never attempted, and once it has left the channel it is reported unreachable. */
  lemma {:induction false} TranslatedIsUnreachable(cfg: Config, labels: seq<Label>, k: nat)
    requires RejectsEmptyHops(cfg)
    requires var s := Run(cfg, labels);
             && k < |s.exchanges| && s.exchanges[k].cmd.SendMessage? && s.exchanges[k].reply.MessageSent?
             && NeedsRelayHop(cfg.nodeType, s.exchanges[k].cmd.addr)
    ensures var s := Run(cfg, labels);
            var e := s.exchanges[k];
            var dialled := TranslateAddress(cfg.nodeType, e.cmd.addr);
            && e.reply.id !in AttemptIds(s.attempts)
            && if e.reply.id in QueuedIds(s.commands) then e.reply.id !in FailedIds(s.events)
               else
                 && multiset(FailedIds(s.events))[e.reply.id] == 1
                 && SendFailed(e.reply.id, UnreachableAddress(dialled)) in s.events
  {
    var addr := Run(cfg, labels).exchanges[k].cmd.addr;
    ChangedIffNeedsRelayHop(cfg.nodeType, addr);
    TranslationLeavesEmptyHop(cfg.nodeType.relayServer, addr);
    hide HasEmptyHop, Run, TranslateAddress, NeedsRelayHop;
    UndialableIsReported(cfg, labels, k);
  }

  ghost predicate ReportedUnreachable(s: State, id: MessageId) {
    exists addr :: SendFailed(id, UnreachableAddress(addr)) in s.events
  }

  lemma ReportedIsExplained(cfg: Config, s: State, id: MessageId)
    requires AllExplained(cfg, s) && ReportedUnreachable(s, id)
    ensures exists addr :: Explained(cfg, s.exchanges, id, UnreachableAddress(addr))
  {
    hide Explained, CommandsExplained, ItemsExplained;
    var addr :| SendFailed(id, UnreachableAddress(addr)) in s.events;
    var i :| 0 <= i < |s.events| && s.events[i] == SendFailed(id, UnreachableAddress(addr));
    assert EventExplained(cfg, s.exchanges, s.events[i]);
  }

  /** A message to an address that parses, once out of the channel, has been reported unreachable if
      and only if its address is one that the translation adds the relay hop to. */
  lemma {:induction false} UnreachableIffRelayHop(cfg: Config, labels: seq<Label>, k: nat)
    requires RejectsEmptyHops(cfg)
    requires var s := Run(cfg, labels);
             && k < |s.exchanges| && s.exchanges[k].cmd.SendMessage? && s.exchanges[k].reply.MessageSent?
             && cfg.parse(s.exchanges[k].cmd.addr) != None
             && s.exchanges[k].reply.id !in QueuedIds(s.commands)
    ensures var s := Run(cfg, labels);
            var e := s.exchanges[k];
            ReportedUnreachable(s, e.reply.id) <==> NeedsRelayHop(cfg.nodeType, e.cmd.addr)
  {
    var s := Run(cfg, labels);
    var e := s.exchanges[k];
    ChangedIffNeedsRelayHop(cfg.nodeType, e.cmd.addr);
    if NeedsRelayHop(cfg.nodeType, e.cmd.addr) {
      TranslatedIsUnreachable(cfg, labels, k);
    } else {
      RunExplained(cfg, labels);
      RunIdsAscend(cfg, labels);
      hide Run, AllExplained, IdsAscend, TranslateAddress, QueuedIds, Explained, NeedsRelayHop;
      if ReportedUnreachable(s, e.reply.id) {
        ReportedIsExplained(cfg, s, e.reply.id);
        var addr :| Explained(cfg, s.exchanges, e.reply.id, UnreachableAddress(addr));
        OneExplanation(cfg, s.exchanges, s.next, k, UnreachableAddress(addr));
        assert false;
      }
    }
  }
}
