/** What the inputs of a run - commands, libp2p's answers, swarm events - make of the actor's state:
    each part of it is read off the labels alone, or off the label that caused it. */
module ActorInputs {
  import opened Types
  import opened Collections
  import opened Addresses
  import opened ActorModel
  import opened ActorSteps
  import opened ActorSends
  import opened ActorReplies
  import opened ActorAnswers
  import opened ActorReports
  import opened ActorFirstListen

  // --- Commands ---

  /** The commands that found the front end free. */
  function Told(cfg: Config, labels: seq<Label>): seq<NetworkCommand> {
    if labels == [] then []
    else
      var before, l := labels[..|labels| - 1], labels[|labels| - 1];
      Told(cfg, before) + if l.Issue? && Run(cfg, before).waiting == None then [l.cmd] else []
  }

  function RequestOnly(cmd: NetworkCommand): seq<NetworkCommand> {
    if cmd.Listen? || cmd.ListenViaRelay? then [cmd] else []
  }

  function ImmediateOnly(cmd: NetworkCommand): seq<NetworkCommand> {
    if cmd.SendMessage? || cmd.GetLocalAddresses? then [cmd] else []
  }

  function ImmediateOf(e: Exchange): seq<NetworkCommand> {
    ImmediateOnly(e.cmd)
  }

  ghost predicate AsTold(told: seq<NetworkCommand>, s: State) {
    && s.requests == FlatMap(RequestOnly, told)
    && FlatMap(ImmediateOf, s.exchanges) == FlatMap(ImmediateOnly, told)
  }

  lemma IssueAsTold(told: seq<NetworkCommand>, cfg: Config, s: State, cmd: NetworkCommand)
    requires AsTold(told, s)
    ensures AsTold(told + [cmd], IssueCommand(cfg, s, cmd))
  {
    IssueFrame(cfg, s, cmd);
    FlatMapSnoc(RequestOnly, told, cmd);
    FlatMapSnoc(ImmediateOnly, told, cmd);
    if FinishedAtOnce(s, cmd) != [] {
      FlatMapSnoc(ImmediateOf, s.exchanges, FinishedAtOnce(s, cmd)[0]);
    }
    hide IssueCommand, FlatMap;
  }

  lemma NextAsTold(told: seq<NetworkCommand>, cfg: Config, s: State, l: Label)
    requires AsTold(told, s) && Enabled(s, l) && !l.Issue?
    requires forall t :: 0 <= t < |s.requests| ==> IsRequest(s.requests[t])
    ensures AsTold(told, Step(cfg, s, l))
  {
    StepFront(cfg, s, l);
    hide Step;
    if l.Resume? {
      var e := Exchange(s.requests[s.waiting.value], ResumeReply(s));
      FlatMapSnoc(ImmediateOf, s.exchanges, e);
      assert ImmediateOf(e) == [];
    }
    hide FlatMap;
  }

  /** Over every run: the requests are the listen and relay commands given, in order, and the sends and
      address queries that were replied to are those given, in order; nothing is made up or dropped. */
  lemma {:induction false} RunAsTold(cfg: Config, labels: seq<Label>)
    ensures AsTold(Told(cfg, labels), Run(cfg, labels))
  {
    if labels != [] {
      var before, l := labels[..|labels| - 1], labels[|labels| - 1];
      var s := Run(cfg, before);
      RunAsTold(cfg, before);
      RunDelivered(cfg, before);
      assert RequestsFinished(ViewOf(s));
      if Enabled(s, l) && !l.Issue? {
        NextAsTold(Told(cfg, before), cfg, s, l);
      } else if l.Issue? && s.waiting == None {
        IssueAsTold(Told(cfg, before), cfg, s, l.cmd);
      }
      hide AsTold, IssueCommand, ResumeCommand, RunCommand, OnNewListenAddr, OnEstablished, OnClosed, WellAnswered,
           RequestsFinished;
      assert Told(cfg, before) + [] == Told(cfg, before);
    }
  }

  // --- Announcements ---

  function AnnouncedBy(l: Label): seq<Address> {
    if l.NewListenAddr? then [Print(l.address)] else []
  }

  lemma NextListenLog(cfg: Config, s: State, l: Label)
    ensures Next(cfg, s, l).listenLog == s.listenLog + AnnouncedBy(l)
  {
    hide TranslateAddress, LastPeer, FailuresOf, AttemptsOf, Print, Contains, Ids;
    assert s.listenLog + [] == s.listenLog;
  }

  /** The log that provenance is stated on holds the text of every announced address, in order. */
  lemma {:induction false} RunListenLog(cfg: Config, labels: seq<Label>)
    ensures Run(cfg, labels).listenLog == FlatMap(AnnouncedBy, labels)
  {
    if labels != [] {
      var before, l := labels[..|labels| - 1], labels[|labels| - 1];
      RunListenLog(cfg, before);
      NextListenLog(cfg, Run(cfg, before), l);
      FlatMapSnoc(AnnouncedBy, before, l);
      assert before + [l] == labels;
      hide Next, FlatMap;
    }
  }

  /** A request waits in its slot only as long as nothing eligible has been announced since it was
      parked: nothing at all for a listen, no circuit address for a relay request. */
  lemma {:induction false} WaitsOnlyForEligible(cfg: Config, labels: seq<Label>, j: nat)
    ensures var s := Run(cfg, labels);
            && (s.pendingListen.Some? ==> s.since == |s.listenLog|)
            && (s.pendingRelay.Some? && s.since <= j < |s.listenLog| ==> !Contains(s.listenLog[j], "/p2p-circuit"))
  {
    RunSound(cfg, labels);
    var s := Run(cfg, labels);
    assert CIRCUIT_TEXT == "/p2p-circuit";
    hide Run, Owned, Typed, GrantsSound, AddrsSound, RepliesSound, CircuitsSound, Contains;
    assert s.pendingRelay.Some? && s.since <= j < |s.listenLog| ==> !CircuitAddress(ViewOf(s).listenLog[j]);
  }

  // --- Connections ---

  /** Connections to a peer that were announced and not closed. */
  function OpenCount(labels: seq<Label>, peer: PeerId): nat {
    if labels == [] then 0
    else
      var n, l := OpenCount(labels[..|labels| - 1], peer), labels[|labels| - 1];
      if l.Established? && l.peer == peer then n + 1
      else if l.Closed? && l.peer == peer && n > 0 then n - 1
      else n
  }

  lemma NextConnections(cfg: Config, s: State, l: Label, peer: PeerId)
    ensures Next(cfg, s, l).connections[peer] ==
            if l.Established? && l.peer == peer then s.connections[peer] + 1
            else if l.Closed? && l.peer == peer && s.connections[peer] > 0 then s.connections[peer] - 1
            else s.connections[peer]
  {
    hide Step;
    if Enabled(s, l) {
      StepQueues(cfg, s, l);
    }
  }

  /** The peers that count as connected are those with more connections established than closed. */
  lemma {:induction false} RunConnections(cfg: Config, labels: seq<Label>, peer: PeerId)
    ensures Run(cfg, labels).connections[peer] == OpenCount(labels, peer)
  {
    if labels != [] {
      RunConnections(cfg, labels[..|labels| - 1], peer);
      NextConnections(cfg, Run(cfg, labels[..|labels| - 1]), labels[|labels| - 1], peer);
      hide Next;
    }
  }

  function OpenedEvents(labels: seq<Label>, peer: PeerId): nat {
    if labels == [] then 0
    else OpenedEvents(labels[..|labels| - 1], peer) +
         if labels[|labels| - 1].Established? && labels[|labels| - 1].peer == peer then 1 else 0
  }

  lemma NextOpenedEvents(cfg: Config, s: State, l: Label, peer: PeerId)
    ensures multiset(Next(cfg, s, l).events)[PeerConnected(peer)] ==
            multiset(s.events)[PeerConnected(peer)] + if l.Established? && l.peer == peer then 1 else 0
  {
    if Enabled(s, l) {
      StepAddsEvents(cfg, s, l);
      NewConnectionEvents(cfg, s, l, peer);
      Counts(s.events, StepEvents(cfg, s, l), PeerConnected(peer));
    }
    hide Step, StepEvents;
  }

  /** Every connection is reported, once. */
  lemma {:induction false} RunOpenedEvents(cfg: Config, labels: seq<Label>, peer: PeerId)
    ensures multiset(Run(cfg, labels).events)[PeerConnected(peer)] == OpenedEvents(labels, peer)
  {
    if labels != [] {
      RunOpenedEvents(cfg, labels[..|labels| - 1], peer);
      NextOpenedEvents(cfg, Run(cfg, labels[..|labels| - 1]), labels[|labels| - 1], peer);
      hide Next;
    }
  }

  // --- Attempts ---

  /** An attempt is made only in a step whose label says how it ends, and only to a peer that is then
      connected. */
  lemma {:induction false} AttemptsOnlyConnected(cfg: Config, labels: seq<Label>, l: Label, i: nat)
    requires |Run(cfg, labels).attempts| <= i < |Run(cfg, labels + [l]).attempts|
    ensures var s' := Run(cfg, labels + [l]);
            var a := s'.attempts[i];
            && a.peer in s'.connections
            && (l.Dequeue? || l.Established?) && a.outcome == l.outcome(a.item.id)
  {
    RunOneMore(cfg, labels, l);
    hide Step;
    var s := Run(cfg, labels);
    if Enabled(s, l) {
      StepQueues(cfg, s, l);
    }
    hide Run, Destination;
  }

  // --- Refusals ---

  /** Whether a request is refused, by the parse of its address and by libp2p's own answer to it:
      to listen_on for a listen request, to dial for a relay request. */
  function Verdict(cfg: Config, cmd: NetworkCommand, listenOk: bool, dialOk: bool): Option<Refusal> {
    match cmd
    case Listen(addr) =>
      if cfg.parse(addr) == None then Some(InvalidAddress) else if listenOk then None else Some(ListenRejected)
    case ListenViaRelay(relayAddr) =>
      if cfg.parse(relayAddr) == None then Some(InvalidAddress) else if dialOk then None else Some(DialRejected)
    case _ => None
  }

  /** The step takes request t from the channel and refuses it for the reason. */
  predicate Refuses(cfg: Config, s: State, l: Label, t: Token, reason: Refusal) {
    && l.Dequeue? && s.commands != [] && !s.commands[0].Send? && s.commands[0].token == t
    && t < |s.requests| && Verdict(cfg, s.requests[t], l.listenOk, l.dialOk) == Some(reason)
  }

  predicate AnsweredNo(s: State, t: Token, reason: Refusal) {
    t in s.mailbox && s.mailbox[t] == Err(reason)
  }

  lemma RequestRefusals(cfg: Config, s: State, cmd: SwarmCommand, listenOk: bool, dialOk: bool,
                        outcome: MessageId -> Outcome)
    requires !cmd.Send? && CommandTyped(s.requests, cmd)
    ensures var s' := RunCommand(cfg, s, cmd, listenOk, dialOk, outcome);
            match Verdict(cfg, s.requests[cmd.token], listenOk, dialOk)
            case None => s'.mailbox == s.mailbox
            case Some(reason) => s'.mailbox == s.mailbox[cmd.token := Err(reason)]
  {
    hide DoSend;
  }

  lemma CommandRefusals(cfg: Config, s: State, l: Label, t: Token, reason: Refusal)
    requires l.Dequeue? && s.commands != [] && Owned(ViewOf(s)) && Typed(ViewOf(s))
    ensures AnsweredNo(Step(cfg, s, l), t, reason) <==> AnsweredNo(s, t, reason) || Refuses(cfg, s, l, t, reason)
  {
    hide RunCommand, DoSend, Owned, Typed, Verdict, ViewOf;
    var s1, cmd := s.(commands := s.commands[1..]), s.commands[0];
    var s' := RunCommand(cfg, s1, cmd, l.listenOk, l.dialOk, l.outcome);
    assert Step(cfg, s, l) == s';
    hide Step;
    if cmd.Send? {
      SendIsDoSend(cfg, s1, cmd, l.listenOk, l.dialOk, l.outcome);
      SendRefusesNothing(cfg, s1, Item(cmd.id, cmd.msg), cmd.addr, l.dialOk, l.outcome);
    } else {
      HeadUnanswered(s);
      RequestRefusals(cfg, s1, cmd, l.listenOk, l.dialOk, l.outcome);
      var verdict := Verdict(cfg, s.requests[cmd.token], l.listenOk, l.dialOk);
      OneMoreRefusal(s.mailbox, cmd.token, verdict, s'.mailbox, t, reason);
    }
  }

  lemma OneMoreRefusal(mailbox: map<Token, Result<Address, Refusal>>, token: Token, verdict: Option<Refusal>,
                       mailbox': map<Token, Result<Address, Refusal>>, t: Token, reason: Refusal)
    requires token !in mailbox
    requires mailbox' == if verdict == None then mailbox else mailbox[token := Err(verdict.value)]
    ensures (t in mailbox' && mailbox'[t] == Err(reason)) <==>
              (t in mailbox && mailbox[t] == Err(reason)) || (t == token && verdict == Some(reason))
  {
  }

  lemma HeadUnanswered(s: State)
    requires s.commands != [] && !s.commands[0].Send? && Owned(ViewOf(s)) && Typed(ViewOf(s))
    ensures s.commands[0].token !in s.mailbox && CommandTyped(s.requests, s.commands[0])
  {
    RequestsInHead(s.commands);
    HeadIsSoleSender(ViewOf(s));
    HeadTyped(s);
    hide Owned, Typed, RequestsIn, CommandTyped;
  }

  lemma SendRefusesNothing(cfg: Config, s: State, item: Item, addr: Address, dialOk: bool,
                           outcome: MessageId -> Outcome)
    ensures DoSend(cfg, s, item, addr, dialOk, outcome).mailbox == s.mailbox
  {
    hide LastPeer, AttemptsOf, FailuresOf, Ids;
  }

  lemma AnnouncementRefusesNothing(s: State, address: Multiaddr, t: Token, reason: Refusal)
    requires Owned(ViewOf(s))
    ensures AnsweredNo(OnNewListenAddr(s, address), t, reason) <==> AnsweredNo(s, t, reason)
  {
    AnnouncementGrants(s, address);
    if TakenBy(s, address).Some? {
      TakerUnanswered(s, address);
    }
    hide OnNewListenAddr, TakenBy, Owned, ViewOf;
  }

  lemma OtherRefusesNothing(cfg: Config, s: State, l: Label)
    requires Enabled(s, l) && !l.Dequeue? && !l.NewListenAddr?
    ensures Step(cfg, s, l).mailbox == s.mailbox
  {
    hide TranslateAddress, LastPeer, FailuresOf, AttemptsOf;
    match l {
      case Issue(cmd) => assert IssueCommand(cfg, s, cmd).mailbox == s.mailbox;
      case Resume => assert ResumeCommand(s).mailbox == s.mailbox;
      case Established(peer, outcome) => assert OnEstablished(cfg, s, peer, outcome).mailbox == s.mailbox;
      case _ =>
    }
    hide *;
  }

  lemma NextRefusals(cfg: Config, s: State, l: Label, t: Token, reason: Refusal)
    requires Owned(ViewOf(s)) && Typed(ViewOf(s))
    ensures AnsweredNo(Next(cfg, s, l), t, reason) <==> AnsweredNo(s, t, reason) || Refuses(cfg, s, l, t, reason)
  {
    if Enabled(s, l) {
      match l {
        case Dequeue(_, _, _) => CommandRefusals(cfg, s, l, t, reason);
        case NewListenAddr(address, _) => AnnouncementRefusesNothing(s, address, t, reason);
        case _ => OtherRefusesNothing(cfg, s, l);
      }
    }
    hide Owned, Typed, RunCommand, OnNewListenAddr, ViewOf, Verdict;
  }

  predicate RefusesAt(cfg: Config, labels: seq<Label>, k: nat, t: Token, reason: Refusal)
    requires k < |labels|
  {
    Refuses(cfg, Run(cfg, labels[..k]), labels[k], t, reason)
  }

  ghost predicate RefusesSomewhere(cfg: Config, labels: seq<Label>, t: Token, reason: Refusal) {
    exists k :: 0 <= k < |labels| && RefusesAt(cfg, labels, k, t, reason)
  }

  lemma RefusesSnoc(cfg: Config, labels: seq<Label>, t: Token, reason: Refusal)
    requires labels != []
    ensures var n := |labels| - 1;
            RefusesSomewhere(cfg, labels, t, reason) <==>
              RefusesSomewhere(cfg, labels[..n], t, reason) || RefusesAt(cfg, labels, n, t, reason)
  {
    hide Run, Refuses;
    var n := |labels| - 1;
    forall k | 0 <= k < n
      ensures RefusesAt(cfg, labels, k, t, reason) <==> RefusesAt(cfg, labels[..n], k, t, reason)
    {
      assert labels[..n][..k] == labels[..k];
    }
  }

  lemma NothingRefused(cfg: Config, t: Token, reason: Refusal)
    ensures !RefusesSomewhere(cfg, [], t, reason)
  {
  }

  /** A request has been answered with a refusal if and only if, when it was taken from the channel, its
      address did not parse or libp2p turned that very listen_on or dial down; and the reason says which. */
  lemma {:induction false} RefusedIffTurnedDown(cfg: Config, labels: seq<Label>, t: Token, reason: Refusal)
    ensures AnsweredNo(Run(cfg, labels), t, reason) <==> RefusesSomewhere(cfg, labels, t, reason)
  {
    if labels == [] {
      NothingRefused(cfg, t, reason);
    } else {
      var n := |labels| - 1;
      RefusedIffTurnedDown(cfg, labels[..n], t, reason);
      RunSound(cfg, labels[..n]);
      NextRefusals(cfg, Run(cfg, labels[..n]), labels[n], t, reason);
      RefusesSnoc(cfg, labels, t, reason);
      hide Next, AnsweredNo, RefusesSomewhere, Refuses;
    }
  }
}
