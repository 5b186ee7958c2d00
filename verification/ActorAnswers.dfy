/** Which answer each listen and relay command receives, over whole runs of the actor: its own
    request's, and the announcement that this answer is. */
module ActorAnswers {
  import opened Types
  import opened Collections
  import opened Addresses
  import opened ActorModel
  import opened ActorReplies

  // --- Commands and their requests ---

  predicate IsRequest(cmd: NetworkCommand) {
    cmd.Listen? || cmd.ListenViaRelay?
  }

  function RequestOf(e: Exchange): seq<NetworkCommand> {
    if IsRequest(e.cmd) then [e.cmd] else []
  }

  /** The finished listen and relay commands. */
  function Finished(exchanges: seq<Exchange>): seq<NetworkCommand> {
    FlatMap(RequestOf, exchanges)
  }

  /** The number of the request that exchange k finished: requests are made and finished one by one. */
  function TokenAt(exchanges: seq<Exchange>, k: nat): Token
    requires k <= |exchanges|
  {
    |Finished(exchanges[..k])|
  }

  function ReplyTo(answer: Result<Address, Refusal>): NetworkReply {
    match answer
    case Ok(addr) => ListenSuccess(addr)
    case Err(reason) => Failure(reason)
  }

  /** A listen or relay command was replied to with the answer to its own request; no other
      command succeeds or fails like one. */
  predicate RepliedOwn(v: View, k: nat)
    requires k < |v.exchanges|
  {
    var e, t := v.exchanges[k], TokenAt(v.exchanges, k);
    if IsRequest(e.cmd) then
      t < |v.requests| && v.requests[t] == e.cmd && t in v.mailbox && e.reply == ReplyTo(v.mailbox[t])
    else !e.reply.ListenSuccess? && !e.reply.Failure?
  }

  /** A positive answer was granted, with its address. */
  ghost predicate Granted(v: View, t: Token)
    requires t in v.mailbox && v.mailbox[t].Ok?
  {
    exists i :: 0 <= i < |v.grants| && v.grants[i].token == t && v.grants[i].addr == v.mailbox[t].value
  }

  function WaitingFor(v: View): seq<NetworkCommand> {
    if v.waiting.Some? && v.waiting.value < |v.requests| then [v.requests[v.waiting.value]] else []
  }

  ghost predicate RequestsFinished(v: View) {
    && v.requests == Finished(v.exchanges) + WaitingFor(v)
    && (forall t :: 0 <= t < |v.requests| ==> IsRequest(v.requests[t]))
  }

  ghost predicate AllRepliedOwn(v: View) {
    forall k :: 0 <= k < |v.exchanges| ==> RepliedOwn(v, k)
  }

  ghost predicate AllGranted(v: View) {
    && (forall t :: t in v.mailbox && v.mailbox[t].Ok? ==> Granted(v, t))
    && (forall i, j :: 0 <= i < j < |v.grants| ==> v.grants[i].token < v.grants[j].token)
  }

  ghost predicate WellAnswered(v: View) {
    RequestsFinished(v) && AllRepliedOwn(v) && AllGranted(v)
  }

  // --- Every step keeps it ---

  /** What was replied stays an own answer when requests and answers only grow. */
  lemma RepliedOwnStays(v: View, v': View, k: nat)
    requires k < |v.exchanges| && RepliedOwn(v, k)
    requires v.exchanges <= v'.exchanges && v.requests <= v'.requests
    requires forall t :: t in v.mailbox ==> t in v'.mailbox && v'.mailbox[t] == v.mailbox[t]
    ensures RepliedOwn(v', k)
  {
    assert v'.exchanges[..k] == v.exchanges[..k];
  }

  lemma AllRepliedOwnStays(v: View, v': View)
    requires AllRepliedOwn(v) && v'.exchanges == v.exchanges && v.requests <= v'.requests
    requires forall t :: t in v.mailbox ==> t in v'.mailbox && v'.mailbox[t] == v.mailbox[t]
    ensures AllRepliedOwn(v')
  {
    forall k | 0 <= k < |v'.exchanges|
      ensures RepliedOwn(v', k)
    {
      RepliedOwnStays(v, v', k);
    }
  }

  lemma NewExchangeOwn(v: View, v': View, e: Exchange)
    requires AllRepliedOwn(v) && v'.exchanges == v.exchanges + [e]
    requires v'.requests == v.requests && v'.mailbox == v.mailbox
    requires RepliedOwn(v', |v.exchanges|)
    ensures AllRepliedOwn(v')
  {
    hide Finished;
    forall k | 0 <= k < |v'.exchanges|
      ensures RepliedOwn(v', k)
    {
      if k < |v.exchanges| {
        RepliedOwnStays(v, v', k);
      }
    }
  }

  /** Nothing about requests and answers changes. */
  predicate SameAnswers(v: View, v': View) {
    && v'.requests == v.requests && v'.exchanges == v.exchanges && v'.waiting == v.waiting
    && v'.mailbox == v.mailbox && v'.grants == v.grants
  }

  lemma SameDelivered(v: View, v': View)
    requires WellAnswered(v) && SameAnswers(v, v')
    ensures WellAnswered(v')
  {
    hide RepliedOwn;
    AllRepliedOwnStays(v, v');
    assert forall t :: t in v.mailbox && v.mailbox[t].Ok? && Granted(v, t) ==> Granted(v', t);
  }

  lemma RequestDelivered(v: View, v': View, cmd: NetworkCommand)
    requires WellAnswered(v) && v.waiting == None && IsRequest(cmd)
    requires v'.requests == v.requests + [cmd] && v'.waiting == Some(|v.requests|)
    requires v'.exchanges == v.exchanges && v'.mailbox == v.mailbox && v'.grants == v.grants
    ensures WellAnswered(v')
  {
    AllRepliedOwnStays(v, v');
    hide RepliedOwn, AllRepliedOwn, Finished;
    assert forall t :: t in v.mailbox && v.mailbox[t].Ok? && Granted(v, t) ==> Granted(v', t);
  }

  /** A command that is finished at once. */
  lemma FinishedAtOnceDelivered(v: View, v': View, e: Exchange)
    requires WellAnswered(v) && !IsRequest(e.cmd) && !e.reply.ListenSuccess? && !e.reply.Failure?
    requires v'.exchanges == v.exchanges + [e]
    requires v'.requests == v.requests && v'.waiting == v.waiting && v'.mailbox == v.mailbox && v'.grants == v.grants
    ensures WellAnswered(v')
  {
    FlatMapSnoc(RequestOf, v.exchanges, e);
    NewExchangeOwn(v, v', e);
    hide RepliedOwn, AllRepliedOwn;
    assert Finished(v'.exchanges) == Finished(v.exchanges);
    assert forall t :: t in v.mailbox && v.mailbox[t].Ok? && Granted(v, t) ==> Granted(v', t);
  }

  /** A waiting command is finished with the answer to the request it waits for. */
  lemma ResumedDelivered(v: View, v': View, reply: NetworkReply)
    requires WellAnswered(v) && v.waiting.Some? && v.waiting.value + 1 == |v.requests| && v.waiting.value in v.mailbox
    requires reply == ReplyTo(v.mailbox[v.waiting.value])
    requires v'.exchanges == v.exchanges + [Exchange(v.requests[v.waiting.value], reply)] && v'.waiting == None
    requires v'.requests == v.requests && v'.mailbox == v.mailbox && v'.grants == v.grants
    ensures WellAnswered(v')
  {
    var e := Exchange(v.requests[v.waiting.value], reply);
    FlatMapSnoc(RequestOf, v.exchanges, e);
    assert v'.exchanges[..|v.exchanges|] == v.exchanges;
    NewExchangeOwn(v, v', e);
    hide RepliedOwn, AllRepliedOwn;
    assert forall t :: t in v.mailbox && v.mailbox[t].Ok? && Granted(v, t) ==> Granted(v', t);
  }

  lemma RefusedDelivered(v: View, v': View, token: Token, reason: Refusal)
    requires WellAnswered(v) && token !in v.mailbox
    requires v'.mailbox == v.mailbox[token := Err(reason)]
    requires v'.requests == v.requests && v'.exchanges == v.exchanges && v'.waiting == v.waiting
    requires v'.grants == v.grants
    ensures WellAnswered(v')
  {
    AllRepliedOwnStays(v, v');
    hide RepliedOwn, AllRepliedOwn, Finished;
    assert forall t :: t in v.mailbox && v.mailbox[t].Ok? && Granted(v, t) ==> Granted(v', t);
  }

  lemma GrantedDelivered(v: View, v': View, g: Grant)
    requires WellAnswered(v) && g.token !in v.mailbox && g.token + 1 == |v.requests|
    requires forall t :: t in v.mailbox ==> t < |v.requests|
    requires forall i :: 0 <= i < |v.grants| ==> v.grants[i].token in v.mailbox
    requires v'.mailbox == v.mailbox[g.token := Ok(g.addr)] && v'.grants == v.grants + [g]
    requires v'.requests == v.requests && v'.exchanges == v.exchanges && v'.waiting == v.waiting
    ensures WellAnswered(v')
  {
    AllRepliedOwnStays(v, v');
    hide RepliedOwn, AllRepliedOwn, Finished;
    forall t | t in v'.mailbox && v'.mailbox[t].Ok?
      ensures Granted(v', t)
    {
      if t == g.token {
        assert v'.grants[|v.grants|] == g;
      } else {
        assert Granted(v, t);
        var i :| 0 <= i < |v.grants| && v.grants[i].token == t && v.grants[i].addr == v.mailbox[t].value;
        assert v'.grants[i] == v.grants[i];
      }
    }
  }

  lemma IssueDelivered(cfg: Config, s: State, cmd: NetworkCommand)
    requires WellAnswered(ViewOf(s)) && s.waiting == None
    ensures WellAnswered(ViewOf(IssueCommand(cfg, s, cmd)))
  {
    hide TranslateAddress, RequestsIn, WellAnswered;
    var s' := IssueCommand(cfg, s, cmd);
    match cmd {
      case SendMessage(_, _) => FinishedAtOnceDelivered(ViewOf(s), ViewOf(s'), Exchange(cmd, MessageSent(s.next)));
      case GetLocalAddresses =>
        FinishedAtOnceDelivered(ViewOf(s), ViewOf(s'), Exchange(cmd, LocalAddresses(s.localAddrs)));
      case _ => RequestDelivered(ViewOf(s), ViewOf(s'), cmd);
    }
  }

  lemma ResumeDelivered(s: State)
    requires WellAnswered(ViewOf(s)) && Owned(ViewOf(s)) && Enabled(s, Resume)
    ensures WellAnswered(ViewOf(ResumeCommand(s)))
  {
    hide RequestsIn, WellAnswered, LiveSenders;
    assert s.waiting.value in s.mailbox;
    ResumedDelivered(ViewOf(s), ViewOf(ResumeCommand(s)), ReplyTo(s.mailbox[s.waiting.value]));
  }

  lemma RunCommandDelivered(cfg: Config, s: State, listenOk: bool, dialOk: bool, outcome: MessageId -> Outcome)
    requires s.commands != [] && Owned(ViewOf(s)) && WellAnswered(ViewOf(s))
    ensures var s1 := s.(commands := s.commands[1..]);
            WellAnswered(ViewOf(RunCommand(cfg, s1, s.commands[0], listenOk, dialOk, outcome)))
  {
    var s1 := s.(commands := s.commands[1..]);
    var v, v' := ViewOf(s), ViewOf(RunCommand(cfg, s1, s.commands[0], listenOk, dialOk, outcome));
    RequestsInHead(s.commands);
    if !s.commands[0].Send? {
      HeadIsSoleSender(v);
    }
    hide RequestsIn, Owned, DoSend, WellAnswered;
    match s.commands[0] {
      case Send(id, addr, msg) =>
        DoSendView(cfg, s1, Item(id, msg), addr, dialOk, outcome);
        SameDelivered(v, v');
      case Listen(addr, token) =>
        if cfg.parse(addr) == None || !listenOk {
          RefusedDelivered(v, v', token, if cfg.parse(addr) == None then InvalidAddress else ListenRejected);
        } else {
          SameDelivered(v, v');
        }
      case ListenViaRelay(relayAddr, token) =>
        if cfg.parse(relayAddr) == None || !dialOk {
          RefusedDelivered(v, v', token, if cfg.parse(relayAddr) == None then InvalidAddress else DialRejected);
        } else {
          SameDelivered(v, v');
        }
    }
  }

  /** The request that an announcement would answer, if any. */
  function TakenBy(s: State, address: Multiaddr): Option<Token> {
    if Contains(Print(address), CIRCUIT_TEXT) && s.pendingRelay.Some? then Some(s.pendingRelay.value.token)
    else s.pendingListen
  }

  lemma AnnouncementGrants(s: State, address: Multiaddr)
    ensures var s', taker := OnNewListenAddr(s, address), TakenBy(s, address);
            && s'.requests == s.requests && s'.exchanges == s.exchanges && s'.waiting == s.waiting
            && s'.listenLog == s.listenLog + [Print(address)]
            && if taker == None then s'.mailbox == s.mailbox && s'.grants == s.grants
               else
                 && |s'.grants| == |s.grants| + 1 && s'.grants[..|s.grants|] == s.grants
                 && var g := s'.grants[|s.grants|];
                    && g.token == taker.value && g.addr == Print(address) && g.at == |s.listenLog|
                    && s'.mailbox == s.mailbox[g.token := Ok(g.addr)]
  {
    hide Print, Contains;
  }

  lemma AnnouncementDelivered(s: State, address: Multiaddr)
    requires Owned(ViewOf(s)) && GrantsSound(ViewOf(s)) && WellAnswered(ViewOf(s))
    ensures WellAnswered(ViewOf(OnNewListenAddr(s, address)))
  {
    var v, v' := ViewOf(s), ViewOf(OnNewListenAddr(s, address));
    AnnouncementGrants(s, address);
    SlotIsSoleSender(v);
    GrantsAnswered(v);
    assert forall t: Token :: t in v.mailbox ==> t < |v.requests|;
    hide OnNewListenAddr, Owned, GrantsSound, WellAnswered, RequestsIn, Print, Contains;
    if TakenBy(s, address) == None {
      SameDelivered(v, v');
    } else {
      var g := v'.grants[|v.grants|];
      assert v'.grants == v.grants + [g];
      GrantedDelivered(v, v', g);
    }
  }

  lemma GrantsAnswered(v: View)
    requires GrantsSound(v)
    ensures forall i :: 0 <= i < |v.grants| ==> v.grants[i].token in v.mailbox
  {
    hide FirstEligible;
    assert forall i :: 0 <= i < |v.grants| ==> GrantTyped(v, v.grants[i]);
  }

  lemma NextDelivered(cfg: Config, s: State, l: Label)
    requires Sound(cfg, ViewOf(s)) && WellAnswered(ViewOf(s))
    ensures WellAnswered(ViewOf(Next(cfg, s, l)))
  {
    hide Owned, Typed, GrantsSound, SlotsSound, AddrsSound, RepliesSound, CircuitsSound, WellAnswered,
         IssueCommand, ResumeCommand, RunCommand, OnNewListenAddr, RequestsIn, AttemptsOf, FailuresOf, LastPeer;
    if Enabled(s, l) {
      match l {
        case Issue(cmd) => IssueDelivered(cfg, s, cmd);
        case Resume => ResumeDelivered(s);
        case Dequeue(listenOk, dialOk, outcome) => RunCommandDelivered(cfg, s, listenOk, dialOk, outcome);
        case NewListenAddr(address, _) => AnnouncementDelivered(s, address);
        case _ => SameDelivered(ViewOf(s), ViewOf(Step(cfg, s, l)));
      }
    }
  }

  lemma InitDelivered()
    ensures WellAnswered(ViewOf(Init()))
  {
  }

  lemma {:induction false} RunDelivered(cfg: Config, labels: seq<Label>)
    ensures WellAnswered(ViewOf(Run(cfg, labels)))
  {
    hide Sound, Next, ViewOf, WellAnswered;
    InitDelivered();
    if labels != [] {
      RunSound(cfg, labels[..|labels| - 1]);
      RunDelivered(cfg, labels[..|labels| - 1]);
      NextDelivered(cfg, Run(cfg, labels[..|labels| - 1]), labels[|labels| - 1]);
    }
  }

  // --- What follows for every run ---

  /** Every listen and relay command is replied to with the one answer given to its own request;
      no other command gets a success or failure reply. */
  lemma {:induction false} EveryReplyIsItsOwn(cfg: Config, labels: seq<Label>, k: nat)
    ensures var s := Run(cfg, labels);
            k < |s.exchanges| ==>
              var e, t := s.exchanges[k], TokenAt(s.exchanges, k);
              if IsRequest(e.cmd) then
                t < |s.requests| && s.requests[t] == e.cmd && t in s.mailbox && e.reply == ReplyTo(s.mailbox[t])
              else !e.reply.ListenSuccess? && !e.reply.Failure?
  {
    RunDelivered(cfg, labels);
    var s := Run(cfg, labels);
    hide Run, RequestsFinished, AllGranted, Finished;
    assert k < |s.exchanges| ==> RepliedOwn(ViewOf(s), k);
  }

  /** Grant i is the answer that the success at exchange k reports: it was given to that very
      request, and to the first announcement eligible for it after it was parked. */
  ghost predicate GrantFor(s: State, k: nat, i: nat)
    requires k < |s.exchanges| && s.exchanges[k].reply.ListenSuccess? && i < |s.grants|
  {
    var e, g := s.exchanges[k], s.grants[i];
    && g.token == TokenAt(s.exchanges, k)
    && g.addr == e.reply.addr
    && (g.viaRelay <==> e.cmd.ListenViaRelay?)
    && FirstEligible(s.listenLog, g)
  }

  /** Provenance of every success: the address in the reply is the first announcement, after the
      command's own request was parked, that is eligible for its kind of request. */
  lemma {:induction false} EverySuccessIsFirstEligible(cfg: Config, labels: seq<Label>, k: nat)
    ensures var s := Run(cfg, labels);
            k < |s.exchanges| && s.exchanges[k].reply.ListenSuccess? ==>
              exists i :: 0 <= i < |s.grants| && GrantFor(s, k, i)
  {
    RunSound(cfg, labels);
    RunDelivered(cfg, labels);
    EveryReplyIsItsOwn(cfg, labels, k);
    var s := Run(cfg, labels);
    hide Run, Owned, Typed, SlotsSound, RepliesSound, CircuitsSound, AddrsSound, FirstEligible,
         RequestsFinished, AllRepliedOwn, TokenAt;
    if k < |s.exchanges| && s.exchanges[k].reply.ListenSuccess? {
      var t := TokenAt(s.exchanges, k);
      assert Granted(ViewOf(s), t);
      var i :| 0 <= i < |s.grants| && s.grants[i].token == t && s.grants[i].addr == s.mailbox[t].value;
      assert GrantTyped(ViewOf(s), s.grants[i]);
      assert GrantFor(s, k, i);
    }
  }

  lemma TokensGrow(exchanges: seq<Exchange>, k: nat, k': nat)
    requires k < k' <= |exchanges| && IsRequest(exchanges[k].cmd)
    ensures TokenAt(exchanges, k) < TokenAt(exchanges, k')
  {
    FlatMapSnoc(RequestOf, exchanges[..k], exchanges[k]);
    assert exchanges[..k] + [exchanges[k]] == exchanges[..k + 1];
    FlatMapConcat(RequestOf, exchanges[..k + 1], exchanges[k + 1..k']);
    assert exchanges[..k + 1] + exchanges[k + 1..k'] == exchanges[..k'];
    hide FlatMap;
  }

  /** Two successes never report the same announcement: the later one's was made after its request
      was parked, and that was after the earlier one's. */
  lemma {:induction false} SuccessesInOrder(cfg: Config, labels: seq<Label>, k: nat, i: nat, k': nat, i': nat)
    requires var s := Run(cfg, labels);
             && k < k' < |s.exchanges| && s.exchanges[k].reply.ListenSuccess? && s.exchanges[k'].reply.ListenSuccess?
             && i < |s.grants| && i' < |s.grants| && GrantFor(s, k, i) && GrantFor(s, k', i')
    ensures Run(cfg, labels).grants[i].at < Run(cfg, labels).grants[i'].parkedAt
  {
    RunSound(cfg, labels);
    RunDelivered(cfg, labels);
    EveryReplyIsItsOwn(cfg, labels, k);
    var s := Run(cfg, labels);
    TokensGrow(s.exchanges, k, k');
    hide Run, Owned, Typed, SlotsSound, RepliesSound, CircuitsSound, AddrsSound, FirstEligible,
         RequestsFinished, AllRepliedOwn, TokenAt, Granted, GrantTyped;
  }

  /** The relay handshake: a circuit listen is made for a relay request, on that request's own
      address plus the circuit hop, when its last peer has connected. The request was parked
      before; either it still waits in its slot, or a circuit address announced after the
      circuit listen has answered it. */
  lemma {:induction false} RelayHandshake(cfg: Config, labels: seq<Label>, k: nat)
    ensures var s := Run(cfg, labels);
            k < |s.circuitListens| ==>
              var c := s.circuitListens[k];
              && c.token < |s.requests|
              && s.requests[c.token] == NetworkCommand.ListenViaRelay(c.relayAddr)
              && cfg.parse(c.relayAddr).Some?
              && LastPeer(cfg.parse(c.relayAddr).value) == Some(c.peer)
              && c.arg == cfg.parse(c.relayAddr).value + [P2pCircuit]
              && c.logged <= |s.listenLog|
              && (|| (s.pendingRelay == Some(RelayRequest(c.relayAddr, c.token)) && s.since <= c.logged)
                  || exists i :: 0 <= i < |s.grants| && AnsweredAfter(s, c, s.grants[i]))
  {
    RunSound(cfg, labels);
    RunDelivered(cfg, labels);
    var s := Run(cfg, labels);
    hide Run, Owned, SlotsSound, AddrsSound, RepliesSound, LastPeer, FirstEligible, RequestsFinished, AllRepliedOwn;
    if k < |s.circuitListens| {
      var c := s.circuitListens[k];
      assert CircuitSound(cfg, ViewOf(s), c);
      if c.token in s.mailbox && s.mailbox[c.token].Ok? {
        assert Granted(ViewOf(s), c.token);
        var i :| 0 <= i < |s.grants| && s.grants[i].token == c.token && s.grants[i].addr == s.mailbox[c.token].value;
        assert GrantTyped(ViewOf(s), s.grants[i]) && FirstEligible(s.listenLog, s.grants[i]);
        assert AnsweredAfter(s, c, s.grants[i]);
      }
    }
  }

  /** The grant answers the request of the circuit listen, which was made between the parking of
      the request and the announcement. */
  ghost predicate AnsweredAfter(s: State, c: CircuitListen, g: Grant) {
    g.token == c.token && g.viaRelay && FirstEligible(s.listenLog, g) && g.parkedAt <= c.logged <= g.at
  }

  /** Relay requests succeed with circuit addresses only. */
  lemma {:induction false} RelaySuccessIsCircuit(cfg: Config, labels: seq<Label>, k: nat)
    ensures var s := Run(cfg, labels);
            k < |s.exchanges| && s.exchanges[k].cmd.ListenViaRelay? && s.exchanges[k].reply.ListenSuccess? ==>
              Contains(s.exchanges[k].reply.addr, "/p2p-circuit")
  {
    RunSound(cfg, labels);
    var s := Run(cfg, labels);
    hide Run, Owned, Typed, SlotsSound, GrantsSound, AddrsSound, CircuitsSound, Contains;
    assert k < |s.exchanges| ==> ReplySound(s.exchanges[k]);
  }
}
