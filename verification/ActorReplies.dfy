/** What every run of the actor keeps about listen and relay requests: who owns a reply
    sender, which announced address answers which request, and when a circuit is listened on. */
module ActorReplies {
  import opened Types
  import opened Collections
  import opened Addresses
  import opened ActorModel
  import opened ActorSteps

  // --- View and ownership of reply senders ---

  /** The part of a state that listen and relay requests concern. */
  datatype View = View(
    localAddrs: seq<Address>, waiting: Option<Token>,
    commands: seq<SwarmCommand>,          // the requests in the channel
    mailbox: map<Token, Result<Address, Refusal>>,
    pendingListen: Option<Token>, pendingRelay: Option<RelayRequest>,
    requests: seq<NetworkCommand>, exchanges: seq<Exchange>, answers: seq<Token>, dropped: seq<Token>,
    listenLog: seq<Address>, since: nat, grants: seq<Grant>, circuitListens: seq<CircuitListen>)

  function ViewOf(s: State): View {
    View(s.localAddrs, s.waiting, RequestsIn(s.commands), s.mailbox, s.pendingListen, s.pendingRelay,
         s.requests, s.exchanges, s.answers, s.dropped, s.listenLog, s.since, s.grants, s.circuitListens)
  }

  function RequestIn(cmd: SwarmCommand): seq<SwarmCommand> {
    if cmd.Send? then [] else [cmd]
  }

  function RequestsIn(commands: seq<SwarmCommand>): seq<SwarmCommand> {
    FlatMap(RequestIn, commands)
  }

  function CommandToken(cmd: SwarmCommand): seq<Token> {
    if cmd.Send? then [] else [cmd.token]
  }

  function CommandTokens(commands: seq<SwarmCommand>): seq<Token> {
    FlatMap(CommandToken, commands)
  }

  /** The reply senders that can still answer: in the channel or in one of the two slots. */
  function LiveSenders(v: View): multiset<Token> {
    multiset(CommandTokens(v.commands)) + multiset(ListenSlot(v.pendingListen)) + multiset(RelaySlot(v.pendingRelay))
  }

  /** The front end waits for an answer that has not been given. */
  predicate Unanswered(v: View) {
    v.waiting.Some? && v.waiting.value !in v.mailbox
  }

  ghost predicate Owned(v: View) {
    && v.dropped == []
    && (v.waiting.Some? ==> v.waiting.value + 1 == |v.requests|)
    && LiveSenders(v) == (if Unanswered(v) then multiset{v.waiting.value} else multiset{})
    && (forall t :: t in v.mailbox || (v.waiting.Some? && v.waiting.value == t) <==> 0 <= t < |v.requests|)
    && (forall t :: multiset(v.answers)[t] == if t in v.mailbox then 1 else 0)
  }

  /** Tokens stand for the requests they were made for. */
  ghost predicate Typed(v: View) {
    && (forall i :: 0 <= i < |v.commands| ==> CommandTyped(v.requests, v.commands[i]))
    && (v.pendingListen.Some? ==> v.pendingListen.value < |v.requests| && v.requests[v.pendingListen.value].Listen?)
    && (v.pendingRelay.Some? ==>
          && v.pendingRelay.value.token < |v.requests|
          && v.requests[v.pendingRelay.value.token] == NetworkCommand.ListenViaRelay(v.pendingRelay.value.relayAddr))
  }

  predicate CommandTyped(requests: seq<NetworkCommand>, cmd: SwarmCommand) {
    match cmd
    case Send(_, _, _) => true
    case Listen(addr, token) => token < |requests| && requests[token] == NetworkCommand.Listen(addr)
    case ListenViaRelay(relayAddr, token) =>
      token < |requests| && requests[token] == NetworkCommand.ListenViaRelay(relayAddr)
  }

  /** If the head of the channel carries a reply sender, it is the only live one. */
  lemma HeadIsSoleSender(v: View)
    requires Owned(v) && v.commands != [] && !v.commands[0].Send?
    ensures Unanswered(v) && v.waiting.value == v.commands[0].token
    ensures CommandTokens(v.commands[1..]) == [] && v.pendingListen == None && v.pendingRelay == None
  {
    SoleSender(v.commands[0].token, CommandTokens(v.commands[1..]),
               ListenSlot(v.pendingListen), RelaySlot(v.pendingRelay), v);
  }

  lemma SoleSender(token: Token, rest: seq<Token>, listen: seq<Token>, relay: seq<Token>, v: View)
    requires multiset([token] + rest) + multiset(listen) + multiset(relay) ==
             if Unanswered(v) then multiset{v.waiting.value} else multiset{}
    ensures Unanswered(v) && v.waiting.value == token && rest == [] && listen == [] && relay == []
  {
    var all := multiset([token] + rest) + multiset(listen) + multiset(relay);
    assert token in all;
    assert |all| == 1 + |rest| + |listen| + |relay|;
  }

  lemma SlotIsSoleSender(v: View)
    requires Owned(v)
    ensures v.pendingListen.Some? ==>
              && Unanswered(v) && v.waiting.value == v.pendingListen.value
              && CommandTokens(v.commands) == [] && v.pendingRelay == None
    ensures v.pendingRelay.Some? ==>
              && Unanswered(v) && v.waiting.value == v.pendingRelay.value.token
              && CommandTokens(v.commands) == [] && v.pendingListen == None
  {
    var tokens := CommandTokens(v.commands);
    if v.pendingListen.Some? {
      assert [v.pendingListen.value] + [] == ListenSlot(v.pendingListen);
      SoleSender(v.pendingListen.value, [], tokens, RelaySlot(v.pendingRelay), v);
    }
    if v.pendingRelay.Some? {
      assert [v.pendingRelay.value.token] + [] == RelaySlot(v.pendingRelay);
      SoleSender(v.pendingRelay.value.token, [], tokens, ListenSlot(v.pendingListen), v);
    }
  }

  // --- Which announcement answers which request ---

  predicate CircuitAddress(addr: Address) {
    Contains(addr, "/p2p-circuit")
  }

  /** The answer that waits for the front end to resume. */
  function InFlight(v: View): seq<Address> {
    if v.waiting.Some? && v.waiting.value in v.mailbox && v.mailbox[v.waiting.value].Ok?
    then [v.mailbox[v.waiting.value].value] else []
  }

  function SuccessAddr(e: Exchange): seq<Address> {
    if e.reply.ListenSuccess? then [e.reply.addr] else []
  }

  /** The addresses of the successful listen and relay commands. */
  function SuccessAddrs(exchanges: seq<Exchange>): seq<Address> {
    FlatMap(SuccessAddr, exchanges)
  }

  /** The address is the first one announced after parking that is eligible for the request:
      a relay request takes circuit addresses only, a listen request takes anything. */
  ghost predicate FirstEligible(log: seq<Address>, g: Grant) {
    && g.parkedAt <= g.at < |log|
    && log[g.at] == g.addr
    && (if g.viaRelay
        then CircuitAddress(g.addr) && forall j :: g.parkedAt <= j < g.at ==> !CircuitAddress(log[j])
        else g.parkedAt == g.at)
  }

  ghost predicate GrantTyped(v: View, g: Grant) {
    && g.token < |v.requests|
    && (if g.viaRelay then v.requests[g.token].ListenViaRelay? else v.requests[g.token].Listen?)
    && g.token in v.mailbox
    && v.mailbox[g.token] == Ok(g.addr)
  }

  ghost predicate GrantsSound(v: View) {
    && (forall i :: 0 <= i < |v.grants| ==> FirstEligible(v.listenLog, v.grants[i]) && GrantTyped(v, v.grants[i]))
    && (forall i, j :: 0 <= i < j < |v.grants| ==> v.grants[i].at < v.grants[j].parkedAt)
  }

  ghost predicate SlotsSound(v: View) {
    && (v.pendingListen.Some? ==> v.since == |v.listenLog|)
    && (v.pendingRelay.Some? ==>
          && v.since <= |v.listenLog|
          && forall j :: v.since <= j < |v.listenLog| ==> !CircuitAddress(v.listenLog[j]))
    && (v.pendingListen.Some? || v.pendingRelay.Some? ==>
          forall i :: 0 <= i < |v.grants| ==> v.grants[i].at < v.since)
  }

  ghost predicate AddrsSound(v: View) {
    && SuccessAddrs(v.exchanges) == v.localAddrs
    && |v.grants| == |v.localAddrs + InFlight(v)|
    && forall i :: 0 <= i < |v.grants| ==> v.grants[i].addr == (v.localAddrs + InFlight(v))[i]
  }

  ghost predicate RepliesSound(v: View) {
    && (forall i :: 0 <= i < |v.exchanges| ==> ReplySound(v.exchanges[i]))
    && (forall t :: t in v.mailbox && v.mailbox[t].Err? ==> v.mailbox[t].error != EventLoopDropped)
    && (forall t :: t in v.mailbox && t < |v.requests| && v.mailbox[t].Ok? && v.requests[t].ListenViaRelay? ==>
          CircuitAddress(v.mailbox[t].value))
  }

  /** No request fails for want of a sender, and relay requests succeed with circuit addresses only. */
  predicate ReplySound(e: Exchange) {
    && (e.reply.Failure? ==> e.reply.reason != EventLoopDropped)
    && (e.cmd.ListenViaRelay? && e.reply.ListenSuccess? ==> CircuitAddress(e.reply.addr))
  }

  // --- The relay handshake ---

  ghost predicate CircuitSound(cfg: Config, v: View, c: CircuitListen) {
    && c.token < |v.requests|
    && v.requests[c.token] == NetworkCommand.ListenViaRelay(c.relayAddr)
    && cfg.parse(c.relayAddr).Some?
    && LastPeer(cfg.parse(c.relayAddr).value) == Some(c.peer)
    && c.arg == cfg.parse(c.relayAddr).value + [P2pCircuit]
    && c.logged <= |v.listenLog|
    && ((c.token in v.mailbox && v.mailbox[c.token].Ok?) ||
        (v.pendingRelay.Some? && v.pendingRelay.value.token == c.token && v.since <= c.logged))
    && (forall i :: 0 <= i < |v.grants| && v.grants[i].token == c.token ==>
          v.grants[i].parkedAt <= c.logged <= v.grants[i].at)
  }

  ghost predicate CircuitsSound(cfg: Config, v: View) {
    forall k :: 0 <= k < |v.circuitListens| ==> CircuitSound(cfg, v, v.circuitListens[k])
  }

  ghost predicate Sound(cfg: Config, v: View) {
    && Owned(v) && Typed(v)
    && GrantsSound(v) && SlotsSound(v) && AddrsSound(v) && RepliesSound(v)
    && CircuitsSound(cfg, v)
  }

  // --- Every step keeps it ---

  /** A new listen or relay request. */
  lemma RequestKeepsOwners(v: View, cmd: NetworkCommand, request: SwarmCommand)
    requires Owned(v) && v.waiting == None && !request.Send? && request.token == |v.requests|
    ensures Owned(v.(commands := v.commands + [request], waiting := Some(|v.requests|), requests := v.requests + [cmd]))
  {
    FlatMapSnoc(CommandToken, v.commands, request);
  }

  lemma RequestSound(cfg: Config, v: View, cmd: NetworkCommand, request: SwarmCommand)
    requires Sound(cfg, v) && v.waiting == None && !request.Send? && request.token == |v.requests|
    requires CommandTyped(v.requests + [cmd], request)
    ensures Sound(cfg, v.(commands := v.commands + [request], waiting := Some(|v.requests|),
                          requests := v.requests + [cmd]))
  {
    RequestKeepsOwners(v, cmd, request);
    RequestKeepsRest(cfg, v, cmd, request);
  }

  lemma RequestKeepsRest(cfg: Config, v: View, cmd: NetworkCommand, request: SwarmCommand)
    requires Sound(cfg, v) && v.waiting == None && !request.Send? && request.token == |v.requests|
    requires CommandTyped(v.requests + [cmd], request)
    ensures var v' := v.(commands := v.commands + [request], waiting := Some(|v.requests|),
                         requests := v.requests + [cmd]);
            && Typed(v') && GrantsSound(v') && SlotsSound(v') && AddrsSound(v') && RepliesSound(v')
            && CircuitsSound(cfg, v')
  {
    hide CircuitAddress, FirstEligible, LastPeer, SuccessAddrs;
    assert forall t :: 0 <= t < |v.requests| ==> (v.requests + [cmd])[t] == v.requests[t];
  }

  /** A command that is finished at once. */
  lemma ExchangeSound(cfg: Config, v: View, e: Exchange)
    requires Sound(cfg, v) && !e.reply.ListenSuccess? && !e.reply.Failure?
    ensures Sound(cfg, v.(exchanges := v.exchanges + [e]))
  {
    hide Owned, Typed, GrantsSound, SlotsSound, AddrsSound, RepliesSound, CircuitsSound;
    ExchangeKeepsReplies(v, e);
    ExchangeKeepsOwners(v, e);
    ExchangeKeepsRest(cfg, v, e);
  }

  lemma ExchangeKeepsReplies(v: View, e: Exchange)
    requires AddrsSound(v) && RepliesSound(v) && !e.reply.ListenSuccess? && !e.reply.Failure?
    ensures var v' := v.(exchanges := v.exchanges + [e]); AddrsSound(v') && RepliesSound(v')
  {
    hide CircuitAddress;
    FlatMapSnoc(SuccessAddr, v.exchanges, e);
  }

  lemma ExchangeKeepsOwners(v: View, e: Exchange)
    requires Owned(v) && Typed(v)
    ensures var v' := v.(exchanges := v.exchanges + [e]); Owned(v') && Typed(v')
  {
    hide CommandTokens, CommandTyped;
  }

  lemma ExchangeKeepsRest(cfg: Config, v: View, e: Exchange)
    requires GrantsSound(v) && SlotsSound(v) && CircuitsSound(cfg, v)
    ensures var v' := v.(exchanges := v.exchanges + [e]);
            GrantsSound(v') && SlotsSound(v') && CircuitsSound(cfg, v')
  {
    hide CircuitAddress, FirstEligible, LastPeer;
  }

  lemma IssueSound(cfg: Config, s: State, cmd: NetworkCommand)
    requires Sound(cfg, ViewOf(s)) && s.waiting == None
    ensures Sound(cfg, ViewOf(IssueCommand(cfg, s, cmd)))
  {
    hide Sound, TranslateAddress;
    var s' := IssueCommand(cfg, s, cmd);
    var v := ViewOf(s);
    match cmd {
      case SendMessage(addr, msg) =>
        var send := s'.commands[|s.commands|];
        FlatMapSnoc(RequestIn, s.commands, send);
        assert RequestsIn(s'.commands) == RequestsIn(s.commands);
        ExchangeSound(cfg, v, Exchange(cmd, MessageSent(s.next)));
      case GetLocalAddresses => ExchangeSound(cfg, v, Exchange(cmd, LocalAddresses(s.localAddrs)));
      case _ =>
        var request := s'.commands[|s.commands|];
        FlatMapSnoc(RequestIn, s.commands, request);
        RequestSound(cfg, v, cmd, request);
    }
  }

  lemma ResumeKeepsReplies(v: View, reply: NetworkReply, addrs: seq<Address>)
    requires Owned(v) && AddrsSound(v) && RepliesSound(v) && v.waiting.Some? && v.waiting.value in v.mailbox
    requires match v.mailbox[v.waiting.value]
             case Ok(addr) => reply == ListenSuccess(addr) && addrs == v.localAddrs + [addr]
             case Err(reason) => reply == Failure(reason) && addrs == v.localAddrs
    ensures var v' := v.(waiting := None, localAddrs := addrs,
                         exchanges := v.exchanges + [Exchange(v.requests[v.waiting.value], reply)]);
            AddrsSound(v') && RepliesSound(v')
  {
    hide CircuitAddress;
    FlatMapSnoc(SuccessAddr, v.exchanges, Exchange(v.requests[v.waiting.value], reply));
  }

  lemma ResumeSound(cfg: Config, s: State)
    requires Sound(cfg, ViewOf(s)) && Enabled(s, Resume)
    ensures Sound(cfg, ViewOf(ResumeCommand(s)))
  {
    hide CircuitAddress, FirstEligible, RequestsIn, LastPeer, SuccessAddrs;
    var v, s' := ViewOf(s), ResumeCommand(s);
    assert s.waiting.value in s.mailbox;
    ResumeKeepsReplies(v, s'.exchanges[|s.exchanges|].reply, s'.localAddrs);
    hide AddrsSound, RepliesSound;
  }

  lemma RequestsInHead(commands: seq<SwarmCommand>)
    requires commands != []
    ensures if commands[0].Send? then RequestsIn(commands) == RequestsIn(commands[1..])
            else RequestsIn(commands) == [commands[0]] + RequestsIn(commands[1..])
  {
  }

  lemma DoSendView(cfg: Config, s: State, item: Item, addr: Address, dialOk: bool, outcome: MessageId -> Outcome)
    ensures ViewOf(DoSend(cfg, s, item, addr, dialOk, outcome)) == ViewOf(s)
  {
    hide LastPeer, AttemptsOf, FailuresOf, Ids, RequestsIn;
  }

  /** The request at the head of the channel is refused. */
  ghost function Refused(v: View, reason: Refusal): View
    requires v.commands != [] && !v.commands[0].Send?
  {
    var token := v.commands[0].token;
    v.(commands := v.commands[1..], mailbox := v.mailbox[token := Err(reason)], answers := v.answers + [token])
  }

  lemma RefuseKeepsOwners(v: View, reason: Refusal)
    requires v.commands != [] && !v.commands[0].Send? && Owned(v)
    ensures Owned(Refused(v, reason))
  {
    HeadIsSoleSender(v);
  }

  lemma RefuseKeepsRest(cfg: Config, v: View, reason: Refusal)
    requires v.commands != [] && !v.commands[0].Send? && reason != EventLoopDropped
    requires Unanswered(v) && v.waiting.value == v.commands[0].token
    requires v.pendingListen == None && v.pendingRelay == None
    requires Typed(v) && GrantsSound(v) && SlotsSound(v) && AddrsSound(v) && RepliesSound(v) && CircuitsSound(cfg, v)
    ensures var v' := Refused(v, reason);
            && Typed(v') && GrantsSound(v') && SlotsSound(v') && AddrsSound(v') && RepliesSound(v')
            && CircuitsSound(cfg, v')
  {
    hide CircuitAddress, FirstEligible, LastPeer, SuccessAddrs;
  }

  lemma {:induction false} RefuseSound(cfg: Config, v: View, reason: Refusal)
    requires Sound(cfg, v) && v.commands != [] && !v.commands[0].Send? && reason != EventLoopDropped
    ensures Sound(cfg, Refused(v, reason))
  {
    HeadIsSoleSender(v);
    hide Refused, Owned, Typed, GrantsSound, SlotsSound, AddrsSound, RepliesSound, CircuitsSound;
    RefuseKeepsOwners(v, reason);
    RefuseKeepsRest(cfg, v, reason);
  }

  /** The request at the head of the channel moves to its slot. */
  ghost function Parked(v: View): View
    requires v.commands != [] && !v.commands[0].Send?
  {
    var v' := v.(commands := v.commands[1..], since := |v.listenLog|);
    match v.commands[0]
    case Listen(_, token) =>
      v'.(pendingListen := Some(token), dropped := v.dropped + ListenSlot(v.pendingListen))
    case ListenViaRelay(relayAddr, token) =>
      v'.(pendingRelay := Some(RelayRequest(relayAddr, token)), dropped := v.dropped + RelaySlot(v.pendingRelay))
  }

  lemma ParkKeepsOwners(v: View)
    requires v.commands != [] && !v.commands[0].Send? && Owned(v)
    ensures Owned(Parked(v))
  {
    HeadIsSoleSender(v);
  }

  lemma ParkKeepsRest(cfg: Config, v: View)
    requires v.commands != [] && !v.commands[0].Send?
    requires Unanswered(v) && v.waiting.value == v.commands[0].token
    requires v.pendingListen == None && v.pendingRelay == None
    requires Typed(v) && GrantsSound(v) && AddrsSound(v) && RepliesSound(v) && CircuitsSound(cfg, v)
    ensures var v' := Parked(v);
            Typed(v') && GrantsSound(v') && AddrsSound(v') && RepliesSound(v') && CircuitsSound(cfg, v')
  {
    hide CircuitAddress, FirstEligible, LastPeer, SuccessAddrs;
    assert CommandTyped(v.requests, v.commands[0]);
  }

  lemma ParkFillsSlot(v: View)
    requires v.commands != [] && !v.commands[0].Send?
    requires v.pendingListen == None && v.pendingRelay == None
    requires GrantsSound(v)
    ensures SlotsSound(Parked(v))
  {
    hide CircuitAddress;
  }

  lemma {:induction false} ParkSound(cfg: Config, v: View)
    requires Sound(cfg, v) && v.commands != [] && !v.commands[0].Send?
    ensures Sound(cfg, Parked(v))
  {
    HeadIsSoleSender(v);
    hide Parked, Owned, Typed, GrantsSound, SlotsSound, AddrsSound, RepliesSound, CircuitsSound;
    ParkKeepsOwners(v);
    ParkKeepsRest(cfg, v);
    ParkFillsSlot(v);
  }

  lemma RunCommandSound(cfg: Config, s: State, listenOk: bool, dialOk: bool, outcome: MessageId -> Outcome)
    requires Sound(cfg, ViewOf(s)) && s.commands != []
    ensures var s1 := s.(commands := s.commands[1..]);
            Sound(cfg, ViewOf(RunCommand(cfg, s1, s.commands[0], listenOk, dialOk, outcome)))
  {
    hide Sound, DoSend, RequestsIn;
    var s1 := s.(commands := s.commands[1..]);
    RequestsInHead(s.commands);
    assert !s.commands[0].Send? ==> ViewOf(s).commands[1..] == ViewOf(s1).commands;
    match s.commands[0] {
      case Send(id, addr, msg) => DoSendView(cfg, s1, Item(id, msg), addr, dialOk, outcome);
      case Listen(addr, token) =>
        ParkSound(cfg, ViewOf(s));
        RefuseSound(cfg, ViewOf(s), InvalidAddress);
        RefuseSound(cfg, ViewOf(s), ListenRejected);
      case ListenViaRelay(relayAddr, token) =>
        ParkSound(cfg, ViewOf(s));
        RefuseSound(cfg, ViewOf(s), InvalidAddress);
        RefuseSound(cfg, ViewOf(s), DialRejected);
    }
  }

  /** An announcement that answers nothing. */
  ghost function Logged(v: View, addr: Address): View {
    v.(listenLog := v.listenLog + [addr])
  }

  lemma LogKeepsGrants(v: View, addr: Address)
    requires v.pendingListen == None
    requires v.pendingRelay.Some? ==> !CircuitAddress(addr)
    requires GrantsSound(v) && SlotsSound(v)
    ensures GrantsSound(Logged(v, addr)) && SlotsSound(Logged(v, addr))
  {
    hide CircuitAddress;
    forall i | 0 <= i < |v.grants|
      ensures FirstEligible(v.listenLog + [addr], v.grants[i])
    {
      assert FirstEligible(v.listenLog, v.grants[i]);
    }
    hide FirstEligible;
  }

  lemma LogKeepsOwners(v: View, addr: Address)
    requires Owned(v) && Typed(v)
    ensures Owned(Logged(v, addr)) && Typed(Logged(v, addr))
  {
    hide CommandTokens, CommandTyped;
  }

  lemma LogKeepsRest(cfg: Config, v: View, addr: Address)
    requires AddrsSound(v) && RepliesSound(v) && CircuitsSound(cfg, v)
    ensures var v' := Logged(v, addr); AddrsSound(v') && RepliesSound(v') && CircuitsSound(cfg, v')
  {
    hide CircuitAddress, LastPeer, SuccessAddrs, ReplySound;
  }

  lemma {:induction false} LogSound(cfg: Config, v: View, addr: Address)
    requires Sound(cfg, v) && v.pendingListen == None
    requires v.pendingRelay.Some? ==> !CircuitAddress(addr)
    ensures Sound(cfg, Logged(v, addr))
  {
    hide Logged, CircuitAddress, Owned, Typed, GrantsSound, SlotsSound, AddrsSound, RepliesSound, CircuitsSound;
    LogKeepsGrants(v, addr);
    LogKeepsOwners(v, addr);
    LogKeepsRest(cfg, v, addr);
  }

  ghost predicate CanAnswer(v: View, viaRelay: bool, addr: Address) {
    if viaRelay then v.pendingRelay.Some? && CircuitAddress(addr) else v.pendingListen.Some?
  }

  /** The parked request is taken from its slot and answered with the announced address. */
  ghost function Answered(v: View, viaRelay: bool, addr: Address): View
    requires CanAnswer(v, viaRelay, addr)
  {
    var token := if viaRelay then v.pendingRelay.value.token else v.pendingListen.value;
    v.(listenLog := v.listenLog + [addr],
       pendingListen := if viaRelay then v.pendingListen else None,
       pendingRelay := if viaRelay then None else v.pendingRelay,
       mailbox := v.mailbox[token := Ok(addr)],
       answers := v.answers + [token],
       grants := v.grants + [Grant(token, viaRelay, addr, v.since, |v.listenLog|)])
  }

  lemma AnswerKeepsOwners(v: View, viaRelay: bool, addr: Address)
    requires CanAnswer(v, viaRelay, addr) && Owned(v) && Typed(v)
    ensures Owned(Answered(v, viaRelay, addr)) && Typed(Answered(v, viaRelay, addr))
  {
    hide CircuitAddress;
    SlotIsSoleSender(v);
    hide Owned, CommandTokens, CommandTyped;
    AnswerEndsWaiting(v, Answered(v, viaRelay, addr));
  }

  /** Answering the one live sender leaves none, and an answer for it. */
  lemma AnswerEndsWaiting(v: View, v': View)
    requires Owned(v) && Unanswered(v)
    requires v'.waiting == v.waiting && v'.requests == v.requests && v'.dropped == v.dropped
    requires v'.mailbox.Keys == v.mailbox.Keys + {v.waiting.value}
    requires v'.answers == v.answers + [v.waiting.value]
    requires CommandTokens(v'.commands) == [] && v'.pendingListen == None && v'.pendingRelay == None
    ensures Owned(v')
  {
    hide CommandTokens;
    var token := v.waiting.value;
    AnswerCounted(v.answers, v.mailbox.Keys, token, v'.answers, v'.mailbox.Keys);
    assert forall t: Token :: t in v'.mailbox <==> t in v'.mailbox.Keys;
    assert LiveSenders(v') == multiset{};
    hide LiveSenders;
  }

  lemma AnswerCounted(answers: seq<Token>, keys: set<Token>, token: Token, answers': seq<Token>, keys': set<Token>)
    requires forall t :: multiset(answers)[t] == if t in keys then 1 else 0
    requires token !in keys && keys' == keys + {token} && answers' == answers + [token]
    ensures forall t :: multiset(answers')[t] == if t in keys' then 1 else 0
  {
    hide *;
    forall t: Token
      ensures multiset(answers')[t] == if t in keys' then 1 else 0
    {
      CountSnoc(answers, token, answers', t);
    }
  }

  lemma {:induction false} AnswerKeepsGrants(v: View, viaRelay: bool, addr: Address)
    requires CanAnswer(v, viaRelay, addr) && Owned(v) && Typed(v) && GrantsSound(v) && SlotsSound(v)
    ensures GrantsSound(Answered(v, viaRelay, addr)) && SlotsSound(Answered(v, viaRelay, addr))
  {
    hide CircuitAddress, CommandTyped, CommandTokens, GrantsSound;
    SlotIsSoleSender(v);
    hide Owned;
    var v' := Answered(v, viaRelay, addr);
    GrantJoins(v, addr, v', v'.grants[|v.grants|]);
  }

  lemma GrantJoins(v: View, addr: Address, v': View, g: Grant)
    requires GrantsSound(v)
    requires v'.grants == v.grants + [g] && v'.listenLog == v.listenLog + [addr] && v'.requests == v.requests
    requires g.token !in v.mailbox && v'.mailbox == v.mailbox[g.token := Ok(g.addr)]
    requires FirstEligible(v'.listenLog, g) && GrantTyped(v', g)
    requires forall i :: 0 <= i < |v.grants| ==> v.grants[i].at < g.parkedAt
    ensures GrantsSound(v')
  {
    hide CircuitAddress;
    forall i | 0 <= i < |v.grants|
      ensures FirstEligible(v'.listenLog, v.grants[i]) && GrantTyped(v', v.grants[i])
    {
      assert FirstEligible(v.listenLog, v.grants[i]) && GrantTyped(v, v.grants[i]);
    }
    hide FirstEligible, GrantTyped;
  }

  lemma AnswerKeepsAddrs(v: View, viaRelay: bool, addr: Address)
    requires CanAnswer(v, viaRelay, addr) && Owned(v) && Typed(v) && AddrsSound(v)
    ensures AddrsSound(Answered(v, viaRelay, addr))
  {
    hide CircuitAddress, SuccessAddrs, CommandTokens, CommandTyped;
    SlotIsSoleSender(v);
    hide Owned, Typed;
    assert InFlight(v) == [] && InFlight(Answered(v, viaRelay, addr)) == [addr];
    hide InFlight;
    assert v.localAddrs + [] == v.localAddrs;
  }

  lemma AnswerKeepsReplies(v: View, viaRelay: bool, addr: Address)
    requires CanAnswer(v, viaRelay, addr) && Typed(v) && RepliesSound(v)
    ensures RepliesSound(Answered(v, viaRelay, addr))
  {
    hide CircuitAddress, CommandTyped, ReplySound;
  }

  lemma AnswerKeepsCircuits(cfg: Config, v: View, viaRelay: bool, addr: Address)
    requires CanAnswer(v, viaRelay, addr) && Owned(v) && Typed(v) && CircuitsSound(cfg, v)
    ensures CircuitsSound(cfg, Answered(v, viaRelay, addr))
  {
    hide CircuitAddress, LastPeer;
    SlotIsSoleSender(v);
    hide Owned;
  }

  lemma {:induction false} AnswerSound(cfg: Config, v: View, viaRelay: bool, addr: Address)
    requires Sound(cfg, v) && CanAnswer(v, viaRelay, addr)
    ensures Sound(cfg, Answered(v, viaRelay, addr))
  {
    hide Answered, CanAnswer, Owned, Typed, GrantsSound, SlotsSound, AddrsSound, RepliesSound, CircuitsSound;
    AnswerKeepsOwners(v, viaRelay, addr);
    AnswerKeepsGrants(v, viaRelay, addr);
    AnswerKeepsAddrs(v, viaRelay, addr);
    AnswerKeepsReplies(v, viaRelay, addr);
    AnswerKeepsCircuits(cfg, v, viaRelay, addr);
  }

  lemma NewListenAddrView(s: State, address: Multiaddr)
    ensures var addr, v, v' := Print(address), ViewOf(s), ViewOf(OnNewListenAddr(s, address));
            if CircuitAddress(addr) && s.pendingRelay.Some? then v' == Answered(v, true, addr)
            else if s.pendingListen.Some? then v' == Answered(v, false, addr)
            else v' == Logged(v, addr)
  {
    assert CIRCUIT_TEXT == "/p2p-circuit";
    hide Print, Contains, RequestsIn;
  }

  lemma {:induction false} NewListenAddrSound(cfg: Config, s: State, address: Multiaddr)
    requires Sound(cfg, ViewOf(s))
    ensures Sound(cfg, ViewOf(OnNewListenAddr(s, address)))
  {
    var addr, v := Print(address), ViewOf(s);
    SlotIsSoleSender(v);
    NewListenAddrView(s, address);
    hide Print, OnNewListenAddr, Sound, CircuitAddress, RequestsIn, Answered, Logged;
    if CircuitAddress(addr) && s.pendingRelay.Some? {
      AnswerSound(cfg, v, true, addr);
    } else if s.pendingListen.Some? {
      AnswerSound(cfg, v, false, addr);
    } else {
      LogSound(cfg, v, addr);
    }
  }

  lemma CircuitListenSound(cfg: Config, v: View, c: CircuitListen)
    requires Sound(cfg, v) && v.pendingRelay.Some?
    requires c.token == v.pendingRelay.value.token && c.relayAddr == v.pendingRelay.value.relayAddr
    requires Destination(cfg, c.relayAddr) == Some(c.peer)
    requires c.arg == cfg.parse(c.relayAddr).value + [P2pCircuit] && c.logged == |v.listenLog|
    ensures Sound(cfg, v.(circuitListens := v.circuitListens + [c]))
  {
    hide CircuitAddress, FirstEligible, LastPeer, SuccessAddrs;
    SlotIsSoleSender(v);
  }

  lemma {:induction false} EstablishedSound(cfg: Config, s: State, peer: PeerId, outcome: MessageId -> Outcome)
    requires Sound(cfg, ViewOf(s))
    ensures Sound(cfg, ViewOf(OnEstablished(cfg, s, peer, outcome)))
  {
    hide Sound, AttemptsOf, FailuresOf, RequestsIn, LastPeer;
    var s' := OnEstablished(cfg, s, peer, outcome);
    if s'.circuitListens != s.circuitListens {
      CircuitListenSound(cfg, ViewOf(s), s'.circuitListens[|s.circuitListens|]);
    }
  }

  lemma {:induction false} NextSound(cfg: Config, s: State, l: Label)
    requires Sound(cfg, ViewOf(s))
    ensures Sound(cfg, ViewOf(Next(cfg, s, l)))
  {
    hide Sound, IssueCommand, ResumeCommand, RunCommand, OnNewListenAddr, OnEstablished, RequestsIn;
    if Enabled(s, l) {
      match l {
        case Issue(cmd) => IssueSound(cfg, s, cmd);
        case Resume => ResumeSound(cfg, s);
        case Dequeue(listenOk, dialOk, outcome) => RunCommandSound(cfg, s, listenOk, dialOk, outcome);
        case NewListenAddr(address, _) => NewListenAddrSound(cfg, s, address);
        case Established(peer, outcome) => EstablishedSound(cfg, s, peer, outcome);
        case _ => assert ViewOf(Step(cfg, s, l)) == ViewOf(s);
      }
    }
  }

  lemma InitSound(cfg: Config)
    ensures Sound(cfg, ViewOf(Init()))
  {
  }

  lemma {:induction false} RunSound(cfg: Config, labels: seq<Label>)
    ensures Sound(cfg, ViewOf(Run(cfg, labels)))
  {
    hide Sound, Next, ViewOf;
    InitSound(cfg);
    if labels != [] {
      RunSound(cfg, labels[..|labels| - 1]);
      NextSound(cfg, Run(cfg, labels[..|labels| - 1]), labels[|labels| - 1]);
    }
  }

  // --- Refusals name their cause ---

  /** The reason fits the request: its address does not parse, or it does and libp2p refused. */
  predicate Fits(cfg: Config, cmd: NetworkCommand, reason: Refusal) {
    match reason
    case InvalidAddress =>
      (cmd.Listen? && cfg.parse(cmd.addr) == None) || (cmd.ListenViaRelay? && cfg.parse(cmd.relayAddr) == None)
    case ListenRejected => cmd.Listen? && cfg.parse(cmd.addr) != None
    case DialRejected => cmd.ListenViaRelay? && cfg.parse(cmd.relayAddr) != None
    case _ => false
  }

  predicate AnswerFits(cfg: Config, v: View, t: Token) {
    t in v.mailbox && t < |v.requests| && v.mailbox[t].Err? ==> Fits(cfg, v.requests[t], v.mailbox[t].error)
  }

  predicate ReplyFits(cfg: Config, e: Exchange) {
    e.reply.Failure? ==> Fits(cfg, e.cmd, e.reply.reason)
  }

  ghost predicate RefusalsFit(cfg: Config, v: View) {
    && (forall t: Token :: AnswerFits(cfg, v, t))
    && (forall i :: 0 <= i < |v.exchanges| ==> ReplyFits(cfg, v.exchanges[i]))
  }

  lemma HeadTyped(s: State)
    requires s.commands != [] && !s.commands[0].Send? && Typed(ViewOf(s))
    ensures CommandTyped(s.requests, s.commands[0])
  {
    RequestsInHead(s.commands);
    hide RequestsIn, CommandTyped;
    var v := ViewOf(s);
    assert v.commands[0] == s.commands[0];
    assert CommandTyped(v.requests, v.commands[0]);
  }

  /** One more answer; a refusal must fit its request. */
  lemma AnswerKeepsFit(cfg: Config, v: View, v': View, token: Token)
    requires RefusalsFit(cfg, v) && v'.exchanges == v.exchanges && v'.requests == v.requests
    requires token in v'.mailbox && v'.mailbox == v.mailbox[token := v'.mailbox[token]]
    requires AnswerFits(cfg, v', token)
    ensures RefusalsFit(cfg, v')
  {
    hide Fits;
    forall t: Token
      ensures AnswerFits(cfg, v', t)
    {
      assert AnswerFits(cfg, v, t);
    }
  }

  lemma RunCommandFits(cfg: Config, s: State, listenOk: bool, dialOk: bool, outcome: MessageId -> Outcome)
    requires s.commands != [] && Typed(ViewOf(s)) && RefusalsFit(cfg, ViewOf(s))
    ensures var s1 := s.(commands := s.commands[1..]);
            RefusalsFit(cfg, ViewOf(RunCommand(cfg, s1, s.commands[0], listenOk, dialOk, outcome)))
  {
    var s1 := s.(commands := s.commands[1..]);
    var s' := RunCommand(cfg, s1, s.commands[0], listenOk, dialOk, outcome);
    hide RequestsIn, Typed, DoSend, RefusalsFit;
    match s.commands[0] {
      case Send(id, addr, msg) =>
        DoSendView(cfg, s1, Item(id, msg), addr, dialOk, outcome);
        SameAnswersFit(cfg, ViewOf(s), ViewOf(s'));
      case Listen(addr, token) =>
        HeadTyped(s);
        if cfg.parse(addr) == None || !listenOk {
          AnswerKeepsFit(cfg, ViewOf(s), ViewOf(s'), token);
        } else {
          SameAnswersFit(cfg, ViewOf(s), ViewOf(s'));
        }
      case ListenViaRelay(relayAddr, token) =>
        HeadTyped(s);
        if cfg.parse(relayAddr) == None || !dialOk {
          AnswerKeepsFit(cfg, ViewOf(s), ViewOf(s'), token);
        } else {
          SameAnswersFit(cfg, ViewOf(s), ViewOf(s'));
        }
    }
  }

  lemma SameAnswersFit(cfg: Config, v: View, v': View)
    requires RefusalsFit(cfg, v)
    requires v'.exchanges == v.exchanges && v'.requests == v.requests && v'.mailbox == v.mailbox
    ensures RefusalsFit(cfg, v')
  {
    hide Fits;
    assert forall t: Token :: AnswerFits(cfg, v, t) ==> AnswerFits(cfg, v', t);
  }

  lemma IssueFits(cfg: Config, s: State, cmd: NetworkCommand)
    requires RefusalsFit(cfg, ViewOf(s)) && Owned(ViewOf(s)) && s.waiting == None
    ensures RefusalsFit(cfg, ViewOf(IssueCommand(cfg, s, cmd)))
  {
    hide TranslateAddress, RequestsIn, Fits;
    var v, v' := ViewOf(s), ViewOf(IssueCommand(cfg, s, cmd));
    forall t: Token
      ensures AnswerFits(cfg, v', t)
    {
      assert AnswerFits(cfg, v, t);
      assert t in v.mailbox ==> t < |v.requests|;
    }
  }

  lemma ResumeFits(cfg: Config, s: State)
    requires RefusalsFit(cfg, ViewOf(s)) && Owned(ViewOf(s)) && Enabled(s, Resume)
    ensures RefusalsFit(cfg, ViewOf(ResumeCommand(s)))
  {
    hide RequestsIn, Fits;
    var v, v' := ViewOf(s), ViewOf(ResumeCommand(s));
    assert AnswerFits(cfg, v, s.waiting.value);
    assert s.waiting.value in s.mailbox;
    forall t: Token
      ensures AnswerFits(cfg, v', t)
    {
      assert AnswerFits(cfg, v, t);
    }
  }

  lemma NewListenAddrFits(cfg: Config, s: State, address: Multiaddr)
    requires RefusalsFit(cfg, ViewOf(s))
    ensures RefusalsFit(cfg, ViewOf(OnNewListenAddr(s, address)))
  {
    hide RequestsIn, Print, Contains, RefusalsFit;
    var s' := OnNewListenAddr(s, address);
    if s'.mailbox != s.mailbox {
      AnswerKeepsFit(cfg, ViewOf(s), ViewOf(s'), s'.answers[|s.answers|]);
    } else {
      SameAnswersFit(cfg, ViewOf(s), ViewOf(s'));
    }
  }

  lemma NextFits(cfg: Config, s: State, l: Label)
    requires Sound(cfg, ViewOf(s)) && RefusalsFit(cfg, ViewOf(s))
    ensures RefusalsFit(cfg, ViewOf(Next(cfg, s, l)))
  {
    hide Owned, Typed, GrantsSound, SlotsSound, AddrsSound, RepliesSound, CircuitsSound, RefusalsFit,
         IssueCommand, ResumeCommand, RunCommand, OnNewListenAddr, RequestsIn, AttemptsOf, FailuresOf, LastPeer;
    if Enabled(s, l) {
      match l {
        case Issue(cmd) => IssueFits(cfg, s, cmd);
        case Resume => ResumeFits(cfg, s);
        case Dequeue(listenOk, dialOk, outcome) => RunCommandFits(cfg, s, listenOk, dialOk, outcome);
        case NewListenAddr(address, _) => NewListenAddrFits(cfg, s, address);
        case _ => SameAnswersFit(cfg, ViewOf(s), ViewOf(Step(cfg, s, l)));
      }
    }
  }

  lemma {:induction false} RunFits(cfg: Config, labels: seq<Label>)
    ensures RefusalsFit(cfg, ViewOf(Run(cfg, labels)))
  {
    hide Sound, Next;
    if labels != [] {
      RunSound(cfg, labels[..|labels| - 1]);
      RunFits(cfg, labels[..|labels| - 1]);
      hide ViewOf, RefusalsFit;
      NextFits(cfg, Run(cfg, labels[..|labels| - 1]), labels[|labels| - 1]);
    }
  }

  // --- Listings ---

  /** A listing of local addresses holds those of all successes before it. */
  ghost predicate ListingsSound(exchanges: seq<Exchange>) {
    forall k :: 0 <= k < |exchanges| && exchanges[k].reply.LocalAddresses? ==>
      exchanges[k].reply.addrs == SuccessAddrs(exchanges[..k])
  }

  lemma ListingsSnoc(exchanges: seq<Exchange>, e: Exchange)
    requires ListingsSound(exchanges)
    requires e.reply.LocalAddresses? ==> e.reply.addrs == SuccessAddrs(exchanges)
    ensures ListingsSound(exchanges + [e])
  {
    hide SuccessAddrs;
    var all := exchanges + [e];
    forall k | 0 <= k < |all| && all[k].reply.LocalAddresses?
      ensures all[k].reply.addrs == SuccessAddrs(all[..k])
    {
      assert all[..k] == exchanges[..k];
      assert k == |exchanges| ==> exchanges[..k] == exchanges;
    }
  }

  lemma NextListings(cfg: Config, s: State, l: Label)
    requires AddrsSound(ViewOf(s)) && ListingsSound(s.exchanges)
    ensures ListingsSound(Next(cfg, s, l).exchanges)
  {
    hide Step, ListingsSound, SuccessAddrs, RequestsIn;
    if Enabled(s, l) {
      StepFront(cfg, s, l);
      match l {
        case Issue(cmd) =>
          if FinishedAtOnce(s, cmd) != [] {
            ListingsSnoc(s.exchanges, FinishedAtOnce(s, cmd)[0]);
            assert FinishedAtOnce(s, cmd) == [FinishedAtOnce(s, cmd)[0]];
          } else {
            assert s.exchanges + [] == s.exchanges;
          }
        case Resume => ListingsSnoc(s.exchanges, Exchange(s.requests[s.waiting.value], ResumeReply(s)));
        case _ =>
      }
    }
  }

  /** Over every run, GetLocalAddresses returns the addresses of all earlier listen successes, in
      order, and no others. */
  lemma {:induction false} RunListings(cfg: Config, labels: seq<Label>)
    ensures ListingsSound(Run(cfg, labels).exchanges)
  {
    hide Next, ListingsSound;
    if labels != [] {
      RunSound(cfg, labels[..|labels| - 1]);
      RunListings(cfg, labels[..|labels| - 1]);
      hide ViewOf, AddrsSound, Owned, Typed, GrantsSound, SlotsSound, RepliesSound, CircuitsSound;
      NextListings(cfg, Run(cfg, labels[..|labels| - 1]), labels[|labels| - 1]);
    } else {
      NoListings();
    }
  }

  lemma NoListings()
    ensures ListingsSound([])
  {
  }

  // --- When a circuit is listened on ---

  /** The relay that the parked request asks for has connected. */
  predicate RelayConnects(cfg: Config, s: State, l: Label) {
    && l.Established? && s.pendingRelay.Some?
    && Destination(cfg, s.pendingRelay.value.relayAddr) == Some(l.peer)
  }

  function RelayConnections(cfg: Config, labels: seq<Label>): nat {
    if labels == [] then 0
    else
      var n := |labels| - 1;
      RelayConnections(cfg, labels[..n]) + if RelayConnects(cfg, Run(cfg, labels[..n]), labels[n]) then 1 else 0
  }

  lemma NextCircuitListens(cfg: Config, s: State, l: Label)
    ensures |Next(cfg, s, l).circuitListens| == |s.circuitListens| + if RelayConnects(cfg, s, l) then 1 else 0
  {
    hide TranslateAddress, LastPeer, Print, Contains, FailuresOf, AttemptsOf;
  }

  /** Over every run, a circuit is listened on once for each time that the relay of the parked
      request connects. */
  lemma {:induction false} RunCircuitListens(cfg: Config, labels: seq<Label>)
    ensures |Run(cfg, labels).circuitListens| == RelayConnections(cfg, labels)
  {
    hide Next, RelayConnects;
    if labels != [] {
      RunCircuitListens(cfg, labels[..|labels| - 1]);
      NextCircuitListens(cfg, Run(cfg, labels[..|labels| - 1]), labels[|labels| - 1]);
    }
  }

  lemma {:induction false} TokensOfRequests(commands: seq<SwarmCommand>)
    ensures CommandTokens(RequestsIn(commands)) == CommandTokens(commands)
  {
    if commands != [] {
      TokensOfRequests(commands[1..]);
      FlatMapConcat(CommandToken, RequestIn(commands[0]), RequestsIn(commands[1..]));
      FlatMapOne(CommandToken, commands[0]);
    }
  }

  // --- What follows for every run ---

  /** Each request's reply sender is in exactly one place - in the channel, in the listen slot,
      in the relay slot, or used up by an answer - so no request is answered twice and no
      sender is overwritten. */
  lemma {:induction false} EverySenderInExactlyOnePlace(cfg: Config, labels: seq<Label>, token: Token)
    ensures var s := Run(cfg, labels);
            && multiset(CommandTokens(s.commands))[token] + multiset(ListenSlot(s.pendingListen))[token] +
               multiset(RelaySlot(s.pendingRelay))[token] + multiset(s.answers)[token]
                 == (if token < |s.requests| then 1 else 0)
            && s.dropped == []
  {
    RunSound(cfg, labels);
    var s := Run(cfg, labels);
    TokensOfRequests(s.commands);
    hide Run, Typed, GrantsSound, SlotsSound, AddrsSound, RepliesSound, CircuitsSound;
    assert LiveSenders(ViewOf(s))[token] == multiset(CommandTokens(s.commands))[token] +
      multiset(ListenSlot(s.pendingListen))[token] + multiset(RelaySlot(s.pendingRelay))[token];
  }

  /** The two slots are never full at once, and no command ever fails because the event loop
      dropped its reply sender. */
  lemma {:induction false} NoRequestIsDropped(cfg: Config, labels: seq<Label>, k: nat)
    ensures var s := Run(cfg, labels);
            && (s.pendingListen == None || s.pendingRelay == None)
            && (k < |s.exchanges| ==> s.exchanges[k].reply != Failure(EventLoopDropped))
  {
    RunSound(cfg, labels);
    SlotIsSoleSender(ViewOf(Run(cfg, labels)));
    var s := Run(cfg, labels);
    hide Run, Owned, Typed, GrantsSound, SlotsSound, AddrsSound, CircuitsSound;
    assert k < |s.exchanges| ==> ReplySound(s.exchanges[k]);
  }

  /** A failed listen or relay command names its cause: the address did not parse, or it did and
      libp2p refused to listen on it or to dial it. */
  lemma {:induction false} EveryRefusalNamesItsCause(cfg: Config, labels: seq<Label>, k: nat)
    ensures var s := Run(cfg, labels);
            k < |s.exchanges| && s.exchanges[k].reply.Failure? ==>
              Fits(cfg, s.exchanges[k].cmd, s.exchanges[k].reply.reason)
  {
    RunFits(cfg, labels);
    var s := Run(cfg, labels);
    hide Run, Fits;
    assert k < |s.exchanges| ==> ReplyFits(cfg, ViewOf(s).exchanges[k]);
  }

  function GrantPositions(grants: seq<Grant>): (r: seq<nat>)
    ensures |r| == |grants| && forall i :: 0 <= i < |r| ==> r[i] == grants[i].at
  {
    seq(|grants|, i requires 0 <= i < |grants| => grants[i].at)
  }

  /** A node's local addresses are, in order, the addresses of its successful listen replies,
      and each of them is a different announced address, taken in the order of announcement. */
  lemma {:induction false} LocalAddressesAreAnnounced(cfg: Config, labels: seq<Label>)
    ensures var s := Run(cfg, labels);
            s.localAddrs == SuccessAddrs(s.exchanges) && Subsequence(s.localAddrs, s.listenLog)
  {
    RunSound(cfg, labels);
    var s := Run(cfg, labels);
    hide Run, Owned, Typed, SlotsSound, RepliesSound, CircuitsSound;
    var n := |s.localAddrs|;
    var positions := GrantPositions(s.grants)[..n];
    forall i | 0 <= i < n
      ensures positions[i] < |s.listenLog| && s.listenLog[positions[i]] == s.localAddrs[i]
    {
      assert FirstEligible(s.listenLog, s.grants[i]);
      assert (s.localAddrs + InFlight(ViewOf(s)))[i] == s.localAddrs[i];
    }
    forall i, j | 0 <= i < j < n
      ensures positions[i] < positions[j]
    {
      assert FirstEligible(s.listenLog, s.grants[j]);
    }
    assert PicksFrom(positions, s.localAddrs, s.listenLog);
  }
}
