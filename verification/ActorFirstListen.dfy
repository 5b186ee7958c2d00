/** When a listen command is sure to be answered with an address of its own listener: exactly when
    the node has no local address yet. */
module ActorFirstListen {
  import opened Types
  import opened Collections
  import opened Addresses
  import opened ActorModel
  import opened ActorSteps
  import opened ActorReplies
  import opened ActorAnswers
  import opened ActorListeners

  // --- Opened listeners ---

  /** Request t has opened a listener: libp2p took its listen_on, or listened on its circuit. */
  predicate Opened(s: State, t: Token) {
    || (t < |s.requests| && s.requests[t].Listen? &&
        ((t in s.mailbox && s.mailbox[t].Ok?) || s.pendingListen == Some(t)))
    || OpenedCircuit(s, t)
  }

  predicate OpenedCircuit(s: State, t: Token) {
    exists k | 0 <= k < |s.circuitListens| :: s.circuitListens[k].token == t
  }

  /** An announcement comes from a listener that has been opened. */
  predicate FromOpened(s: State, l: Label) {
    l.NewListenAddr? ==> l.listener.Some? && Opened(s, l.listener.value)
  }

  /** All announcements do. */
  ghost predicate Disciplined(cfg: Config, labels: seq<Label>) {
    forall k :: 0 <= k < |labels| ==> FromOpened(Run(cfg, labels[..k]), labels[k])
  }

  lemma DisciplinedSnoc(cfg: Config, labels: seq<Label>, l: Label)
    ensures Disciplined(cfg, labels + [l]) <==> Disciplined(cfg, labels) && FromOpened(Run(cfg, labels), l)
  {
    hide Run, FromOpened;
    var all := labels + [l];
    assert all[..|labels|] == labels && all[|labels|] == l;
    assert forall k :: 0 <= k < |labels| ==> all[..k] == labels[..k] && all[k] == labels[k];
  }

  lemma NothingAnswered(v: View)
    requires AllGranted(v) && v.grants == []
    ensures forall t :: t in v.mailbox ==> !v.mailbox[t].Ok?
  {
    assert forall t :: t in v.mailbox && v.mailbox[t].Ok? ==> Granted(v, t);
  }

  /** As long as nothing is granted, only the waiting request can have opened a listener. */
  lemma OnlyWaitingOpened(cfg: Config, s: State, t: Token)
    requires Sound(cfg, ViewOf(s)) && WellAnswered(ViewOf(s)) && s.grants == [] && Opened(s, t)
    ensures s.waiting == Some(t)
  {
    SlotIsSoleSender(ViewOf(s));
    hide Owned, Typed, GrantsSound, SlotsSound, AddrsSound, RepliesSound, RequestsFinished, AllRepliedOwn, LastPeer,
         RequestsIn;
    NothingAnswered(ViewOf(s));
    if s.pendingListen != Some(t) {
      var k :| 0 <= k < |s.circuitListens| && s.circuitListens[k].token == t;
      assert CircuitSound(cfg, ViewOf(s), s.circuitListens[k]);
    }
  }

  lemma TakerWaits(s: State, address: Multiaddr)
    requires Owned(ViewOf(s)) && TakenBy(s, address).Some?
    ensures s.waiting == TakenBy(s, address) && s.waiting.value + 1 == |s.requests|
  {
    SlotIsSoleSender(ViewOf(s));
    hide Contains, Print, LiveSenders, RequestsIn;
  }

  /** In a disciplined run the first address ever granted is of the request's own listener. */
  lemma {:induction false} FirstGrantIsOwn(cfg: Config, labels: seq<Label>)
    requires Disciplined(cfg, labels)
    ensures |Announcers(labels)| == |Run(cfg, labels).listenLog|
    ensures Run(cfg, labels).grants != [] ==> OwnListener(Announcers(labels), Run(cfg, labels).grants[0])
  {
    OwnListenersIffNoneForeign(cfg, labels);
    if labels != [] {
      var before, l := labels[..|labels| - 1], labels[|labels| - 1];
      assert before + [l] == labels;
      DisciplinedSnoc(cfg, before, l);
      FirstGrantIsOwn(cfg, before);
      RunSound(cfg, before);
      RunDelivered(cfg, before);
      AnnouncersSnoc(labels);
      RunOneMore(cfg, before, l);
      hide Run, Disciplined, Announcers, AllOwnListeners, ForeignSomewhere;
      NextFirstGrant(cfg, Run(cfg, before), l, Announcers(before));
    }
  }

  lemma NextFirstGrant(cfg: Config, s: State, l: Label, announcers: seq<Option<Token>>)
    requires Sound(cfg, ViewOf(s)) && WellAnswered(ViewOf(s)) && FromOpened(s, l) && |announcers| == |s.listenLog|
    requires s.grants != [] ==> OwnListener(announcers, s.grants[0])
    ensures var s' := Next(cfg, s, l);
            s'.grants != [] ==> OwnListener(announcers + AnnouncerOf(l), s'.grants[0])
  {
    NextGrants(cfg, s, l);
    if l.NewListenAddr? && s.grants == [] && TakenBy(s, l.address).Some? {
      TakerWaits(s, l.address);
      OnlyWaitingOpened(cfg, s, l.listener.value);
    }
    var grants, grants' := s.grants, Next(cfg, s, l).grants;
    hide Next, Sound, WellAnswered, TakenBy, Opened, ViewOf, OwnListener;
    assert grants != [] ==> grants' != [] && grants'[0] == grants[0];
    FirstOwn(announcers, grants, AnnouncerOf(l), grants');
    hide *;
  }

  lemma FirstOwn(announcers: seq<Option<Token>>, grants: seq<Grant>, more: seq<Option<Token>>, grants': seq<Grant>)
    requires grants != [] ==> OwnListener(announcers, grants[0]) && grants' != [] && grants'[0] == grants[0]
    requires grants == [] && grants' != [] ==>
               |more| == 1 && grants'[0].at == |announcers| && more[0] == Some(grants'[0].token)
    ensures grants' != [] ==> OwnListener(announcers + more, grants'[0])
  {
  }

  // --- Requests and grants that come later ---

  /** Nothing was granted before request t, and t has been made. */
  ghost predicate GrantedFrom(s: State, t: Token) {
    && t < |s.requests|
    && forall i :: 0 <= i < |s.grants| ==> s.grants[i].token >= t
  }

  lemma NextRequests(cfg: Config, s: State, l: Label)
    ensures s.requests <= Next(cfg, s, l).requests
  {
    hide Step;
    if Enabled(s, l) {
      StepFront(cfg, s, l);
    }
  }

  lemma NextGrantedFrom(cfg: Config, s: State, l: Label, t: Token)
    requires Owned(ViewOf(s)) && GrantedFrom(s, t)
    ensures GrantedFrom(Next(cfg, s, l), t)
  {
    NextRequests(cfg, s, l);
    NextGrants(cfg, s, l);
    if l.NewListenAddr? && TakenBy(s, l.address).Some? {
      TakerWaits(s, l.address);
    }
    hide Next, Owned, TakenBy, ViewOf;
    var grants, grants' := s.grants, Next(cfg, s, l).grants;
    assert |grants'| <= |grants| + 1 && grants <= grants';
    assert |grants'| > |grants| ==> grants'[|grants|].token >= t;
  }

  lemma {:induction false} LaterGrants(cfg: Config, labels: seq<Label>, more: seq<Label>, t: Token)
    requires GrantedFrom(Run(cfg, labels), t)
    ensures GrantedFrom(Run(cfg, labels + more), t)
  {
    if more == [] {
      assert labels + more == labels;
    } else {
      var front, l := more[..|more| - 1], more[|more| - 1];
      LaterGrants(cfg, labels, front, t);
      assert labels + front + [l] == labels + more;
      RunOneMore(cfg, labels + front, l);
      RunSound(cfg, labels + front);
      hide Run, Next, GrantedFrom, Owned, Typed, GrantsSound, SlotsSound, AddrsSound, RepliesSound, CircuitsSound;
      NextGrantedFrom(cfg, Run(cfg, labels + front), l, t);
    }
  }

  /** Only requests whose address parses wait in a slot or have been granted one. */
  predicate RequestParses(cfg: Config, s: State, t: Token) {
    && t < |s.requests|
    && (s.requests[t].Listen? ==> cfg.parse(s.requests[t].addr) != None)
  }

  ghost predicate GrantedParse(cfg: Config, s: State) {
    && (s.pendingListen.Some? ==> RequestParses(cfg, s, s.pendingListen.value))
    && (s.pendingRelay.Some? ==> RequestParses(cfg, s, s.pendingRelay.value.token))
    && (forall i :: 0 <= i < |s.grants| ==> RequestParses(cfg, s, s.grants[i].token))
  }

  /** The slots after a step: as before, emptied, or filled by the request at the head of the channel. */
  lemma NextSlots(cfg: Config, s: State, l: Label)
    requires Typed(ViewOf(s))
    ensures var s' := Next(cfg, s, l);
            && (s'.pendingListen == s.pendingListen || s'.pendingListen == None ||
                RequestParses(cfg, s, s'.pendingListen.value))
            && (s'.pendingRelay == s.pendingRelay || s'.pendingRelay == None ||
                RequestParses(cfg, s, s'.pendingRelay.value.token))
  {
    hide TranslateAddress, LastPeer, FailuresOf, AttemptsOf, Contains, Print, DoSend;
    if l.Dequeue? && s.commands != [] {
      if s.commands[0].Send? {
        var cmd := s.commands[0];
        DoSendView(cfg, s.(commands := s.commands[1..]), Item(cmd.id, cmd.msg), cmd.addr, l.dialOk, l.outcome);
      } else {
        HeadTyped(s);
      }
    }
    hide Typed, RequestsIn;
  }

  lemma TakerFromSlot(s: State, address: Multiaddr)
    ensures TakenBy(s, address).Some? ==>
              || TakenBy(s, address) == s.pendingListen
              || (s.pendingRelay.Some? && TakenBy(s, address).value == s.pendingRelay.value.token)
  {
    hide Contains, Print;
  }

  lemma NextGrantedParse(cfg: Config, s: State, l: Label)
    requires Typed(ViewOf(s)) && GrantedParse(cfg, s)
    ensures GrantedParse(cfg, Next(cfg, s, l))
  {
    NextSlots(cfg, s, l);
    NextRequests(cfg, s, l);
    NextGrants(cfg, s, l);
    if l.NewListenAddr? {
      TakerFromSlot(s, l.address);
    }
    hide Next, Typed, TakenBy, RequestsIn;
    var s' := Next(cfg, s, l);
    forall t: Token | RequestParses(cfg, s, t)
      ensures RequestParses(cfg, s', t)
    {
      assert s'.requests[t] == s.requests[t];
    }
    hide RequestParses;
  }

  lemma {:induction false} RunGrantedParse(cfg: Config, labels: seq<Label>)
    ensures GrantedParse(cfg, Run(cfg, labels))
  {
    hide Next, Typed, Owned, GrantsSound, SlotsSound, AddrsSound, RepliesSound, CircuitsSound;
    if labels != [] {
      var before := labels[..|labels| - 1];
      RunGrantedParse(cfg, before);
      RunSound(cfg, before);
      hide GrantedParse, ViewOf;
      NextGrantedParse(cfg, Run(cfg, before), labels[|labels| - 1]);
    }
  }

  // --- A foreign listener, whenever there is one ---

  /** Answers and circuit listens stay, and a full listen slot is emptied by its answer only. */
  predicate AnswersStay(s: State, s': State) {
    && (forall t :: t in s.mailbox ==> t in s'.mailbox && s'.mailbox[t] == s.mailbox[t])
    && s.circuitListens <= s'.circuitListens
    && (s.pendingListen.Some? ==>
          || s'.pendingListen == s.pendingListen
          || (s.pendingListen.value in s'.mailbox && s'.mailbox[s.pendingListen.value].Ok?))
  }

  lemma CommandAnswers(cfg: Config, s: State, listenOk: bool, dialOk: bool, outcome: MessageId -> Outcome)
    requires s.commands != [] && Owned(ViewOf(s))
    ensures var s1 := s.(commands := s.commands[1..]);
            AnswersStay(s, RunCommand(cfg, s1, s.commands[0], listenOk, dialOk, outcome))
  {
    var s1, cmd := s.(commands := s.commands[1..]), s.commands[0];
    if cmd.Send? {
      SendIsDoSend(cfg, s1, cmd, listenOk, dialOk, outcome);
      SendAnswers(cfg, s1, Item(cmd.id, cmd.msg), cmd.addr, dialOk, outcome);
    } else {
      RequestsInHead(s.commands);
      HeadIsSoleSender(ViewOf(s));
      RequestAnswers(cfg, s1, cmd, listenOk, dialOk, outcome);
    }
    hide RunCommand, DoSend, Owned, RequestsIn, ViewOf;
  }

  lemma SendAnswers(cfg: Config, s: State, item: Item, addr: Address, dialOk: bool, outcome: MessageId -> Outcome)
    ensures AnswersStay(s, DoSend(cfg, s, item, addr, dialOk, outcome))
  {
    DoSendView(cfg, s, item, addr, dialOk, outcome);
    hide DoSend, RequestsIn;
  }

  lemma RequestAnswers(cfg: Config, s: State, cmd: SwarmCommand, listenOk: bool, dialOk: bool,
                       outcome: MessageId -> Outcome)
    requires !cmd.Send? && cmd.token !in s.mailbox && s.pendingListen == None
    ensures AnswersStay(s, RunCommand(cfg, s, cmd, listenOk, dialOk, outcome))
  {
    hide DoSend;
  }

  lemma AnnouncementAnswers(s: State, address: Multiaddr)
    requires Owned(ViewOf(s))
    ensures AnswersStay(s, OnNewListenAddr(s, address))
  {
    AnnouncementGrants(s, address);
    AnnouncementSlots(s, address);
    if TakenBy(s, address).Some? {
      TakerWaits(s, address);
      TakerUnanswered(s, address);
    }
    hide OnNewListenAddr, Owned, TakenBy, ViewOf;
  }

  lemma AnnouncementSlots(s: State, address: Multiaddr)
    ensures var s' := OnNewListenAddr(s, address);
            && s'.circuitListens == s.circuitListens
            && (s'.pendingListen == s.pendingListen || s.pendingListen == TakenBy(s, address))
  {
    hide Print, Contains;
  }

  lemma TakerUnanswered(s: State, address: Multiaddr)
    requires Owned(ViewOf(s)) && TakenBy(s, address).Some?
    ensures TakenBy(s, address).value !in s.mailbox
  {
    SlotIsSoleSender(ViewOf(s));
    hide Contains, Print, LiveSenders, RequestsIn, Owned;
  }

  lemma NextAnswers(cfg: Config, s: State, l: Label)
    requires Owned(ViewOf(s))
    ensures AnswersStay(s, Next(cfg, s, l))
  {
    hide AnswersStay, Owned, RunCommand, OnNewListenAddr, RequestsIn;
    if Enabled(s, l) {
      match l {
        case Dequeue(listenOk, dialOk, outcome) => CommandAnswers(cfg, s, listenOk, dialOk, outcome);
        case NewListenAddr(address, _) => AnnouncementAnswers(s, address);
        case _ => OtherAnswers(cfg, s, l);
      }
    } else {
      SameStateAnswers(s);
    }
  }

  lemma OtherAnswers(cfg: Config, s: State, l: Label)
    requires Enabled(s, l) && !l.Dequeue? && !l.NewListenAddr?
    ensures AnswersStay(s, Step(cfg, s, l))
  {
    hide TranslateAddress, LastPeer, FailuresOf, AttemptsOf;
  }

  lemma SameStateAnswers(s: State)
    ensures AnswersStay(s, s)
  {
  }

  lemma OpenedCircuitStays(s: State, s': State, t: Token)
    requires OpenedCircuit(s, t) && s.circuitListens <= s'.circuitListens
    ensures OpenedCircuit(s', t)
  {
    var k :| 0 <= k < |s.circuitListens| && s.circuitListens[k].token == t;
    assert s'.circuitListens[k] == s.circuitListens[k];
  }

  /** What is opened stays opened. */
  lemma OpenedStays(cfg: Config, s: State, l: Label, t: Token)
    requires Owned(ViewOf(s)) && Opened(s, t)
    ensures Opened(Next(cfg, s, l), t)
  {
    NextRequests(cfg, s, l);
    NextAnswers(cfg, s, l);
    hide Next, Owned;
    if OpenedCircuit(s, t) {
      OpenedCircuitStays(s, Next(cfg, s, l), t);
    }
    hide OpenedCircuit;
  }

  lemma {:induction false} OpenedStaysOn(cfg: Config, labels: seq<Label>, more: seq<Label>, t: Token)
    requires Opened(Run(cfg, labels), t)
    ensures Opened(Run(cfg, labels + more), t)
  {
    if more == [] {
      assert labels + more == labels;
    } else {
      var front, l := more[..|more| - 1], more[|more| - 1];
      OpenedStaysOn(cfg, labels, front, t);
      assert labels + front + [l] == labels + more;
      RunOneMore(cfg, labels + front, l);
      RunSound(cfg, labels + front);
      hide Run, Next, Opened, Owned, Typed, GrantsSound, SlotsSound, AddrsSound, RepliesSound, CircuitsSound;
      OpenedStays(cfg, Run(cfg, labels + front), l, t);
    }
  }

  lemma GranterIsOpened(cfg: Config, s: State, l: Label)
    requires FromOpened(s, l) && s.grants == [] && Next(cfg, s, l).grants != []
    ensures l.NewListenAddr? && l.listener.Some? && Opened(s, l.listener.value)
  {
    NextGrants(cfg, s, l);
    hide Next, TakenBy, Opened;
  }

  /** Where an address has been granted there is an opened listener. */
  lemma {:induction false} SomeOpened(cfg: Config, labels: seq<Label>) returns (t: Token)
    requires Disciplined(cfg, labels) && Run(cfg, labels).grants != []
    ensures Opened(Run(cfg, labels), t)
  {
    assert labels != [];
    var before, l := labels[..|labels| - 1], labels[|labels| - 1];
    assert before + [l] == labels;
    DisciplinedSnoc(cfg, before, l);
    RunOneMore(cfg, before, l);
    hide *;
    if Run(cfg, before).grants != [] {
      t := SomeOpened(cfg, before);
    } else {
      GranterIsOpened(cfg, Run(cfg, before), l);
      t := l.listener.value;
    }
    OpenedStaysOn(cfg, before, [l], t);
  }

  lemma OpenedRequest(cfg: Config, s: State, t: Token)
    requires CircuitsSound(cfg, ViewOf(s)) && Opened(s, t)
    ensures t < |s.requests|
  {
    hide LastPeer, RequestsIn;
    if OpenedCircuit(s, t) {
      var k :| 0 <= k < |s.circuitListens| && s.circuitListens[k].token == t;
      assert CircuitSound(cfg, ViewOf(s), s.circuitListens[k]);
    }
  }

  /** A listen command waits, its request behind n sends in the channel. */
  ghost predicate BehindSends(s: State, t: Token, addr: Address, n: nat) {
    && s.waiting == Some(t) && s.pendingListen == None && s.pendingRelay == None
    && |s.commands| == n + 1 && s.commands[n] == SwarmCommand.Listen(addr, t)
    && (forall i :: 0 <= i < n ==> s.commands[i].Send?)
  }

  lemma DequeueOne(cfg: Config, s: State, t: Token, addr: Address, n: nat, outcome: MessageId -> Outcome)
    requires BehindSends(s, t, addr, n) && cfg.parse(addr) != None
    ensures var s' := Next(cfg, s, Dequeue(true, true, outcome));
            if n == 0 then s'.pendingListen == Some(t) && s'.pendingRelay == None
            else BehindSends(s', t, addr, n - 1)
  {
    hide LastPeer, FailuresOf, AttemptsOf;
    if n > 0 {
      var s1, cmd := s.(commands := s.commands[1..]), s.commands[0];
      DoSendView(cfg, s1, Item(cmd.id, cmd.msg), cmd.addr, true, outcome);
      DoSendKeeps(cfg, s1, Item(cmd.id, cmd.msg), cmd.addr, true, outcome);
      hide DoSend, RequestsIn;
    }
  }

  lemma {:induction false} ReachSlot(cfg: Config, labels: seq<Label>, t: Token, addr: Address, n: nat,
                                     outcome: MessageId -> Outcome)
    returns (more: seq<Label>)
    requires Disciplined(cfg, labels) && BehindSends(Run(cfg, labels), t, addr, n) && cfg.parse(addr) != None
    ensures Disciplined(cfg, labels + more)
    ensures var s := Run(cfg, labels + more); s.pendingListen == Some(t) && s.pendingRelay == None
    decreases n
  {
    var dequeue := Dequeue(true, true, outcome);
    DequeueOne(cfg, Run(cfg, labels), t, addr, n, outcome);
    RunOneMore(cfg, labels, dequeue);
    DisciplinedSnoc(cfg, labels, dequeue);
    hide *;
    if n == 0 {
      more := [dequeue];
    } else {
      var rest := ReachSlot(cfg, labels + [dequeue], t, addr, n - 1, outcome);
      more := [dequeue] + rest;
      Regroup(labels, [dequeue], rest);
    }
  }

  // --- The next listen command ---

  /** If request t has been granted an address, then one of its own listener. */
  ghost predicate OwnIfGranted(cfg: Config, labels: seq<Label>, t: Token) {
    var grants := Run(cfg, labels).grants;
    forall i :: 0 <= i < |grants| && grants[i].token == t ==> OwnListener(Announcers(labels), grants[i])
  }

  /** With no local address yet: whatever happens next, no other listener can answer. */
  lemma {:induction false} FirstListenIsSure(cfg: Config, labels: seq<Label>, cmd: NetworkCommand, more: seq<Label>)
    requires IsRequest(cmd) && Run(cfg, labels).waiting == None && Run(cfg, labels).localAddrs == []
    requires Disciplined(cfg, labels + [Issue(cmd)] + more)
    ensures OwnIfGranted(cfg, labels + [Issue(cmd)] + more, |Run(cfg, labels).requests|)
  {
    var issued := labels + [Issue(cmd)];
    var t := |Run(cfg, labels).requests|;
    NothingGranted(cfg, labels);
    RunOneMore(cfg, labels, Issue(cmd));
    IssueGrantsNothing(cfg, Run(cfg, labels), cmd);
    LaterGrants(cfg, issued, more, t);
    FirstGrantIsOwn(cfg, issued + more);
    RunDelivered(cfg, issued + more);
    hide Run, Next, Disciplined, OwnListener, Announcers, RequestsFinished, AllRepliedOwn, Granted;
    var grants := Run(cfg, issued + more).grants;
    assert forall i :: 0 < i < |grants| ==> grants[0].token < grants[i].token;
  }

  lemma IssueGrantsNothing(cfg: Config, s: State, cmd: NetworkCommand)
    requires IsRequest(cmd) && s.waiting == None
    ensures var s' := Next(cfg, s, Issue(cmd));
            && s'.grants == s.grants && s'.requests == s.requests + [cmd] && s'.waiting == Some(|s.requests|)
            && s'.pendingListen == s.pendingListen && s'.pendingRelay == s.pendingRelay
            && (cmd.Listen? ==> s'.commands == s.commands + [SwarmCommand.Listen(cmd.addr, |s.requests|)])
  {
  }

  lemma {:induction false} NothingGranted(cfg: Config, labels: seq<Label>)
    requires Run(cfg, labels).waiting == None
    ensures var s := Run(cfg, labels); s.localAddrs == [] <==> s.grants == []
  {
    RunSound(cfg, labels);
    hide Run, Owned, Typed, GrantsSound, SlotsSound, RepliesSound, CircuitsSound;
    assert InFlight(ViewOf(Run(cfg, labels))) == [];
  }

  /** A listen command that libp2p can take reaches the slot. */
  lemma IssueAndPark(cfg: Config, labels: seq<Label>, addr: Address, outcome: MessageId -> Outcome)
    returns (toSlot: seq<Label>)
    requires Disciplined(cfg, labels) && cfg.parse(addr) != None && Run(cfg, labels).waiting == None
    ensures toSlot != [] && toSlot[0] == Issue(NetworkCommand.Listen(addr)) && Disciplined(cfg, labels + toSlot)
    ensures var s := Run(cfg, labels + toSlot);
            s.pendingListen == Some(|Run(cfg, labels).requests|) && s.pendingRelay == None
  {
    var issue, t := Issue(NetworkCommand.Listen(addr)), |Run(cfg, labels).requests|;
    var n := |Run(cfg, labels).commands|;
    RunSound(cfg, labels);
    IdleChannel(Run(cfg, labels));
    RunOneMore(cfg, labels, issue);
    IssueGrantsNothing(cfg, Run(cfg, labels), issue.cmd);
    DisciplinedSnoc(cfg, labels, issue);
    hide Run, Next, Disciplined, Sound;
    assert BehindSends(Run(cfg, labels + [issue]), t, addr, n);
    var rest := ReachSlot(cfg, labels + [issue], t, addr, n, outcome);
    toSlot := [issue] + rest;
    Regroup(labels, [issue], rest);
  }

  /** With a local address: some continuation answers the listen with another listener's address. */
  lemma {:induction false} LaterListenIsNotSure(cfg: Config, labels: seq<Label>, addr: Address)
    returns (more: seq<Label>)
    requires Disciplined(cfg, labels) && cfg.parse(addr) != None
    requires Run(cfg, labels).waiting == None && Run(cfg, labels).localAddrs != []
    ensures var all := labels + [Issue(NetworkCommand.Listen(addr))] + more;
            Disciplined(cfg, all) && !OwnIfGranted(cfg, all, |Run(cfg, labels).requests|)
  {
    NothingGranted(cfg, labels);
    var other := SomeOpened(cfg, labels);
    RunSound(cfg, labels);
    OpenedRequest(cfg, Run(cfg, labels), other);
    var toSlot := IssueAndPark(cfg, labels, addr, (id: MessageId) => Delivered);
    OpenedStaysOn(cfg, labels, toSlot, other);
    hide *;
    var announce, t := Label.NewListenAddr([], Some(other)), |Run(cfg, labels).requests|;
    ForeignAnswer(cfg, labels + toSlot, t, other);
    more := toSlot[1..] + [announce];
    RegroupHead(labels, toSlot, announce);
  }

  lemma RegroupHead(labels: seq<Label>, middle: seq<Label>, last: Label)
    requires middle != []
    ensures labels + middle + [last] == labels + [middle[0]] + (middle[1..] + [last])
  {
  }

  lemma IdleChannel(s: State)
    requires Owned(ViewOf(s)) && s.waiting == None
    ensures s.pendingListen == None && s.pendingRelay == None
    ensures forall i :: 0 <= i < |s.commands| ==> s.commands[i].Send?
  {
    SlotIsSoleSender(ViewOf(s));
    TokensOfRequests(s.commands);
    assert multiset(CommandTokens(s.commands)) <= LiveSenders(ViewOf(s));
    hide LiveSenders;
    NoTokens(s.commands);
  }

  lemma {:induction false} NoTokens(commands: seq<SwarmCommand>)
    requires CommandTokens(commands) == []
    ensures forall i :: 0 <= i < |commands| ==> commands[i].Send?
  {
    if commands != [] {
      NoTokens(commands[1..]);
      assert forall i :: 0 < i < |commands| ==> commands[i] == commands[1..][i - 1];
    }
  }

  lemma ForeignAnswer(cfg: Config, labels: seq<Label>, t: Token, other: Token)
    requires Disciplined(cfg, labels) && Opened(Run(cfg, labels), other) && other != t
    requires Run(cfg, labels).pendingListen == Some(t) && Run(cfg, labels).pendingRelay == None
    ensures var all := labels + [Label.NewListenAddr([], Some(other))];
            Disciplined(cfg, all) && !OwnIfGranted(cfg, all, t)
  {
    var announce := Label.NewListenAddr([], Some(other));
    DisciplinedSnoc(cfg, labels, announce);
    RunOneMore(cfg, labels, announce);
    NextGrants(cfg, Run(cfg, labels), announce);
    FirstGrantIsOwn(cfg, labels);
    assert (labels + [announce])[..|labels|] == labels;
    AnnouncersSnoc(labels + [announce]);
    hide Run, Next, Disciplined, Announcers, Opened;
    var n := |Run(cfg, labels).grants|;
    assert Run(cfg, labels + [announce]).grants[n].token == t;
    assert !OwnListener(Announcers(labels + [announce]), Run(cfg, labels + [announce]).grants[n]);
  }

  /** The exact condition, at the time of the call: a listen command that libp2p can take is sure to be
      answered with an address of its own listener if and only if the node has no local address yet. */
  lemma {:induction false} ListenSureIffFirst(cfg: Config, labels: seq<Label>, addr: Address)
    requires Disciplined(cfg, labels) && Run(cfg, labels).waiting == None
    ensures var s := Run(cfg, labels);
            var issued := labels + [Issue(NetworkCommand.Listen(addr))];
            (forall more :: Disciplined(cfg, issued + more) ==> OwnIfGranted(cfg, issued + more, |s.requests|)) <==>
            s.localAddrs == [] || cfg.parse(addr) == None
  {
    var s := Run(cfg, labels);
    var issue := Issue(NetworkCommand.Listen(addr));
    var issued := labels + [issue];
    if s.localAddrs == [] || cfg.parse(addr) == None {
      forall more | Disciplined(cfg, issued + more)
        ensures OwnIfGranted(cfg, issued + more, |s.requests|)
      {
        if s.localAddrs == [] {
          FirstListenIsSure(cfg, labels, issue.cmd, more);
        } else {
          UnparsableNeverGranted(cfg, labels, addr, more);
        }
      }
    } else {
      var more := LaterListenIsNotSure(cfg, labels, addr);
      assert Disciplined(cfg, issued + more) && !OwnIfGranted(cfg, issued + more, |s.requests|);
    }
  }

  lemma UnparsableNeverGranted(cfg: Config, labels: seq<Label>, addr: Address, more: seq<Label>)
    requires Run(cfg, labels).waiting == None && cfg.parse(addr) == None
    ensures OwnIfGranted(cfg, labels + [Issue(NetworkCommand.Listen(addr))] + more, |Run(cfg, labels).requests|)
  {
    var issue, t := Issue(NetworkCommand.Listen(addr)), |Run(cfg, labels).requests|;
    var issued := labels + [issue];
    RunOneMore(cfg, labels, issue);
    IssueGrantsNothing(cfg, Run(cfg, labels), issue.cmd);
    RequestsStay(cfg, issued, more);
    RunGrantedParse(cfg, issued + more);
    hide Run, Next, OwnListener, Announcers;
    var s' := Run(cfg, issued + more);
    assert s'.requests[t] == issue.cmd;
    forall i | 0 <= i < |s'.grants|
      ensures s'.grants[i].token != t
    {
      assert RequestParses(cfg, s', s'.grants[i].token);
    }
  }

  lemma {:induction false} RequestsStay(cfg: Config, labels: seq<Label>, more: seq<Label>)
    ensures Run(cfg, labels).requests <= Run(cfg, labels + more).requests
  {
    if more == [] {
      assert labels + more == labels;
    } else {
      var front, l := more[..|more| - 1], more[|more| - 1];
      RequestsStay(cfg, labels, front);
      assert labels + front + [l] == labels + more;
      RunOneMore(cfg, labels + front, l);
      hide Run;
      NextRequests(cfg, Run(cfg, labels + front), l);
      hide Next;
    }
  }
}
