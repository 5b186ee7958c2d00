/** Whether the address in a reply belongs to the listener that the request opened. The event loop
    does not look at the listener of an announcement, so it need not. */
module ActorListeners {
  import opened Types
  import opened Collections
  import opened Addresses
  import opened ActorModel
  import opened ActorSteps
  import opened ActorReplies
  import opened ActorAnswers

  function AnnouncerOf(l: Label): seq<Option<Token>> {
    if l.NewListenAddr? then [l.listener] else []
  }

  /** The listeners of the announcements of a run, each named by the request that opened it. */
  function Announcers(labels: seq<Label>): seq<Option<Token>> {
    FlatMap(AnnouncerOf, labels)
  }

  /** The granted address was announced by the listener of the request it answers. */
  predicate OwnListener(announcers: seq<Option<Token>>, g: Grant) {
    g.at < |announcers| && announcers[g.at] == Some(g.token)
  }

  ghost predicate AllOwnListeners(announcers: seq<Option<Token>>, grants: seq<Grant>) {
    forall i :: 0 <= i < |grants| ==> OwnListener(announcers, grants[i])
  }

  /** Another listener announces an address while a request waits in the slot that it empties. */
  predicate ForeignAnnouncement(s: State, l: Label) {
    l.NewListenAddr? && TakenBy(s, l.address).Some? && l.listener != TakenBy(s, l.address)
  }

  predicate ForeignAt(cfg: Config, labels: seq<Label>, k: nat)
    requires k < |labels|
  {
    ForeignAnnouncement(Run(cfg, labels[..k]), labels[k])
  }

  ghost predicate ForeignSomewhere(cfg: Config, labels: seq<Label>) {
    exists k :: 0 <= k < |labels| && ForeignAt(cfg, labels, k)
  }

  lemma ForeignSnoc(cfg: Config, labels: seq<Label>)
    requires labels != []
    ensures var n := |labels| - 1;
            ForeignSomewhere(cfg, labels) <==> ForeignSomewhere(cfg, labels[..n]) || ForeignAt(cfg, labels, n)
  {
    hide Run, ForeignAnnouncement;
    var n := |labels| - 1;
    forall k | 0 <= k < n
      ensures ForeignAt(cfg, labels, k) <==> ForeignAt(cfg, labels[..n], k)
    {
      assert labels[..n][..k] == labels[..k];
    }
  }

  lemma NoneForeign(cfg: Config)
    ensures !ForeignSomewhere(cfg, [])
  {
  }

  /** Only announcements that empty a slot grant an address. */
  lemma NextGrants(cfg: Config, s: State, l: Label)
    ensures var s' := Next(cfg, s, l);
            if l.NewListenAddr? then
              && |s'.listenLog| == |s.listenLog| + 1
              && if TakenBy(s, l.address) == None then s'.grants == s.grants
                 else
                   && |s'.grants| == |s.grants| + 1 && s'.grants[..|s.grants|] == s.grants
                   && s'.grants[|s.grants|].token == TakenBy(s, l.address).value
                   && s'.grants[|s.grants|].at == |s.listenLog|
            else s'.listenLog == s.listenLog && s'.grants == s.grants
  {
    hide TranslateAddress, LastPeer, FailuresOf, AttemptsOf, OnNewListenAddr;
    if l.NewListenAddr? {
      AnnouncementGrants(s, l.address);
    }
    hide TakenBy;
  }

  lemma OwnListenersGrow(announcers: seq<Option<Token>>, grants: seq<Grant>, listener: Option<Token>,
                         taker: Option<Token>, grants': seq<Grant>)
    requires forall i :: 0 <= i < |grants| ==> grants[i].at < |announcers|
    requires if taker == None then grants' == grants
             else
               && |grants'| == |grants| + 1 && grants'[..|grants|] == grants
               && grants'[|grants|].token == taker.value && grants'[|grants|].at == |announcers|
    ensures AllOwnListeners(announcers + [listener], grants') <==>
            AllOwnListeners(announcers, grants) && (taker == None || listener == taker)
  {
    var longer := announcers + [listener];
    assert forall i :: 0 <= i < |grants| ==> grants'[i] == grants[i];
    assert forall i :: 0 <= i < |grants| ==> (OwnListener(longer, grants[i]) <==> OwnListener(announcers, grants[i]));
    if taker != None {
      assert OwnListener(longer, grants'[|grants|]) <==> listener == taker;
    }
  }

  /** How own and foreign announcements add up over a run. */
  lemma {:induction false} OwnListenersIffNoneForeign(cfg: Config, labels: seq<Label>)
    ensures |Announcers(labels)| == |Run(cfg, labels).listenLog|
    ensures AllOwnListeners(Announcers(labels), Run(cfg, labels).grants) <==> !ForeignSomewhere(cfg, labels)
  {
    if labels == [] {
      NoneForeign(cfg);
    } else {
      var before, l := labels[..|labels| - 1], labels[|labels| - 1];
      var s := Run(cfg, before);
      OwnListenersIffNoneForeign(cfg, before);
      GrantsAnnounced(cfg, before);
      ForeignSnoc(cfg, labels);
      RunAndForeign(cfg, labels);
      AnnouncersSnoc(labels);
      hide *;
      NextOwnListeners(cfg, s, l, Announcers(before));
    }
  }

  lemma RunAndForeign(cfg: Config, labels: seq<Label>)
    requires labels != []
    ensures var n := |labels| - 1;
            && Run(cfg, labels) == Next(cfg, Run(cfg, labels[..n]), labels[n])
            && (ForeignAt(cfg, labels, n) <==> ForeignAnnouncement(Run(cfg, labels[..n]), labels[n]))
  {
    hide Next, ForeignAnnouncement;
  }

  lemma AnnouncersSnoc(labels: seq<Label>)
    requires labels != []
    ensures Announcers(labels) == Announcers(labels[..|labels| - 1]) + AnnouncerOf(labels[|labels| - 1])
  {
    FlatMapSnoc(AnnouncerOf, labels[..|labels| - 1], labels[|labels| - 1]);
    assert labels[..|labels| - 1] + [labels[|labels| - 1]] == labels;
  }

  lemma NextOwnListeners(cfg: Config, s: State, l: Label, announcers: seq<Option<Token>>)
    requires |announcers| == |s.listenLog|
    requires forall i :: 0 <= i < |s.grants| ==> s.grants[i].at < |s.listenLog|
    ensures var s' := Next(cfg, s, l);
            && |announcers + AnnouncerOf(l)| == |s'.listenLog|
            && (AllOwnListeners(announcers + AnnouncerOf(l), s'.grants) <==>
                AllOwnListeners(announcers, s.grants) && !ForeignAnnouncement(s, l))
  {
    NextGrants(cfg, s, l);
    hide Next, TakenBy, AllOwnListeners;
    if l.NewListenAddr? {
      OwnListenersGrow(announcers, s.grants, l.listener, TakenBy(s, l.address), Next(cfg, s, l).grants);
    } else {
      assert announcers + [] == announcers;
    }
  }

  lemma GrantsAnnounced(cfg: Config, labels: seq<Label>)
    ensures var s := Run(cfg, labels); forall i :: 0 <= i < |s.grants| ==> s.grants[i].at < |s.listenLog|
  {
    RunSound(cfg, labels);
    var s := Run(cfg, labels);
    hide Run, Owned, Typed, SlotsSound, AddrsSound, RepliesSound, CircuitsSound;
    assert forall i :: 0 <= i < |s.grants| ==> FirstEligible(s.listenLog, s.grants[i]);
  }

  /** The state after a listen command has been accepted, announced and answered. */
  function AfterListen(s: State, addr: Address, announced: Address): State {
    var token, at := |s.requests|, |s.listenLog|;
    s.(requests := s.requests + [NetworkCommand.Listen(addr)],
       exchanges := s.exchanges + [Exchange(NetworkCommand.Listen(addr), ListenSuccess(announced))],
       localAddrs := s.localAddrs + [announced],
       mailbox := s.mailbox[token := Ok(announced)],
       answers := s.answers + [token],
       listenLog := s.listenLog + [announced],
       since := at,
       grants := s.grants + [Grant(token, false, announced, at, at)])
  }

  lemma ListenCycle(cfg: Config, s: State, addr: Address, address: Multiaddr, listener: Option<Token>,
                    outcome: MessageId -> Outcome)
    requires s.waiting == None && s.commands == [] && s.pendingListen == None && s.pendingRelay == None
    requires cfg.parse(addr).Some?
    ensures var s1 := Next(cfg, s, Issue(NetworkCommand.Listen(addr)));
            var s2 := Next(cfg, s1, Dequeue(true, true, outcome));
            var s3 := Next(cfg, s2, Label.NewListenAddr(address, listener));
            Next(cfg, s3, Resume) == AfterListen(s, addr, Print(address))
  {
    hide Print, Contains;
    var s1 := Next(cfg, s, Issue(NetworkCommand.Listen(addr)));
    assert s1.commands == [SwarmCommand.Listen(addr, |s.requests|)];
    assert s.dropped + [] == s.dropped;
    var s2 := Next(cfg, s1, Dequeue(true, true, outcome));
    assert s2 == s1.(commands := [], pendingListen := Some(|s.requests|), since := |s.listenLog|);
  }

  /** A foreign address: the first listener announces a second address only after a second listen
      command was parked, and that command succeeds with it. */
  lemma SecondListenGetsFirstListenersAddress(addr: Address, addr': Address, first: Multiaddr, second: Multiaddr,
                                              outcome: MessageId -> Outcome)
    ensures var cfg := Config(Server, _ => Some([]));
            var labels := [Issue(NetworkCommand.Listen(addr)), Dequeue(true, true, outcome),
                           Label.NewListenAddr(first, Some(0)), Resume] +
                          [Issue(NetworkCommand.Listen(addr')), Dequeue(true, true, outcome),
                           Label.NewListenAddr(second, Some(0)), Resume];
            var s := Run(cfg, labels);
            && s.exchanges == [Exchange(NetworkCommand.Listen(addr), ListenSuccess(Print(first))),
                               Exchange(NetworkCommand.Listen(addr'), ListenSuccess(Print(second)))]
            && |s.grants| == 2 && s.grants[1].token == 1 && !OwnListener(Announcers(labels), s.grants[1])
  {
    var cfg := Config(Server, _ => Some([]));
    var issue, dequeue := Issue(NetworkCommand.Listen(addr)), Dequeue(true, true, outcome);
    var announce, announce' := Label.NewListenAddr(first, Some(0)), Label.NewListenAddr(second, Some(0));
    var issue' := Issue(NetworkCommand.Listen(addr'));
    var once := [issue, dequeue, announce, Resume];
    RunFourMore(cfg, [], issue, dequeue, announce, Resume);
    RunFourMore(cfg, once, issue', dequeue, announce', Resume);
    assert [] + once == once;
    assert Run(cfg, []) == Init();
    ListenCycle(cfg, Init(), addr, first, Some(0), outcome);
    ListenCycle(cfg, AfterListen(Init(), addr, Print(first)), addr', second, Some(0), outcome);
    AnnouncersOfCycle(issue, dequeue, announce);
    AnnouncersOfCycle(issue', dequeue, announce');
    FlatMapConcat(AnnouncerOf, once, [issue', dequeue, announce', Resume]);
    hide Run, Next, Print, Announcers, FlatMap;
  }

  lemma AnnouncersOfCycle(issue: Label, dequeue: Label, announce: Label)
    requires issue.Issue? && dequeue.Dequeue? && announce.NewListenAddr?
    ensures FlatMap(AnnouncerOf, [issue, dequeue, announce, Resume]) == [announce.listener]
  {
    FlatMapSnoc(AnnouncerOf, [issue, dequeue, announce], Resume);
    FlatMapSnoc(AnnouncerOf, [issue, dequeue], announce);
    FlatMapSnoc(AnnouncerOf, [issue], dequeue);
    FlatMapOne(AnnouncerOf, issue);
    assert [issue] + [dequeue] == [issue, dequeue];
    assert [issue, dequeue] + [announce] == [issue, dequeue, announce];
    assert [issue, dequeue, announce] + [Resume] == [issue, dequeue, announce, Resume];
  }
}
