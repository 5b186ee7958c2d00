/** Two actors joined by streams: what one of them attempts to send to the other travels as frames, and
    each stream that arrives is read by the other one's handler, in any order. */
module TwoActors {
  import opened Types
  import opened Collections
  import opened Addresses
  import opened ActorModel
  import opened ActorSteps
  import opened ActorSends
  import opened ActorReports
  import opened Agreement
  import opened Framing

  /** The two peers with their configurations, and the serialisation they share. */
  datatype Ends = Ends(from: PeerId, to: PeerId, fromConfig: Config, toConfig: Config, codec: Codec)

  /** The steps of both actors so far, and the bytes of the streams that have not arrived. */
  datatype Pair = Pair(sent: seq<Label>, received: seq<Label>, streams: seq<seq<Byte>>)

  /** How many bytes a stream takes before a write fails, by message id. */
  type Rooms = MessageId -> nat

  datatype PairLabel =
    | SenderSteps(l: Label, rooms: Rooms)
    | ReceiverSteps(l: Label)
    | StreamArrives(index: nat)

  /** The stream that an attempt leaves behind: the whole frame, or as much of it as was written. */
  function StreamOf(ends: Ends, rooms: Rooms): Attempt -> seq<seq<Byte>> {
    (attempt: Attempt) =>
      if attempt.peer != ends.to || attempt.outcome == OpenFailed then []
      else match ends.codec.encode(attempt.item.msg)
        case None => [[]]
        case Some(data) =>
          [if attempt.outcome == Delivered then Frame(data) else Written(data, rooms(attempt.item.id))]
  }

  function NewAttempts(cfg: Config, labels: seq<Label>, l: Label): seq<Attempt> {
    var before, after := Run(cfg, labels).attempts, Run(cfg, labels + [l]).attempts;
    if |before| <= |after| then after[|before|..] else []
  }

  /** The receiver gets messages from the sender by their streams only. */
  function Next(ends: Ends, p: Pair, l: PairLabel): Pair {
    match l
    case SenderSteps(l, rooms) =>
      Pair(p.sent + [l], p.received,
           p.streams + FlatMap(StreamOf(ends, rooms), NewAttempts(ends.fromConfig, p.sent, l)))
    case ReceiverSteps(l) =>
      if l.Incoming? && l.peer == ends.from then p else p.(received := p.received + [l])
    case StreamArrives(index) =>
      if index >= |p.streams| then p
      else
        var rest := p.streams[..index] + p.streams[index + 1..];
        match Receive(ends.codec, p.streams[index]).0
        case None => p.(streams := rest)
        case Some(msg) => p.(streams := rest, received := p.received + [Incoming(ends.from, msg)])
  }

  function RunPair(ends: Ends, labels: seq<PairLabel>): Pair {
    if labels == [] then Pair([], [], [])
    else Next(ends, RunPair(ends, labels[..|labels| - 1]), labels[|labels| - 1])
  }

  // --- Messages ---

  function Messages(items: seq<Item>): (msgs: seq<Message>)
    ensures |msgs| == |items| && forall i :: 0 <= i < |msgs| ==> msgs[i] == items[i].msg
  {
    seq(|items|, i requires 0 <= i < |items| => items[i].msg)
  }

  function MessageFrom(peer: PeerId): NetworkEvent -> seq<Message> {
    (event: NetworkEvent) => if event.MessageReceived? && event.peer == peer then [event.msg] else []
  }

  /** The messages that an actor has reported as received from a peer. */
  function MessagesFrom(events: seq<NetworkEvent>, peer: PeerId): seq<Message> {
    FlatMap(MessageFrom(peer), events)
  }

  function IncomingFrom(peer: PeerId): Label -> seq<Message> {
    (l: Label) => if l.Incoming? && l.peer == peer then [l.msg] else []
  }

  lemma {:induction false} MessagesAmongReceptions(events: seq<NetworkEvent>, peer: PeerId)
    ensures MessagesFrom(events, peer) == MessagesFrom(Receptions(events), peer)
  {
    if events != [] {
      MessagesAmongReceptions(events[1..], peer);
      FlatMapConcat(MessageFrom(peer), Reception(events[0]), Receptions(events[1..]));
      FlatMapOne(MessageFrom(peer), events[0]);
    }
  }

  lemma {:induction false} MessagesOfArrivals(labels: seq<Label>, peer: PeerId)
    ensures MessagesFrom(FlatMap(ArrivalOf, labels), peer) == FlatMap(IncomingFrom(peer), labels)
  {
    if labels != [] {
      MessagesOfArrivals(labels[1..], peer);
      FlatMapConcat(MessageFrom(peer), ArrivalOf(labels[0]), FlatMap(ArrivalOf, labels[1..]));
      if labels[0].Incoming? {
        FlatMapOne(MessageFrom(peer), MessageReceived(labels[0].peer, labels[0].msg));
      }
    }
  }

  lemma MessagesOfRun(cfg: Config, labels: seq<Label>, peer: PeerId)
    ensures MessagesFrom(Run(cfg, labels).events, peer) == FlatMap(IncomingFrom(peer), labels)
  {
    MessagesAmongReceptions(Run(cfg, labels).events, peer);
    RunReceptions(cfg, labels);
    MessagesOfArrivals(labels, peer);
    hide *;
  }

  function Payload(codec: Codec): seq<Byte> -> seq<Message> {
    (bytes: seq<Byte>) => var msg := Receive(codec, bytes).0; if msg == None then [] else [msg.value]
  }

  /** The messages that the streams on their way will turn out to hold. */
  function OnTheWay(ends: Ends, streams: seq<seq<Byte>>): seq<Message> {
    FlatMap(Payload(ends.codec), streams)
  }

  /** The messages can be serialised, and in less than 2^32 bytes. */
  ghost predicate Encodable(codec: Codec, items: seq<Item>) {
    forall i :: 0 <= i < |items| ==>
      Inverse(codec, items[i].msg) && |codec.encode(items[i].msg).value| < LENGTH_SPAN
  }

  // --- From attempts to streams ---

  /** What is received and on its way: all that was delivered, and only what was attempted. */
  ghost predicate Between(delivered: seq<Item>, carried: multiset<Message>, attempted: seq<Item>) {
    multiset(Messages(delivered)) <= carried <= multiset(Messages(attempted))
  }

  lemma OneAttemptCarries(ends: Ends, rooms: Rooms, attempt: Attempt)
    requires attempt.peer == ends.to ==> Encodable(ends.codec, [attempt.item])
    ensures var one := if attempt.peer == ends.to then [attempt.item] else [];
            Between(if attempt.outcome == Delivered then one else [],
                    multiset(OnTheWay(ends, StreamOf(ends, rooms)(attempt))), one)
  {
    OneAttemptHolds(ends, rooms, attempt);
    hide OnTheWay, StreamOf;
    assert Messages([attempt.item]) == [attempt.item.msg] && Messages([]) == [];
    hide Messages;
  }

  lemma OneAttemptHolds(ends: Ends, rooms: Rooms, attempt: Attempt)
    requires attempt.peer == ends.to ==> Encodable(ends.codec, [attempt.item])
    ensures var carried := OnTheWay(ends, StreamOf(ends, rooms)(attempt));
            if attempt.peer != ends.to then carried == []
            else if attempt.outcome == Delivered then carried == [attempt.item.msg]
            else carried == [] || carried == [attempt.item.msg]
  {
    if attempt.peer == ends.to && attempt.outcome != OpenFailed {
      var item, msg := [attempt.item][0], attempt.item.msg;
      assert Inverse(ends.codec, item.msg);
      ReceivedIffWritten(ends.codec, msg, rooms(attempt.item.id));
      ReceivedIffWritten(ends.codec, msg, |Frame(ends.codec.encode(msg).value)|);
      FlatMapOne(Payload(ends.codec), StreamOf(ends, rooms)(attempt)[0]);
      hide Receive, Frame;
    }
  }

  lemma {:induction false} AttemptsCarry(ends: Ends, rooms: Rooms, attempts: seq<Attempt>)
    requires Encodable(ends.codec, AttemptedItems(attempts, ends.to))
    ensures Between(DeliveredItems(attempts, ends.to),
                    multiset(OnTheWay(ends, FlatMap(StreamOf(ends, rooms), attempts))),
                    AttemptedItems(attempts, ends.to))
  {
    if attempts != [] {
      var first, rest := attempts[0], attempts[1..];
      var one := if first.peer == ends.to then [first.item] else [];
      ItemsOfCons(attempts, ends.to);
      EncodableParts(ends.codec, one, AttemptedItems(rest, ends.to));
      AttemptsCarry(ends, rooms, rest);
      OneAttemptCarries(ends, rooms, first);
      StreamsOfCons(ends, rooms, attempts);
      hide *;
      BetweenConcat(if first.outcome == Delivered then one else [],
                    multiset(OnTheWay(ends, StreamOf(ends, rooms)(first))), one,
                    DeliveredItems(rest, ends.to),
                    multiset(OnTheWay(ends, FlatMap(StreamOf(ends, rooms), rest))), AttemptedItems(rest, ends.to));
    }
  }

  lemma StreamsOfCons(ends: Ends, rooms: Rooms, attempts: seq<Attempt>)
    requires attempts != []
    ensures multiset(OnTheWay(ends, FlatMap(StreamOf(ends, rooms), attempts))) ==
            multiset(OnTheWay(ends, StreamOf(ends, rooms)(attempts[0]))) +
            multiset(OnTheWay(ends, FlatMap(StreamOf(ends, rooms), attempts[1..])))
  {
    FlatMapConcat(Payload(ends.codec), StreamOf(ends, rooms)(attempts[0]),
                  FlatMap(StreamOf(ends, rooms), attempts[1..]));
  }

  lemma ItemsOfCons(attempts: seq<Attempt>, peer: PeerId)
    requires attempts != []
    ensures var one := if attempts[0].peer == peer then [attempts[0].item] else [];
            && AttemptedItems(attempts, peer) == one + AttemptedItems(attempts[1..], peer)
            && DeliveredItems(attempts, peer) ==
               (if attempts[0].outcome == Delivered then one else []) + DeliveredItems(attempts[1..], peer)
  {
  }

  lemma EncodableParts(codec: Codec, a: seq<Item>, b: seq<Item>)
    ensures Encodable(codec, a + b) <==> Encodable(codec, a) && Encodable(codec, b)
  {
    hide Inverse;
    assert forall i :: 0 <= i < |a| ==> (a + b)[i] == a[i];
    assert forall i :: 0 <= i < |b| ==> (a + b)[|a| + i] == b[i];
  }

  lemma MessagesConcat(a: seq<Item>, b: seq<Item>)
    ensures Messages(a + b) == Messages(a) + Messages(b)
  {
  }

  lemma BetweenConcat(d: seq<Item>, c: multiset<Message>, a: seq<Item>,
                      d': seq<Item>, c': multiset<Message>, a': seq<Item>)
    requires Between(d, c, a) && Between(d', c', a')
    ensures Between(d + d', c + c', a + a')
  {
    MessagesConcat(d, d');
    MessagesConcat(a, a');
    hide Messages;
  }

  // --- Over runs of the pair ---

  /** Received or on the way. */
  function Carried(ends: Ends, p: Pair): multiset<Message> {
    multiset(FlatMap(IncomingFrom(ends.from), p.received)) + multiset(OnTheWay(ends, p.streams))
  }

  function Attempts(ends: Ends, p: Pair): seq<Attempt> {
    Run(ends.fromConfig, p.sent).attempts
  }

  ghost predicate PairSound(ends: Ends, p: Pair) {
    Between(DeliveredItems(Attempts(ends, p), ends.to), Carried(ends, p), AttemptedItems(Attempts(ends, p), ends.to))
  }

  lemma AttemptsGrow(cfg: Config, labels: seq<Label>, l: Label)
    ensures Run(cfg, labels + [l]).attempts == Run(cfg, labels).attempts + NewAttempts(cfg, labels, l)
  {
    RunOneMore(cfg, labels, l);
    var s := Run(cfg, labels);
    if Enabled(s, l) {
      HistoriesGrow(cfg, s, l);
    }
    hide Run, Step, Enabled;
  }

  lemma SenderCarries(ends: Ends, p: Pair, l: Label, rooms: Rooms)
    requires PairSound(ends, p)
    requires Encodable(ends.codec, AttemptedItems(Attempts(ends, Next(ends, p, SenderSteps(l, rooms))), ends.to))
    ensures PairSound(ends, Next(ends, p, SenderSteps(l, rooms)))
  {
    var before, more := Attempts(ends, p), NewAttempts(ends.fromConfig, p.sent, l);
    var streams := FlatMap(StreamOf(ends, rooms), more);
    AttemptsGrow(ends.fromConfig, p.sent, l);
    FlatMapConcat(AttemptedItem(ends.to), before, more);
    FlatMapConcat(DeliveredItem(ends.to), before, more);
    CarriedMore(ends, p, l, rooms);
    EncodableParts(ends.codec, AttemptedItems(before, ends.to), AttemptedItems(more, ends.to));
    AttemptsCarry(ends, rooms, more);
    hide Run, NewAttempts, FlatMap, Between, Encodable, Carried, OnTheWay, DeliveredItem, AttemptedItem;
    BetweenConcat(DeliveredItems(before, ends.to), Carried(ends, p), AttemptedItems(before, ends.to),
                  DeliveredItems(more, ends.to), multiset(OnTheWay(ends, streams)), AttemptedItems(more, ends.to));
  }

  lemma CarriedMore(ends: Ends, p: Pair, l: Label, rooms: Rooms)
    ensures var streams := FlatMap(StreamOf(ends, rooms), NewAttempts(ends.fromConfig, p.sent, l));
            Carried(ends, Next(ends, p, SenderSteps(l, rooms))) == Carried(ends, p) + multiset(OnTheWay(ends, streams))
  {
    hide Run, NewAttempts;
    var streams := FlatMap(StreamOf(ends, rooms), NewAttempts(ends.fromConfig, p.sent, l));
    FlatMapConcat(Payload(ends.codec), p.streams, streams);
    hide FlatMap;
  }

  lemma TakeStream(ends: Ends, streams: seq<seq<Byte>>, index: nat)
    requires index < |streams|
    ensures multiset(OnTheWay(ends, streams)) ==
            multiset(OnTheWay(ends, streams[..index] + streams[index + 1..])) +
            multiset(Payload(ends.codec)(streams[index]))
  {
    assert streams == streams[..index] + [streams[index]] + streams[index + 1..];
    PayloadsAround(ends, streams[..index], streams[index], streams[index + 1..]);
    hide *;
  }

  lemma PayloadsAround(ends: Ends, before: seq<seq<Byte>>, x: seq<Byte>, after: seq<seq<Byte>>)
    ensures multiset(OnTheWay(ends, before + [x] + after)) ==
            multiset(OnTheWay(ends, before + after)) + multiset(Payload(ends.codec)(x))
  {
    var f := Payload(ends.codec);
    FlatMapConcat(f, before + [x], after);
    FlatMapSnoc(f, before, x);
    FlatMapConcat(f, before, after);
    MiddleOut(FlatMap(f, before), f(x), FlatMap(f, after));
    hide FlatMap, Payload;
  }

  lemma MiddleOut(a: seq<Message>, b: seq<Message>, c: seq<Message>)
    ensures multiset(a + b + c) == multiset(a + c) + multiset(b)
  {
  }

  lemma ArrivalCarries(ends: Ends, p: Pair, index: nat)
    ensures Carried(ends, Next(ends, p, StreamArrives(index))) == Carried(ends, p)
  {
    hide Receive;
    if index < |p.streams| {
      TakeStream(ends, p.streams, index);
      var rest := p.streams[..index] + p.streams[index + 1..];
      var payload, p' := Payload(ends.codec)(p.streams[index]), Next(ends, p, StreamArrives(index));
      assert p'.streams == rest;
      ArrivalReceived(ends, p, index);
      hide Next, OnTheWay, FlatMap, Payload;
      assert multiset(FlatMap(IncomingFrom(ends.from), p.received) + payload) ==
             multiset(FlatMap(IncomingFrom(ends.from), p.received)) + multiset(payload);
    }
  }

  lemma ArrivalReceived(ends: Ends, p: Pair, index: nat)
    requires index < |p.streams|
    ensures FlatMap(IncomingFrom(ends.from), Next(ends, p, StreamArrives(index)).received) ==
            FlatMap(IncomingFrom(ends.from), p.received) + Payload(ends.codec)(p.streams[index])
  {
    hide Receive;
    var msg := Receive(ends.codec, p.streams[index]).0;
    if msg != None {
      FlatMapSnoc(IncomingFrom(ends.from), p.received, Incoming(ends.from, msg.value));
    }
    hide FlatMap;
  }

  lemma ReceiverCarries(ends: Ends, p: Pair, l: Label)
    ensures Carried(ends, Next(ends, p, ReceiverSteps(l))) == Carried(ends, p)
  {
    FlatMapSnoc(IncomingFrom(ends.from), p.received, l);
    hide FlatMap, OnTheWay;
  }

  lemma EncodableBefore(ends: Ends, p: Pair, l: PairLabel)
    requires Encodable(ends.codec, AttemptedItems(Attempts(ends, Next(ends, p, l)), ends.to))
    ensures Encodable(ends.codec, AttemptedItems(Attempts(ends, p), ends.to))
  {
    if l.SenderSteps? {
      AttemptsGrow(ends.fromConfig, p.sent, l.l);
      FlatMapConcat(AttemptedItem(ends.to), Attempts(ends, p), NewAttempts(ends.fromConfig, p.sent, l.l));
      EncodableParts(ends.codec, AttemptedItems(Attempts(ends, p), ends.to),
                     AttemptedItems(NewAttempts(ends.fromConfig, p.sent, l.l), ends.to));
    }
    hide Run, NewAttempts, FlatMap, Encodable, Receive;
  }

  lemma NextPairSound(ends: Ends, p: Pair, l: PairLabel)
    requires PairSound(ends, p)
    requires Encodable(ends.codec, AttemptedItems(Attempts(ends, Next(ends, p, l)), ends.to))
    ensures PairSound(ends, Next(ends, p, l))
  {
    match l {
      case SenderSteps(step, rooms) => SenderCarries(ends, p, step, rooms);
      case ReceiverSteps(step) => ReceiverCarries(ends, p, step);
      case StreamArrives(index) => ArrivalCarries(ends, p, index);
    }
    assert !l.SenderSteps? ==> Next(ends, p, l).sent == p.sent by {
      hide Receive;
    }
    hide Next, Carried, Between, Encodable, DeliveredItems, AttemptedItems, Run;
  }

  lemma {:induction false} RunPairSound(ends: Ends, labels: seq<PairLabel>)
    requires Encodable(ends.codec, AttemptedItems(Attempts(ends, RunPair(ends, labels)), ends.to))
    ensures PairSound(ends, RunPair(ends, labels))
  {
    hide Next, Attempts, Encodable, AttemptedItems, PairSound;
    if labels != [] {
      var before, l := labels[..|labels| - 1], labels[|labels| - 1];
      EncodableBefore(ends, RunPair(ends, before), l);
      RunPairSound(ends, before);
      NextPairSound(ends, RunPair(ends, before), l);
    } else {
      NothingCarried(ends);
    }
  }

  lemma NothingCarried(ends: Ends)
    ensures PairSound(ends, Pair([], [], []))
  {
    assert Attempts(ends, Pair([], [], [])) == [];
  }

  lemma MessagesSubsequence(a: seq<Item>, b: seq<Item>)
    requires Subsequence(a, b)
    ensures multiset(Messages(a)) <= multiset(Messages(b))
  {
    var positions :| PicksFrom(positions, a, b);
    assert PicksFrom(positions, Messages(a), Messages(b));
    SubsequenceCounts(Messages(a), Messages(b));
  }

  /** Over every run of the pair: the messages that one actor has reported as received from the other,
      with those still on their way, include every message delivered without an error and are
      among the messages that the other one attempted to send it - none invented, altered,
      misrouted or repeated. Streams may arrive in any order. */
  lemma {:induction false} ReceivedBetween(ends: Ends, labels: seq<PairLabel>)
    requires Encodable(ends.codec, AttemptedItems(Attempts(ends, RunPair(ends, labels)), ends.to))
    ensures var p := RunPair(ends, labels);
            var reported := MessagesFrom(Run(ends.toConfig, p.received).events, ends.from);
            && multiset(Messages(DeliveredItems(Attempts(ends, p), ends.to))) <=
               multiset(reported) + multiset(OnTheWay(ends, p.streams))
            && multiset(reported) + multiset(OnTheWay(ends, p.streams)) <=
               multiset(Messages(AttemptedItems(Attempts(ends, p), ends.to)))
  {
    RunPairSound(ends, labels);
    MessagesOfRun(ends.toConfig, RunPair(ends, labels).received, ends.from);
    hide RunPair, Run, FlatMap, OnTheWay, DeliveredItems, AttemptedItems;
  }

  /** So whatever is reported as received from the other actor is among the messages that it accepted
      for this one. */
  lemma {:induction false} ReceivedAreAccepted(ends: Ends, labels: seq<PairLabel>)
    requires Encodable(ends.codec, AttemptedItems(Attempts(ends, RunPair(ends, labels)), ends.to))
    ensures var p := RunPair(ends, labels);
            multiset(MessagesFrom(Run(ends.toConfig, p.received).events, ends.from)) <=
            multiset(Messages(IssuedItems(ends.fromConfig, Run(ends.fromConfig, p.sent).exchanges, ends.to)))
  {
    ReceivedBetween(ends, labels);
    var p := RunPair(ends, labels);
    AttemptedAmongIssued(ends.fromConfig, p.sent, ends.to);
    hide RunPair, Run, FlatMap, OnTheWay, DeliveredItems, AttemptedItems, IssuedItems, MessagesFrom;
  }

  lemma AttemptedAmongIssued(cfg: Config, labels: seq<Label>, peer: PeerId)
    ensures var s := Run(cfg, labels);
            multiset(Messages(AttemptedItems(s.attempts, peer))) <=
            multiset(Messages(IssuedItems(cfg, s.exchanges, peer)))
  {
    RunHandledIssuedOnly(cfg, labels, peer);
    var s := Run(cfg, labels);
    hide Run, AttemptedItems, IssuedItems, QueuedItems, Queue, Subsequence;
    MessagesSubsequence(Handled(cfg, s, peer), IssuedItems(cfg, s.exchanges, peer));
    MessagesConcat(Served(s, peer), QueuedItems(cfg, s.commands, peer));
    MessagesConcat(AttemptedItems(s.attempts, peer), Queue(s.parked, peer));
    hide Messages;
  }

  /** From end to end: when the sender has nothing waiting, refused no dial to the receiver and failed no
      attempt, and no stream is on its way, the receiver has reported exactly the messages that the
      sender accepted for it, each as often as it was accepted. */
  lemma {:induction false} EndToEnd(ends: Ends, labels: seq<PairLabel>)
    requires var p := RunPair(ends, labels);
             var s := Run(ends.fromConfig, p.sent);
             && Encodable(ends.codec, AttemptedItems(s.attempts, ends.to))
             && s.commands == [] && s.parked == map[] && p.streams == []
             && !RefusedSomewhere(ends.fromConfig, p.sent, ends.to) && NoneFailed(s.attempts, ends.to)
    ensures var p := RunPair(ends, labels);
            multiset(MessagesFrom(Run(ends.toConfig, p.received).events, ends.from)) ==
            multiset(Messages(IssuedItems(ends.fromConfig, Run(ends.fromConfig, p.sent).exchanges, ends.to)))
  {
    ReceivedBetween(ends, labels);
    var p := RunPair(ends, labels);
    var s := Run(ends.fromConfig, p.sent);
    CompleteIffNeverRefused(ends.fromConfig, p.sent, ends.to);
    DeliveredAmongAttempted(s.attempts, ends.to);
    assert Handled(ends.fromConfig, s, ends.to) == AttemptedItems(s.attempts, ends.to);
    assert OnTheWay(ends, []) == [];
    hide RunPair, Run, FlatMap, OnTheWay, DeliveredItems, AttemptedItems, IssuedItems, MessagesFrom, Handled,
         RefusedSomewhere, NoneFailed;
  }
}
