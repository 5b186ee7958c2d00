# Meerkat networking: a verified model

A Dafny model of the Meerkat network layer: the network actor of `meerkat-net-v2` with its
channels and event loop, the in-memory mock network that stands in for it, the earlier callback
network of `meerkat-net` with its own mock, the address text both read, and the message framing.
`dafny verify dfyconfig.toml` checks everything.

## How it is built

| file | what it holds |
|---|---|
| `Types.dfy`, `Collections.dfy` | commands, replies, events; facts about sequences |
| `Addresses.dfy` | address text and its `/`-segments, the two peer-id extractors, address translation |
| `ActorModel.dfy` | the actor as a state machine: `State`, `Label`, `Next`, `Run` |
| `ActorSteps.dfy` | what one step changes, branch by branch (proof support) |
| `ActorSends.dfy` | message ids: conservation, order, loss |
| `ActorReplies.dfy` | listen and relay requests: reply senders, provenance, the relay handshake, causes of failure |
| `ActorAnswers.dfy` | which answer each listen and relay command receives |
| `ActorListeners.dfy`, `ActorFirstListen.dfy` | whose listener announced the answer, and when a listen is sure of its own |
| `ActorReports.dfy` | the event channel: connections, received messages, causes of failed sends |
| `ActorInputs.dfy` | what the inputs of a run make of the state: commands given, announcements, connections, refusals |
| `ActorProgress.dfy` | nothing gets stuck: replies, serving, a relay command that succeeds |
| `ActorTranslation.dfy` | messages whose dialled address does not parse, translated ones among them |
| `ActorNetwork.dfy` | the actor as a class with its fields and loops, proved against `ActorModel` |
| `MockModel.dfy`, `MockNetworks.dfy` | the mock network as a world of many nodes, and as a class on a shared registry |
| `Agreement.dfy` | accepted messages are served once and in order; the actor agrees with the mock |
| `LegacyModel.dfy`, `LegacyNetworks.dfy` | the earlier network as a state machine and as a class; lockstep with the actor |
| `LegacyMock.dfy` | the earlier mock: address ownership and delayed delivery |
| `Framing.dfy` | length-prefixed messages on a byte stream |
| `TwoActors.dfy` | two actors joined by framed streams |

**Steps.** A label of `ActorModel.Label` is one atomic step: a front-end command up to its first
await, the resumption of a waiting command, one branch of the event loop's `select!`, or the
delivery of one incoming stream. A branch is atomic because its body is awaited to its end
before the loop polls again. `Run` folds any sequence of labels; a label that cannot happen in
a state (a second command while one is awaited, a `Closed` for a peer without a connection) is
skipped. A theorem about `Run(cfg, labels)` for all `labels` is therefore one about every run.

**Environment.** What libp2p answers is input: whether `listen_on` and `dial` are refused at
once, how each stream attempt ends (`outcome`), and when swarm events arrive. Parsing a multiaddr
is an arbitrary partial function, `Config.parse`, so the actor's theorems hold for every parser.

**Assumptions.** `is_connected` changes only together with the delivery of
`ConnectionEstablished` and `ConnectionClosed`. A `handle_command` future is not cancelled, and
commands of one actor do not overlap (it takes `&mut self`). The event loop is not torn down.
A message whose attempt neither failed to open nor failed to be written counts as sent.

**History.** Some fields of the models only record what happened (attempts, answered tokens,
announced addresses, lost ids); the code has no such variables, and in the classes they are ghost.

**Objects and runs.** `NetworkActor.Reached()` says that an object's fields are exactly the state
that `Run` gives for the steps it has taken. The methods that are whole steps keep it: `HandleCommand`,
`FinishCommand`, `ReceiveCommand`, `NewListenAddr`, `ConnectionEstablished`, `ConnectionClosed` and
`HandleIncoming`; the other methods are parts of these. So each theorem about
runs is one about objects; `ActorNetwork.ReachedActor` spells some of them out. The earlier
network has the same (`LegacyNetworks.ObjectsInLockstep` is about two objects), and the networks of
the earlier mock share one history (`LegacyMock.SharedMockState.Reached`).

## Results, hardest first

* *Quiescent agreement.* On a server node, when the channel and all parked queues are empty, what the
  actor attempted for a peer is, message for message and in order, what mock nodes with any past
  appended to the peer's queue for the same sends - if and only if no dial to the peer was refused.
* *Accepted means served.* Attempted, parked and queued messages for a peer are exactly the accepted
  ones, in order - if and only if no dial to it was ever refused. In all other runs they are
  still a subsequence of the accepted ones.
* *Conservation.* Every id below `next_message_id` is in exactly one place, once.
* *Order.* For each peer the attempts, then the parked queue, then the channel have increasing ids.
* *Exact loss.* Some accepted id is nowhere - not waiting, not sent, not reported - if and only if a dial
  was refused while older messages were parked for the same peer; what goes missing is exactly that
  queue. `RefusedDialLosesOlderMessage` is a concrete run.
* *Reply senders.* Each is in exactly one of channel, listen slot, relay slot, answered. The slots are
  never both full, nothing is overwritten, and "Event loop dropped" is unreachable.
* *Provenance and relay handshake.* Every listen and relay command is replied to with the answer to its
  own request; a success carries the first eligible announcement after that request was parked; two
  successes never report the same announcement; circuit listens belong to relay requests and come
  between parking and answer.
* *Whose listener.* Let announcements come only from listeners that have been opened. A listen command
  whose address parses is sure to be answered with an address of its own listener if and only if
  the node has no local address when it is issued; a concrete run shows a later listen answered
  with an earlier listener's address.
* *Translated messages.* Every address that gets the relay hop has an empty segment, and no multiaddr with
  non-empty names and values has such a text. For a parser that rejects it, a message to an address
  that parses ends as reported unreachable if and only if its address gets the relay hop, and then
  it is never attempted.
* *Refusals.* A listen or relay request is refused if and only if its address does not parse or libp2p
  turned down that very listen_on or dial; the reason says which.
* *No dead end.* A command whose request has been answered is replied to with that answer; from every
  reachable state a waiting command can still be replied to, and everything in the channel or
  parked can still be attempted or reported without a further loss.
* *Two actors.* What one actor reports as received from another one, with what is still on its way,
  lies between what was delivered without an error and what was attempted; so it was accepted for
  this very peer. With nothing waiting and nothing failed, received and accepted are the same.
* *Lockstep with the earlier network*, with the exact condition on addresses.
* *Mock conservation* over any number of nodes, and *ownership* in the earlier mock.
* *Addresses.* The textual relay test, read on segments: when it is right, and when it is not.
* *Framing.* Round trip of message lists, failure of every cut frame, and payloads of 2^32 bytes and more.

## Where the code differs from what it says

* The mock's extractor is commented "last /p2p/ segment" (meerkat-net-v2/src/mock.rs:123) but returns
  the first. The model follows the code; `ExtractorCorrespondence` says when this matters and
  `ExtractorsDisagreeOnCircuits` gives an address on which it does.
* "Already using our relay" (meerkat-net-v2/src/actor.rs:237-240) is a test on text. It also accepts
  an address that goes on where our relay's text ends: with a relay `/ip4/10.0.0.1/tcp/900`, one
  that begins `/ip4/10.0.0.1/tcp/9001/p2p-circuit`. `ThroughRelayMistakesLongerRelay` states it for
  all relays, and `RoutedIffThroughRelayAnd` gives the exact difference for all addresses.
* Translation puts `/p2p-circuit/` before an address that already starts with a slash
  (meerkat-net-v2/src/actor.rs:243-247; the test in meerkat-net-v2/tests/integration_test.rs:71 expects
  it so). The result has an empty segment behind the circuit hop (`TranslationLeavesEmptyHop`) and
  is the text of no multiaddr with non-empty names and values (`TranslationPrintsNoMultiaddr`). With
  a parser that rejects an empty segment behind a circuit hop, a browser client therefore reaches
  nobody through a translated address (`UnreachableIffRelayHop`). Which texts libp2p's parser takes is not part of this model.
* The address in a listen reply is called the actual one (meerkat-net-v2/src/actor.rs:202-204), but the
  event loop ignores which listener an announcement comes from (meerkat-net-v2/src/actor.rs:444):
  see `SecondListenGetsFirstListenersAddress`.
* A `SendFailed` is promised for a failed send, but a refused dial drops the peer's older messages
  without one (meerkat-net-v2/src/actor.rs:379-384).
* Address translation returns a `Result` that is never an error, so the failure reply for it
  (meerkat-net-v2/src/actor.rs:186) cannot occur; the model's translation is total.
* A message reported as failed may have arrived: when all bytes are written and only the flush fails
  (meerkat-net-v2/src/protocol.rs:15-17). `FailedYetReceived` gives the exact condition.
* `SendError::ConnectionLost` is never produced: `RunExplained` leaves no failure with it.

## Model

| member | source | states |
|---|---|---|
| `Agreement.QuiescentAgreement` | meerkat-net-v2/src/mock.rs:58-107 | with nothing in the channel or parked, the attempts for a peer are, in order, exactly what mock nodes with any past appended to its queue for the same sends, iff no dial to the peer was ever refused |
| `Agreement.QuiescentDelivery` | meerkat-net-v2/src/mock.rs:58-74 | with nothing in the channel or parked, what was delivered to a peer is, in order, what the mock appended to its queue, iff no dial to it was refused and no attempt failed |
| `Agreement.CompleteIffNeverRefused` | meerkat-net-v2/src/actor.rs:375-386 | attempted + parked + queued messages for a peer equal the accepted ones, in order and once each, iff no dial to the peer was ever refused; otherwise strictly fewer |
| `Agreement.RunHandledIssuedOnly` | meerkat-net-v2/src/actor.rs:344-387 | in every run, whatever is attempted, parked or queued for a peer is a subsequence of the messages accepted for that peer: none forged, altered, misrouted, repeated or reordered |
| `Agreement.MockDeliversIssued` | meerkat-net-v2/src/mock.rs:58-74 | in every world of mock nodes, a node given the actor's accepted sends appends to each registered peer exactly the messages accepted for it, in order |
| `Agreement.SameMessageIds` | meerkat-net-v2/src/actor.rs:181-193 | over every run the actor replies to its sends with the very ids that a new mock node logs for the same sends |
| `Agreement.AgreeableTarget` | meerkat-net-v2/src/mock.rs:122-131 | on addresses whose first and last peer coincide, the mock's target is the peer the actor dials |
| `ActorSends.EveryIdInExactlyOnePlace` | meerkat-net-v2/src/actor.rs:344-413 | over every run each id in 1..next is counted exactly once over channel, parked queues, sent, reported failed and lost, and no other id anywhere |
| `ActorSends.StepPlaces` | meerkat-net-v2/src/actor.rs:272-341 | a step only moves ids between places, except that accepting a SendMessage adds exactly its new id |
| `ActorSends.IdsMoveForward` | meerkat-net-v2/src/actor.rs:344-413 | sent, failed and lost ids stay so, parked ids come from the channel, and only the next fresh id enters the channel |
| `ActorSends.RunInOrder` | meerkat-net-v2/src/actor.rs:480-484 | per peer over every run: attempts are in increasing id order, parked ids are newer than all attempts, channel ids newer than both, all below next |
| `ActorSends.StepServed` | meerkat-net-v2/src/actor.rs:375-386 | what was served for a peer, attempts then queue, grows at its end only; connecting, draining and disconnecting leave it unchanged, and a refused dial takes exactly the queue away |
| `ActorSends.RunChannelNewest` | meerkat-net-v2/src/actor.rs:181-192 | the channel always holds the newest ids without a gap |
| `ActorSends.DequeuedBeforeQueued` | meerkat-net-v2/src/actor.rs:274-286 | every id that left the channel, for whichever peer and however it ended, is older than every id still in it |
| `ActorSends.RunParkedExcludesConnected` | meerkat-net-v2/src/actor.rs:375-386 | in every reachable state no connected peer has a parked queue, and no parked queue is empty, whatever connections open and close |
| `ActorSends.LostIffQueueLost` | meerkat-net-v2/src/actor.rs:377-385 | some accepted id is neither queued, parked, sent nor reported iff some step refused a dial while older messages were parked for that peer |
| `ActorSends.StepLosesExactlyTheQueue` | meerkat-net-v2/src/actor.rs:379-384 | an id goes missing in a step iff that step refuses the dial to the peer whose queue held it |
| `ActorSends.RefusedDialLosesOlderMessage` | meerkat-net-v2/src/actor.rs:379-385 | a concrete run in which an accepted message vanishes without attempt or report |
| `ActorSends.QuiescentOutcome` | meerkat-net-v2/src/actor.rs:344-413 | when nothing waits and no queue was lost, every accepted id was either sent or reported failed, exactly one of them and once |
| `ActorReplies.EverySenderInExactlyOnePlace` | meerkat-net-v2/src/actor.rs:287-315 | each request's reply sender is in exactly one of channel, listen slot, relay slot, answered; none is overwritten and none answers twice |
| `ActorReplies.NoRequestIsDropped` | meerkat-net-v2/src/actor.rs:201-228 | the two slots are never both full, and no command fails because its sender was dropped |
| `ActorAnswers.EveryReplyIsItsOwn` | meerkat-net-v2/src/actor.rs:195-229 | the k-th finished listen or relay command has the k-th request, and its reply is the one answer given to that request; no other command gets such a reply |
| `ActorAnswers.EverySuccessIsFirstEligible` | meerkat-net-v2/src/actor.rs:444-460 | for every ListenSuccess in every run, its address is the first one announced, after the command's own request was parked, that is eligible for its kind |
| `ActorAnswers.SuccessesInOrder` | meerkat-net-v2/src/actor.rs:450-459 | of two successes the later one's request was parked after the announcement that the earlier one reports, so no announcement answers two |
| `ActorFirstListen.ListenSureIffFirst` | meerkat-net-v2/src/actor.rs:195-213 | when announcements come from opened listeners, a listen issued now is answered, if at all, by its own listener in every continuation iff the node has no local address yet or the address does not parse |
| `ActorFirstListen.FirstListenIsSure` | meerkat-net-v2/src/actor.rs:195-229 | with no local address, no continuation answers a listen or relay command with another listener's address |
| `ActorListeners.SecondListenGetsFirstListenersAddress` | meerkat-net-v2/src/actor.rs:457-459 | a run in which a second listen command succeeds with a later address of the first listener |
| `ActorReplies.LocalAddressesAreAnnounced` | meerkat-net-v2/src/actor.rs:201-224 | local addresses equal, in order, the addresses of the successful listen replies, and are a subsequence of the announced ones |
| `ActorAnswers.RelayHandshake` | meerkat-net-v2/src/actor.rs:461-478 | a circuit listen belongs to a relay request, uses its address plus the circuit hop, and happens when its last peer connects; the request was parked before, and it still waits or was answered by a later circuit announcement |
| `ActorAnswers.RelaySuccessIsCircuit` | meerkat-net-v2/src/actor.rs:448-455 | relay requests succeed with circuit addresses only |
| `ActorReplies.RunCircuitListens` | meerkat-net-v2/src/actor.rs:467-478 | over every run a circuit is listened on exactly once for each time that the relay of the parked request connects |
| `ActorReplies.RunListings` | meerkat-net-v2/src/actor.rs:210-214 | every GetLocalAddresses reply holds the addresses of all earlier listen successes, in order, and no others |
| `ActorReplies.EveryRefusalNamesItsCause` | meerkat-net-v2/src/actor.rs:287-315 | a failed listen or relay command reports an invalid address iff the address does not parse, and a refused listen or dial otherwise, fitting the kind of request |
| `ActorInputs.RefusedIffTurnedDown` | meerkat-net-v2/src/actor.rs:287-315 | in every run a request has been answered with a refusal iff, at the step that took it from the channel, its address did not parse, or that step's own answer to listen_on (listen) or dial (relay) was no; each reason for its own case |
| `ActorInputs.RunAsTold` | meerkat-net-v2/src/actor.rs:178-230 | over every run the requests are the listen and relay commands given to a free front end, and the finished sends and queries are the others, in order, none dropped or made up |
| `ActorInputs.RunListenLog` | meerkat-net-v2/src/actor.rs:444-445 | the announcement log is the text of the announced addresses, in order |
| `ActorInputs.WaitsOnlyForEligible` | meerkat-net-v2/src/actor.rs:448-459 | a listen waits in its slot only if nothing has been announced since it was parked, a relay request only if no circuit address has |
| `ActorProgress.AnsweredIsReplied` | meerkat-net-v2/src/actor.rs:201-208 | in every reachable state a waiting command whose request has been answered, positively or not, can be resumed and is replied to with that answer |
| `ActorProgress.WaitingCanFinish` | meerkat-net-v2/src/actor.rs:195-229 | from every reachable state there is a continuation in which the waiting command is replied to |
| `ActorProgress.RelayCommandSucceeds` | meerkat-net-v2/src/actor.rs:301-311 | for every relay address and circuit address: accepted dial, the relay's connection, one circuit listen on its address plus the circuit hop, the announcement, and success with it |
| `ActorReplies.NextSound` | meerkat-net-v2/src/actor.rs:443-490 | the invariant on owners, slots, grants, replies and circuit listens is kept by every step |
| `ActorReports.RunExplained` | meerkat-net-v2/src/actor.rs:353-412 | every SendFailed is about an accepted message and says UnreachableAddress iff its address as dialled does not parse, ProtocolError otherwise; the same cause already awaits every parked or queued message |
| `ActorTranslation.UndialableIsReported` | meerkat-net-v2/src/actor.rs:353-362 | a message whose dialled address does not parse is never attempted; it is in the channel or reported unreachable, once, with that address |
| `ActorTranslation.UnreachableIffRelayHop` | meerkat-net-v2/src/actor.rs:233-253 | for every parser that rejects an empty segment behind a circuit hop: a message to an address that parses, once out of the channel, is reported unreachable iff it is a browser client's, does not pass for one through the relay and begins like an IP address |
| `ActorTranslation.TranslatedIsUnreachable` | meerkat-net-v2/src/actor.rs:241-247 | such a message is never attempted and, once out of the channel, reported exactly once, with the translated address |
| `ActorReports.RunConnectionsReported` | meerkat-net-v2/src/actor.rs:461-490 | per peer, PeerConnected events minus PeerDisconnected events is the number of open connections, in every run |
| `ActorInputs.RunConnections` | meerkat-net-v2/src/actor.rs:375 | the number of connections to a peer is that of its ConnectionEstablished events less its ConnectionClosed ones, never below zero |
| `ActorInputs.RunOpenedEvents` | meerkat-net-v2/src/actor.rs:461-465 | there is one PeerConnected report for each established connection |
| `ActorInputs.AttemptsOnlyConnected` | meerkat-net-v2/src/actor.rs:375-376 | an attempt is made only to a peer that is connected, and ends as the stream of that step does |
| `ActorProgress.ConnectingServes` | meerkat-net-v2/src/actor.rs:461-485 | in every reachable state an established connection is reported first, then everything parked for the peer is attempted in order, and nothing stays parked |
| `ActorProgress.CanQuiesce` | meerkat-net-v2/src/actor.rs:272-341 | from every reachable state there is a continuation that empties the channel and all queues and loses nothing more |
| `ActorReports.RunReceptions` | meerkat-net-v2/src/actor.rs:415-432 | messages that arrive are passed on each once, in order, and nothing else as received |
| `ActorNetwork.NetworkActor.constructor` | meerkat-net-v2/src/actor.rs:156-172 | a new actor is in the initial state, with ids starting at 1 |
| `ActorNetwork.NetworkActor.HandleCommand` | meerkat-net-v2/src/actor.rs:178-231 | a command up to its first await is one Issue step of the run; the reply is the finished exchange's, or none if it waits |
| `ActorNetwork.NetworkActor.SendMessage` | meerkat-net-v2/src/actor.rs:180-194 | takes the next id, puts the translated send at the end of the channel, replies with that id |
| `ActorNetwork.NetworkActor.GetLocalAddresses` | meerkat-net-v2/src/actor.rs:210-214 | replies with the local addresses and changes nothing else |
| `ActorNetwork.NetworkActor.StartListen` | meerkat-net-v2/src/actor.rs:195-200 | queues the request with a fresh reply sender and waits for it |
| `ActorNetwork.NetworkActor.StartListenViaRelay` | meerkat-net-v2/src/actor.rs:215-220 | the same for a relay request |
| `ActorNetwork.NetworkActor.FinishCommand` | meerkat-net-v2/src/actor.rs:201-208 | the resumption is one Resume step: a success is recorded among the local addresses, a failure is not |
| `ActorNetwork.ResumeAnswered` | meerkat-net-v2/src/actor.rs:201-208 | an actor object whose suspended command has been answered can finish it, and returns the answer |
| `ActorNetwork.NetworkActor.ReceiveCommand` | meerkat-net-v2/src/actor.rs:274-318 | the command branch of the loop is one Dequeue step |
| `ActorNetwork.NetworkActor.ListenOn` | meerkat-net-v2/src/actor.rs:287-300 | refuses an unparsable or rejected address at once, otherwise fills the listen slot |
| `ActorNetwork.NetworkActor.DialRelay` | meerkat-net-v2/src/actor.rs:301-316 | the same for the relay slot |
| `ActorNetwork.NetworkActor.DoSend` | meerkat-net-v2/src/actor.rs:344-387 | reports, attempts, parks or drops, as the state machine's send |
| `ActorNetwork.NetworkActor.ParkAndDial` | meerkat-net-v2/src/actor.rs:377-385 | parks and keeps the queue if the dial is accepted; otherwise one report and the whole queue gone |
| `ActorNetwork.NetworkActor.SendToPeer` | meerkat-net-v2/src/actor.rs:389-413 | one attempt, and a failure report iff opening or writing failed |
| `ActorNetwork.NetworkActor.NewListenAddr` | meerkat-net-v2/src/actor.rs:444-460 | an announcement is one step: circuit text answers the relay slot first, else the listen slot |
| `ActorNetwork.NetworkActor.ConnectionEstablished` | meerkat-net-v2/src/actor.rs:461-485 | event, circuit listen and drain together are one Established step |
| `ActorNetwork.NetworkActor.ListenViaConnectedRelay` | meerkat-net-v2/src/actor.rs:467-478 | listens through the relay iff the parked relay address parses and its last peer is the one that connected |
| `ActorNetwork.NetworkActor.SendParked` | meerkat-net-v2/src/actor.rs:480-484 | the drain loop removes the queue and attempts all of it, in order |
| `ActorNetwork.NetworkActor.ConnectionClosed` | meerkat-net-v2/src/actor.rs:486-490 | one connection fewer, one event more |
| `ActorNetwork.NetworkActor.HandleIncoming` | meerkat-net-v2/src/actor.rs:415-432 | a message read from a stream becomes one event |
| `ActorNetwork.ReachedActor` | meerkat-net-v2/src/actor.rs:261-342 | the run theorems on any actor object: exclusion, order, conservation, single slot, no dropped sender |
| `Addresses.ExtractPeerId` | meerkat-net-v2/src/actor.rs:508-523 | collecting all peer ids and popping yields the last peer component, or none |
| `Addresses.ExtractPeerIdFromAddr` | meerkat-net-v2/src/mock.rs:122-131 | the index loop with early return yields the segment after the first "p2p" that has a successor |
| `Addresses.FirstP2pIsFirst` | meerkat-net-v2/src/mock.rs:125-129 | what the scan extracts is the segment behind the first segment "p2p" that has one, and nothing iff there is none |
| `Addresses.ExtractorCorrespondence` | meerkat-net-v2/src/mock.rs:122-131 | on printed multiaddrs the mock takes the first peer and the actor the last; they agree iff these coincide, hence with at most one peer |
| `Addresses.ExtractorsDisagreeOnCircuits` | meerkat-net-v2/src/actor.rs:509-522 | a relayed address that the mock delivers to the relay and the actor to the destination |
| `Addresses.CircuitTextIffComponent` | meerkat-net-v2/src/actor.rs:448-455 | the textual test for "/p2p-circuit" holds iff the multiaddr has a circuit component, when nothing else begins like one |
| `Addresses.StartsWithIffSegments` | meerkat-net-v2/src/actor.rs:238 | a textual prefix is a segment-wise prefix whose last segment may stop short, for all strings |
| `Addresses.ContainsIffSegments` | meerkat-net-v2/src/actor.rs:238 | slash plus word occurs in a text iff a segment after the first begins with the word |
| `Addresses.ThroughRelayOnSegments` | meerkat-net-v2/src/actor.rs:237-240 | the relay test on arbitrary strings, read on segments |
| `Addresses.RoutedIffThroughRelayAnd` | meerkat-net-v2/src/actor.rs:237-240 | an address runs through the relay iff the textual test holds, the relay's last segment does not go on, and a circuit hop follows the relay |
| `Addresses.ThroughRelayIsExact` | meerkat-net-v2/src/actor.rs:237-240 | with equally long last segments, no circuit segment in the relay and no look-alikes, the textual test is exact |
| `Addresses.ThroughRelayMistakesLongerRelay` | meerkat-net-v2/src/actor.rs:237-240 | every longer relay address passes the test although the address is not routed through the relay |
| `Addresses.TranslateIdempotent` | meerkat-net-v2/src/actor.rs:233-253 | translating a translated address changes nothing, for every relay and address |
| `Addresses.TranslationPrependsRelayHop` | meerkat-net-v2/src/actor.rs:241-247 | a changed address has exactly the segments relay, circuit hop, canonical address, so its last "p2p" value is the canonical's |
| `Addresses.TranslationText` | meerkat-net-v2/src/actor.rs:243-247 | the dialled text is relay, "/p2p-circuit/", canonical address, whenever the branch guard holds |
| `Addresses.PrintedWords` | meerkat-net-v2/src/mock.rs:53 | the text of single address components |
| `Addresses.TranslationLeavesEmptyHop` | meerkat-net-v2/src/actor.rs:243-247 | every changed address has an empty segment right behind the circuit hop |
| `Addresses.TranslationPrintsNoMultiaddr` | meerkat-net-v2/src/actor.rs:243-247 | no multiaddr with non-empty names and values has a changed address as its text |
| `Addresses.ChangedIffNeedsRelayHop` | meerkat-net-v2/src/actor.rs:234-251 | an address is changed iff the node is a browser client, the address does not pass for one through the relay, and it begins like an IP address |
| `Addresses.LastSegmentIsLastPeer` | meerkat-net-v2/src/actor.rs:508-523 | on printed multiaddrs the last "p2p" value of the text is the peer that the actor extracts |
| `MockModel.BoundAddressLeadsBack` | meerkat-net-v2/src/mock.rs:51-56 | the address a listen returns leads back to the listener iff the listen address has no "p2p" segment or names the listener first |
| `MockModel.ListenSendRoundTrip` | meerkat-net-v2/src/mock.rs:51-74 | a send by any node to a returned address adds exactly that message to the listener's queue and touches no other queue |
| `MockModel.EveryNodeAccounted` | meerkat-net-v2/src/mock.rs:58-107 | over every run of any number of nodes: taken plus queued events of a node are exactly the events sent to it, in order; each node's sends are numbered without gaps; each event is the send's own message at the registered target, or its own failure, with the right cause, at the sender |
| `MockModel.EverySendLogged` | meerkat-net-v2/src/mock.rs:58-62 | each node's SendMessage commands, and nothing else, caused these events, in order |
| `MockModel.LocalAddrsAreListened` | meerkat-net-v2/src/mock.rs:51-56 | over every run a node's local addresses are, in order, address + "/p2p/" + own id for each of its Listen commands, and no others |
| `MockModel.TakeEventTakesOldest` | meerkat-net-v2/src/mock.rs:151-153 | taking from a queue that holds an event takes the oldest |
| `MockModel.EventsEqualSends` | meerkat-net-v2/src/mock.rs:58-107 | summed over all nodes, queued plus taken events equal ids handed out: each send caused exactly one event |
| `MockNetworks.MockNetwork.constructor` | meerkat-net-v2/src/mock.rs:27-38 | a node registers a new empty queue of its own under its id, in place of any other one there, and touches no other |
| `MockNetworks.MockNetwork.HandleCommand` | meerkat-net-v2/src/mock.rs:49-119 | all four commands: the new registry and node are the world's after the command, with the documented replies |
| `MockNetworks.MockNetwork.TryRecvEvent` | meerkat-net-v2/src/mock.rs:151-153 | takes the oldest event of the node's own queue, registered or not, or none from an empty one |
| `MockNetworks.TakeOver` | meerkat-net-v2/src/mock.rs:28-30 | a node whose id is taken over keeps what it was sent before and gets nothing more; the later node gets it |
| `MockNetworks.ListenThenList` | meerkat-net-v2/src/mock.rs:51-56 | a listen reports address + "/p2p/" + own id, and the next query returns the earlier addresses followed by it |
| `MockNetworks.ListenSendReceive` | meerkat-net-v2/tests/integration_test.rs:121-158 | listen, send to the reported address, receive: the listener gets exactly that message and the registry is as before, for all addresses without "p2p" segment and all messages |
| `LegacyModel.RunLockstep` | meerkat-net/src/libp2p_net.rs:130-171 | on a server node without relay requests and with addresses read alike, both networks always have the same queues, attempts, failures by id and kind and received messages, and the earlier one's addresses are all announced ones |
| `LegacyModel.LocalAddressesAreLegacyOnes` | meerkat-net/src/libp2p_net.rs:225-233 | the actor's local addresses are always a subsequence of the earlier network's |
| `LegacyNetworks.ObjectsInLockstep` | meerkat-net/src/libp2p_net.rs:62-128 | an actor object and a network object after the same steps have the same queues and attempts and have reported the same failures and received messages |
| `LegacyModel.ParkedAlikeIffRoutesAlike` | meerkat-net/src/libp2p_net.rs:260-268 | the condition on addresses is exact: the first message to an address is parked alike iff its first and last peer coincide |
| `LegacyModel.AnsweredReturns` | meerkat-net/src/libp2p_net.rs:286-289 | in every reachable state a waiting listen call that has been answered, positively or not, returns |
| `LegacyNetworks.ExtractFirstPeerId` | meerkat-net/src/libp2p_net.rs:260-268 | the search stops at the first peer component |
| `LegacyNetworks.LibP2PNetwork.constructor` | meerkat-net/src/libp2p_net.rs:54-59 | a new network is in the initial state |
| `LegacyNetworks.LibP2PNetwork.Send` | meerkat-net/src/libp2p_net.rs:273-277 | returns the next id and queues the send under it |
| `LegacyNetworks.LibP2PNetwork.Listen` | meerkat-net/src/libp2p_net.rs:279-284 | queues the request with a fresh reply sender and waits |
| `LegacyNetworks.LibP2PNetwork.FinishListen` | meerkat-net/src/libp2p_net.rs:286-289 | discards the address and passes the error on |
| `LegacyNetworks.LibP2PNetwork.ReceiveCommand` | meerkat-net/src/libp2p_net.rs:76-105 | the command branch of the earlier loop, against the state machine |
| `LegacyNetworks.LibP2PNetwork.HandleSend` | meerkat-net/src/libp2p_net.rs:130-171 | reports, attempts, parks or drops, by the first peer of the address |
| `LegacyNetworks.LibP2PNetwork.SendToPeer` | meerkat-net/src/libp2p_net.rs:173-198 | one attempt, and an error call iff opening or writing failed |
| `LegacyNetworks.LibP2PNetwork.NewListenAddr` | meerkat-net/src/libp2p_net.rs:225-233 | every announcement becomes a local address, and answers the slot if it is full |
| `LegacyNetworks.LibP2PNetwork.ConnectionEstablished` | meerkat-net/src/libp2p_net.rs:234-244 | the drain loop attempts the whole queue in order |
| `LegacyNetworks.LibP2PNetwork.ConnectionClosed` | meerkat-net/src/libp2p_net.rs:245-249 | one connection fewer, no queue touched |
| `LegacyNetworks.LibP2PNetwork.HandleIncomingStream` | meerkat-net/src/libp2p_net.rs:200-214 | a message read from a stream becomes one on_message call |
| `LegacyMock.RunOwned` | meerkat-net/src/mock.rs:65-82 | over every interleaving, registered addresses are exactly all local addresses, each listed once and by its owner; deliveries went to owners, and a message sent to a registered address never vanishes |
| `LegacyMock.OwnerIsForever` | meerkat-net/src/mock.rs:68-78 | an address once registered stays registered to the same owner |
| `LegacyMock.LettersAccounted` | meerkat-net/src/mock.rs:46-63 | over every interleaving the messages asleep, delivered and vanished are, as a multiset of sender, address and message, exactly those sent |
| `LegacyMock.SendsAccounted` | meerkat-net/src/mock.rs:46-47 | ids handed out equal messages asleep, delivered and vanished |
| `LegacyMock.MockNetwork.Listen` | meerkat-net/src/mock.rs:65-82 | fails and changes nothing iff the address is taken, otherwise registers and lists it |
| `LegacyMock.MockNetwork.Send` | meerkat-net/src/mock.rs:46-63 | a fresh id; one more sleeping thread, with the sender's name, the address and the message |
| `LegacyMock.MockNetwork.constructor` | meerkat-net/src/mock.rs:31-41 | joins the networks that share the table, with nothing registered |
| `LegacyMock.SharedMockState.WakeUp` | meerkat-net/src/mock.rs:53-60 | after its sleep a thread calls a network that lists the address, under the sender's name, or nobody; if the address was registered at the send, it is not nobody |
| `LegacyMock.ListenSendDeliver` | meerkat-net/src/mock.rs:46-82 | a message sent to an address that another network listens on reaches that network's callback |
| `Framing.FramesRoundTrip` | meerkat-net-v2/src/protocol.rs:9-32 | any list of messages with encodings below 2^32 bytes is received as that list, and following bytes are untouched |
| `Framing.CutFrameFails` | meerkat-net-v2/src/protocol.rs:25-31 | a stream that ends before the declared payload does yields an error, wherever it is cut |
| `Framing.ReceiveTakesDeclared` | meerkat-net-v2/src/protocol.rs:13-17 | for payloads of every size, a receive takes the first size-mod-2^32 bytes and leaves the rest on the stream |
| `Framing.PayloadWholeIffShort` | meerkat-net-v2/src/protocol.rs:14 | the payload arrives whole with nothing left behind iff it is shorter than 2^32 bytes |
| `Framing.BigEndianRoundTrip` | meerkat-net-v2/src/protocol.rs:14-27 | the four length bytes read back as the length, for every length below 2^32 |
| `Framing.BigEndianBytes` | meerkat-net-v2/src/protocol.rs:14 | the four length bytes one by one, most significant first |
| `Framing.FrameByLength` | meerkat-net-v2/src/protocol.rs:14-16 | a frame is four bytes that weigh 2^24, 2^16, 2^8 and 1 and add up to the payload's length mod 2^32, then the payload |
| `Framing.ReceiveByLength` | meerkat-net-v2/src/protocol.rs:25-30 | a receive takes as many bytes as the first four, so weighted, say, and fails if fewer arrive |
| `Framing.ReceivedIffWritten` | meerkat-net-v2/src/protocol.rs:9-32 | a message is received iff the stream took its whole frame, else the receive fails |
| `Framing.FailedYetReceived` | meerkat-net-v2/src/protocol.rs:15-18 | a send reported as failed has been received iff all bytes were written and only the flush failed; one reported as successful always has |
| `Framing.SendMessage` | meerkat-net-v2/src/protocol.rs:9-19 | what reaches the stream: nothing if encoding fails, the frame - length bytes most significant first, then the payload - or its prefix if the transport fails; success iff all was written and flushed |
| `TwoActors.ReceivedBetween` | meerkat-net-v2/src/actor.rs:389-432 | over every run of two actors joined by streams that arrive in any order: reported as received plus on the way includes all delivered messages and is included in the attempted ones, as multisets |
| `TwoActors.ReceivedAreAccepted` | meerkat-net-v2/src/actor.rs:415-432 | whatever one actor reports as received from the other is among the messages that the other accepted for it, no more often |
| `TwoActors.EndToEnd` | meerkat-net-v2/src/actor.rs:389-432 | with nothing waiting or on the way, no refused dial and no failed attempt, received equals accepted |
| `Framing.ReceiveMessage` | meerkat-net-v2/src/protocol.rs:22-32 | filling the two buffers in place computes the receive function and consumes what it says |

## Left out

- The width of message ids: they are natural numbers here, 64-bit counters in the code; they would wrap after 2^64 messages.
- Eventual delivery: a dial that fails later is an event the loop ignores (meerkat-net-v2/src/actor.rs:504), so messages can stay parked for ever; only safety and quiescence are stated.
- The tear-down of the event loop or of the manager's end of a channel: sends to a closed channel are ignored by the code, and the model's channels stay open.
- The consumption of the actor's event channel: its events are kept as one growing sequence. The mock's queues are consumed.
- The calls of the earlier network's connection callbacks; its on_message and on_send_error calls are in the model.
- Streams between two actors that are lost after all was written and flushed: in `TwoActors` they stay on their way.
- `TwoActors.ReceivedBetween`: concerns messages whose encoding exists, decodes back and is shorter than 2^32 bytes; `Framing` says what longer ones come to.
- Where in an incoming stream reading fails: a failed read adds no event, which is the same as no step.
- Calls of `dial` and of the plain `listen_on`: only their immediate answers are in the model; circuit listens are recorded with their argument.
- External addresses from identify events (meerkat-net-v2/src/actor.rs:497-503): they change nothing the model has.
- Multiaddr parsing and peer-id encoding: libp2p's; an arbitrary partial parse, and components with arbitrary text.
- `Addresses.ExtractorCorrespondence`: the components' names and values are free of slashes and are not "p2p"; printed multiaddrs that break this are not covered.
- JSON text: encoding and decoding are an arbitrary pair of partial functions, assumed inverse only in the round trip of lists.
- `Framing.ReceiveMessage`: allocation of a buffer of the declared length always succeeds here.
- Random and time-based peer ids: the id is a parameter. The code's ids could repeat; `MockNetwork`'s constructor says what happens then, but in the runs of `MockModel` a node joins under a fresh id only.
- `Agreement.QuiescentAgreement`: compares runs without relayed addresses or unregistered destinations; on those the two networks behave differently.
- Free-form error texts: failures are compared by id and kind.
- Swarm construction, transports, the wasm variant, kameo dispatch and trait forwarding: wiring without behaviour of its own.
- The framing in `meerkat-net/src/protocol.rs` and in the ping-pong demo: copies of the one modelled.
- The ping-pong demo and its pages: user interface and sockets.
