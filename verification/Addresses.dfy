/** Address text and its `/`-segments, the printed form of a multiaddr, the two
    peer-id extractors, and the address translation of a browser client. */
module Addresses {
  import opened Types

  const P2P := "p2p"
  const CIRCUIT := "p2p-circuit"
  const CIRCUIT_TEXT := "/" + CIRCUIT

  // --- Text and segments ---

  /** The pieces of s between its slashes; never empty. */
  function Split(s: string): (segs: seq<string>)
    ensures |segs| >= 1
  {
    if s == "" then [""]
    else if s[0] == '/' then [""] + Split(s[1..])
    else var rest := Split(s[1..]); [[s[0]] + rest[0]] + rest[1..]
  }

  predicate StartsWith(s: string, prefix: string) {
    prefix <= s
  }

  predicate Contains(s: string, sub: string) {
    sub <= s || (s != "" && Contains(s[1..], sub))
  }

  lemma {:induction false} SplitConcat(a: string, b: string)
    ensures Split(a + "/" + b) == Split(a) + Split(b)
  {
    var whole := a + "/" + b;
    if a == "" {
      assert whole[1..] == b;
    } else {
      assert whole[1..] == a[1..] + "/" + b;
      SplitConcat(a[1..], b);
    }
  }

  lemma {:induction false} SplitSlashFree(s: string)
    requires '/' !in s
    ensures Split(s) == [s]
  {
    if s != "" {
      SplitSlashFree(s[1..]);
      assert [s[0]] + s[1..] == s;
    }
  }

  /** What a textual prefix means for the segments: all but the last segment of the
      prefix are whole segments of the text; the last one may stop inside a segment. */
  ghost predicate SegmentwisePrefix(prefix: seq<string>, segs: seq<string>) {
    && 1 <= |prefix| <= |segs|
    && (forall i :: 0 <= i < |prefix| - 1 ==> prefix[i] == segs[i])
    && prefix[|prefix| - 1] <= segs[|prefix| - 1]
  }

  lemma {:induction false} StartsWithIffSegments(s: string, prefix: string)
    ensures StartsWith(s, prefix) <==> SegmentwisePrefix(Split(prefix), Split(s))
  {
    var ps, ss := Split(prefix), Split(s);
    if prefix == "" {
    } else if s == "" {
      if prefix[0] == '/' {
        assert |ps| >= 2;
      } else {
        assert ps[0] != "" && ss == [""];
      }
    } else {
      StartsWithIffSegments(s[1..], prefix[1..]);
      var ps', ss' := Split(prefix[1..]), Split(s[1..]);
      assert StartsWith(s, prefix) <==> s[0] == prefix[0] && StartsWith(s[1..], prefix[1..]) by {
        assert s == [s[0]] + s[1..] && prefix == [prefix[0]] + prefix[1..];
      }
      if s[0] == prefix[0] {
        if s[0] == '/' {
          assert ps == [""] + ps' && ss == [""] + ss';
          PrefixCons("", ps', ss');
        } else {
          PrefixGrow(s[0], ps', ss');
        }
      } else if s[0] == '/' {
        assert ss[0] == "" && ps[0] != "";
      } else if prefix[0] == '/' {
        assert ps[0] == "" && |ps| >= 2 && ss[0] != "";
      } else {
        assert ps[0][0] == prefix[0] && ss[0][0] == s[0];
      }
    }
  }

  lemma PrefixCons(head: string, ps: seq<string>, ss: seq<string>)
    requires |ps| >= 1 && |ss| >= 1
    ensures SegmentwisePrefix([head] + ps, [head] + ss) <==> SegmentwisePrefix(ps, ss)
  {
    var ps1, ss1 := [head] + ps, [head] + ss;
    assert forall i :: 0 <= i < |ps| ==> ps1[i + 1] == ps[i];
    assert forall i :: 0 <= i < |ss| ==> ss1[i + 1] == ss[i];
  }

  lemma PrefixGrow(c: char, ps: seq<string>, ss: seq<string>)
    requires |ps| >= 1 && |ss| >= 1
    ensures SegmentwisePrefix([[c] + ps[0]] + ps[1..], [[c] + ss[0]] + ss[1..]) <==> SegmentwisePrefix(ps, ss)
  {
    var ps1, ss1 := [[c] + ps[0]] + ps[1..], [[c] + ss[0]] + ss[1..];
    assert ps1[0][1..] == ps[0] && ss1[0][1..] == ss[0];
    assert ps1[0] == ss1[0] <==> ps[0] == ss[0];
    assert ps1[0] <= ss1[0] <==> ps[0] <= ss[0];
    assert forall i :: 1 <= i < |ps| ==> ps1[i] == ps[i];
    assert forall i :: 1 <= i < |ss| ==> ss1[i] == ss[i];
  }

  /** Some segment after the first begins with the word. */
  ghost predicate SomeBegins(segs: seq<string>, word: string) {
    exists i :: 1 <= i < |segs| && word <= segs[i]
  }

  lemma SomeBeginsCons(head: string, segs: seq<string>, word: string)
    requires segs != []
    ensures SomeBegins([head] + segs, word) <==> word <= segs[0] || SomeBegins(segs, word)
  {
    var all := [head] + segs;
    forall i | 0 <= i < |segs| ensures all[i + 1] == segs[i] {}
  }

  lemma SomeBeginsTail(segs: seq<string>, segs': seq<string>, word: string)
    requires segs != [] && segs' != [] && segs[1..] == segs'[1..]
    ensures SomeBegins(segs, word) <==> SomeBegins(segs', word)
  {
    assert |segs| == |segs'|;
    forall i | 1 <= i < |segs| ensures segs[i] == segs'[i] {
      assert segs[1..][i - 1] == segs'[1..][i - 1];
    }
  }

  /** A slash followed by a word occurs in a text iff some segment after the first begins with the word. */
  lemma {:induction false} ContainsIffSegments(s: string, word: string)
    requires '/' !in word
    ensures Contains(s, "/" + word) <==> SomeBegins(Split(s), word)
  {
    var sub := "/" + word;
    if s != "" {
      ContainsIffSegments(s[1..], word);
      var segs, rest := Split(s), Split(s[1..]);
      if s[0] == '/' {
        assert segs == [""] + rest;
        assert sub <= s <==> word <= s[1..] by {
          assert s == "/" + s[1..] && sub[1..] == word;
        }
        SplitSlashFree(word);
        StartsWithIffSegments(s[1..], word);
        SomeBeginsCons("", rest, word);
      } else {
        SomeBeginsTail(segs, rest, word);
      }
      hide SomeBegins;
    }
  }

  // --- Multiaddrs ---

  /** One protocol component of a multiaddr. */
  datatype Component =
    | P2p(peer: PeerId)
    | P2pCircuit
    | Bare(name: string)
    | Valued(name: string, value: string)

  type Multiaddr = seq<Component>

  function ComponentSegments(c: Component): seq<string> {
    match c
    case P2p(peer) => [P2P, peer]
    case P2pCircuit => [CIRCUIT]
    case Bare(name) => [name]
    case Valued(name, value) => [name, value]
  }

  function ComponentText(c: Component): string {
    match c
    case P2p(peer) => "/" + P2P + "/" + peer
    case P2pCircuit => "/" + CIRCUIT
    case Bare(name) => "/" + name
    case Valued(name, value) => "/" + name + "/" + value
  }

  function Segments(m: Multiaddr): seq<string> {
    if m == [] then [] else ComponentSegments(m[0]) + Segments(m[1..])
  }

  /** The text form of a multiaddr. */
  function Print(m: Multiaddr): Address {
    if m == [] then "" else ComponentText(m[0]) + Print(m[1..])
  }

  predicate WellFormedComponent(c: Component) {
    match c
    case P2p(peer) => '/' !in peer && peer != P2P
    case P2pCircuit => true
    case Bare(name) => '/' !in name && name != P2P
    case Valued(name, value) => '/' !in name && name != P2P && '/' !in value && value != P2P
  }

  /** No name or value holds a slash, and only a P2p component brings a "p2p" segment. */
  predicate WellFormed(m: Multiaddr) {
    forall i :: 0 <= i < |m| ==> WellFormedComponent(m[i])
  }

  lemma SplitSlashThen(word: string, rest: string)
    requires '/' !in word
    ensures Split("/" + word) == ["", word]
    ensures Split("/" + word + "/" + rest) == ["", word] + Split(rest)
  {
    SplitSlashFree(word);
    SplitConcat("", word);
    assert "" + "/" + word == "/" + word;
    SplitConcat("/" + word, rest);
    assert Split("") == [""];
  }

  lemma SplitComponent(c: Component)
    requires WellFormedComponent(c)
    ensures Split(ComponentText(c)) == [""] + ComponentSegments(c)
  {
    match c {
      case P2p(peer) => SplitSlashThen(P2P, peer); SplitSlashFree(peer);
      case P2pCircuit => SplitSlashThen(CIRCUIT, "");
      case Bare(name) => SplitSlashThen(name, "");
      case Valued(name, value) => SplitSlashThen(name, value); SplitSlashFree(value);
    }
  }

  lemma PrintLeadsWithSlash(m: Multiaddr)
    ensures Print(m) == "" || Print(m)[0] == '/'
  {
  }

  lemma {:induction false} SplitPrint(m: Multiaddr)
    requires WellFormed(m)
    ensures Split(Print(m)) == [""] + Segments(m)
  {
    if m != [] {
      SplitPrint(m[1..]);
      PrintLeadsWithSlash(m[1..]);
      SplitPrintCons(m[0], Print(m[1..]), Segments(m[1..]));
    }
  }

  lemma SplitPrintCons(c: Component, tail: string, segs: seq<string>)
    requires WellFormedComponent(c)
    requires tail == "" || tail[0] == '/'
    requires Split(tail) == [""] + segs
    ensures Split(ComponentText(c) + tail) == [""] + (ComponentSegments(c) + segs)
  {
    SplitComponent(c);
    SplitContinues(ComponentText(c), tail);
    hide Split, ComponentText, ComponentSegments, WellFormedComponent;
    assert Split(tail)[1..] == segs;
    assert [""] + ComponentSegments(c) + segs == [""] + (ComponentSegments(c) + segs);
  }

  lemma SplitContinues(head: string, tail: string)
    requires tail == "" || tail[0] == '/'
    ensures Split(head + tail) == Split(head) + Split(tail)[1..]
  {
    if tail == "" {
      assert head + tail == head;
    } else {
      assert head + tail == head + "/" + tail[1..];
      SplitConcat(head, tail[1..]);
    }
  }

  // --- Peer-id extractors ---

  function FirstPeer(m: Multiaddr): Option<PeerId> {
    if m == [] then None else if m[0].P2p? then Some(m[0].peer) else FirstPeer(m[1..])
  }

  function LastPeer(m: Multiaddr): Option<PeerId> {
    if m == [] then None
    else if m[|m| - 1].P2p? then Some(m[|m| - 1].peer)
    else LastPeer(m[..|m| - 1])
  }

  function PeerCount(m: Multiaddr): nat {
    if m == [] then 0 else (if m[0].P2p? then 1 else 0) + PeerCount(m[1..])
  }

  /** The actor's extractor: collect every peer id, then take the last one. */
  method ExtractPeerId(m: Multiaddr) returns (r: Option<PeerId>)
    ensures r == LastPeer(m)
  {
    var peers: seq<PeerId> := [];
    var i := 0;
    while i < |m|
      invariant 0 <= i <= |m|
      invariant LastPeer(m[..i]) == if peers == [] then None else Some(peers[|peers| - 1])
    {
      assert m[..i + 1][..i] == m[..i];
      if m[i].P2p? {
        peers := peers + [m[i].peer];
      }
      i := i + 1;
    }
    assert m[..|m|] == m;
    return if peers == [] then None else Some(peers[|peers| - 1]);
  }

  /** The value after the first "p2p" segment that has a successor. */
  function FirstP2pSegment(segs: seq<string>): Option<string> {
    if |segs| < 2 then None
    else if segs[0] == P2P then Some(segs[1])
    else FirstP2pSegment(segs[1..])
  }

  /** The value after the last "p2p" segment that has a successor. */
  function LastP2pSegment(segs: seq<string>): Option<string> {
    if |segs| < 2 then None
    else if segs[|segs| - 2] == "p2p" then Some(segs[|segs| - 1])
    else LastP2pSegment(segs[..|segs| - 1])
  }

  /** The peer that the mock network extracts from an address text. */
  function MockTarget(addr: Address): Option<PeerId> {
    FirstP2pSegment(Split(addr))
  }

  /** Position i holds the first "p2p" segment that has a successor. */
  ghost predicate FirstP2pAt(segs: seq<string>, i: int) {
    && 0 <= i && i + 1 < |segs| && segs[i] == "p2p"
    && forall j :: 0 <= j < i ==> segs[j] != "p2p"
  }

  /** What is extracted is the segment behind the first "p2p" one, and nothing if there is none. */
  lemma {:induction false} FirstP2pIsFirst(segs: seq<string>)
    ensures forall i :: FirstP2pAt(segs, i) ==> FirstP2pSegment(segs) == Some(segs[i + 1])
    ensures FirstP2pSegment(segs).Some? ==> exists i :: FirstP2pAt(segs, i)
  {
    if |segs| >= 2 && segs[0] != "p2p" {
      var rest := segs[1..];
      FirstP2pIsFirst(rest);
      forall i | FirstP2pAt(segs, i)
        ensures FirstP2pAt(rest, i - 1)
      {
        assert forall j :: 0 <= j < i - 1 ==> rest[j] == segs[j + 1];
      }
      if i :| FirstP2pAt(rest, i) {
        assert forall j :: 0 < j <= i ==> segs[j] == rest[j - 1];
        assert FirstP2pAt(segs, i + 1);
      }
    } else if |segs| >= 2 {
      assert FirstP2pAt(segs, 0);
    }
  }

  /** The mock's extractor: scan the segments, return at the first match. */
  method ExtractPeerIdFromAddr(addr: Address) returns (r: Option<PeerId>)
    ensures r == MockTarget(addr)
  {
    var parts := Split(addr);
    var i := 0;
    while i < |parts|
      invariant 0 <= i <= |parts|
      invariant MockTarget(addr) == FirstP2pSegment(parts[i..])
    {
      if parts[i] == P2P && i + 1 < |parts| {
        return Some(parts[i + 1]);
      }
      assert |parts[i..]| >= 2 ==> parts[i..][1..] == parts[i + 1..];
      i := i + 1;
    }
    return None;
  }

  lemma {:induction false} FirstSegmentIsFirstPeer(m: Multiaddr)
    requires WellFormed(m)
    ensures FirstP2pSegment(Segments(m)) == FirstPeer(m)
  {
    if m != [] {
      var segs, rest := Segments(m), Segments(m[1..]);
      FirstSegmentIsFirstPeer(m[1..]);
      assert WellFormedComponent(m[0]);
      if !m[0].P2p? {
        assert segs == ComponentSegments(m[0]) + rest;
        assert segs[1..] == ComponentSegments(m[0])[1..] + rest;
        if m[0].Valued? {
          assert segs[1..][1..] == rest;
        } else {
          assert segs[1..] == rest;
        }
      }
    }
  }

  lemma {:induction false} LastPeerFromFront(m: Multiaddr)
    ensures FirstPeer(m).Some? <==> LastPeer(m).Some?
    ensures LastPeer(m) == if m == [] then None
                           else if LastPeer(m[1..]).Some? then LastPeer(m[1..])
                           else FirstPeer(m[..1])
  {
    if m != [] {
      LastPeerFromFront(m[1..]);
      if |m| > 1 {
        LastPeerFromFront(m[..|m| - 1]);
        assert m[..|m| - 1][1..] == m[1..][..|m| - 2];
        assert m[..|m| - 1][..1] == m[..1];
      }
    }
  }

  /** The two extractors on the printed form of the same multiaddr: the mock takes the
      first peer, the actor the last one; with at most one peer they cannot differ. */
  lemma ExtractorCorrespondence(m: Multiaddr)
    requires WellFormed(m)
    ensures MockTarget(Print(m)) == FirstPeer(m)
    ensures MockTarget(Print(m)) == LastPeer(m) <==> FirstPeer(m) == LastPeer(m)
    ensures PeerCount(m) <= 1 ==> MockTarget(Print(m)) == LastPeer(m)
  {
    SplitPrint(m);
    var segs := Segments(m);
    assert ([""] + segs)[1..] == segs;
    FirstSegmentIsFirstPeer(m);
    AtMostOnePeer(m);
  }

  lemma {:induction false} AtMostOnePeer(m: Multiaddr)
    ensures PeerCount(m) == 0 ==> FirstPeer(m) == None && LastPeer(m) == None
    ensures PeerCount(m) <= 1 ==> FirstPeer(m) == LastPeer(m)
  {
    if m != [] {
      AtMostOnePeer(m[1..]);
      LastPeerFromFront(m);
    }
  }

  /** Two hops: the mock would deliver to the relay, the actor to the destination. */
  lemma ExtractorsDisagreeOnCircuits()
    ensures var m := [P2p("relay"), P2pCircuit, P2p("dest")];
            WellFormed(m) && MockTarget(Print(m)) == Some("relay") && LastPeer(m) == Some("dest")
  {
    var m := [P2p("relay"), P2pCircuit, P2p("dest")];
    assert WellFormed(m);
    ExtractorCorrespondence(m);
  }

  // --- Circuit addresses ---

  /** Only a circuit component brings a segment that begins like one. */
  predicate CircuitNamesReserved(m: Multiaddr) {
    forall i :: 0 <= i < |m| ==> CircuitNameReserved(m[i])
  }

  predicate CircuitNameReserved(c: Component) {
    match c
    case P2p(peer) => !StartsWith(peer, CIRCUIT)
    case P2pCircuit => true
    case Bare(name) => !StartsWith(name, CIRCUIT)
    case Valued(name, value) => !StartsWith(name, CIRCUIT) && !StartsWith(value, CIRCUIT)
  }

  ghost predicate SomeCircuitSegment(segs: seq<string>) {
    exists i :: 0 <= i < |segs| && CIRCUIT <= segs[i]
  }

  lemma SomeCircuitSegmentConcat(a: seq<string>, b: seq<string>)
    ensures SomeCircuitSegment(a + b) <==> SomeCircuitSegment(a) || SomeCircuitSegment(b)
  {
    assert forall i :: 0 <= i < |a| ==> (a + b)[i] == a[i];
    assert forall i :: 0 <= i < |b| ==> (a + b)[|a| + i] == b[i];
  }

  lemma {:induction false} CircuitSegment(m: Multiaddr)
    ensures P2pCircuit in m ==> SomeCircuitSegment(Segments(m))
    ensures CircuitNamesReserved(m) && P2pCircuit !in m ==> !SomeCircuitSegment(Segments(m))
  {
    if m != [] {
      CircuitSegment(m[1..]);
      var head := ComponentSegments(m[0]);
      SomeCircuitSegmentConcat(head, Segments(m[1..]));
      assert m == [m[0]] + m[1..];
      if m[0] == P2pCircuit {
        assert head[0] == CIRCUIT;
      } else if CircuitNamesReserved(m) {
        assert CircuitNameReserved(m[0]) && !(CIRCUIT <= P2P);
      }
    }
  }

  /** The textual circuit test of the event loop is the test for a circuit component. */
  lemma CircuitTextIffComponent(m: Multiaddr)
    requires WellFormed(m) && CircuitNamesReserved(m)
    ensures Contains(Print(m), "/p2p-circuit") <==> P2pCircuit in m
  {
    SplitPrint(m);
    assert "/p2p-circuit" == "/" + CIRCUIT;
    ContainsIffSegments(Print(m), CIRCUIT);
    CircuitSegment(m);
    BeginsBehindFirst("", Segments(m));
    hide Split, Print, Contains, Segments, SomeBegins, SomeCircuitSegment, WellFormed, CircuitNamesReserved;
  }

  lemma BeginsBehindFirst(head: string, segs: seq<string>)
    ensures SomeBegins([head] + segs, CIRCUIT) <==> SomeCircuitSegment(segs)
  {
    var all := [head] + segs;
    forall i | 0 <= i < |segs| ensures all[i + 1] == segs[i] {}
    forall i | 1 <= i < |all| ensures all[i] == segs[i - 1] {}
  }

  // --- Translation ---

  /** The textual test for an address that already runs through the relay. */
  predicate ThroughRelay(relay: Address, canonical: Address) {
    StartsWith(canonical, relay) && Contains(canonical, CIRCUIT_TEXT)
  }

  /** The address a node dials for a canonical address. Never fails. */
  function TranslateAddress(node: NodeType, canonical: Address): Address {
    match node
    case Server => canonical
    case BrowserClient(relay) =>
      if ThroughRelay(relay, canonical) then canonical
      else if StartsWith(canonical, "/ip4/") || StartsWith(canonical, "/ip6/") then
        relay + CIRCUIT_TEXT + "/" + canonical
      else canonical
  }

  lemma {:induction false} ContainsAfter(a: string, sub: string, b: string)
    ensures Contains(a + sub + b, sub)
  {
    if a == "" {
      assert a + sub + b == sub + b;
    } else {
      ContainsAfter(a[1..], sub, b);
      assert (a + sub + b)[1..] == a[1..] + sub + b;
    }
  }

  lemma TranslateIdempotent(node: NodeType, canonical: Address)
    ensures TranslateAddress(node, TranslateAddress(node, canonical)) == TranslateAddress(node, canonical)
  {
    if node.BrowserClient? {
      var relay, rest := node.relayServer, "/" + canonical;
      ContainsAfter(relay, CIRCUIT_TEXT, rest);
      assert relay + CIRCUIT_TEXT + rest == relay + CIRCUIT_TEXT + "/" + canonical;
    }
  }

  lemma {:induction false} LastSegmentOfSuffix(front: seq<string>, segs: seq<string>)
    requires LastP2pSegment(segs).Some?
    ensures LastP2pSegment(front + segs) == LastP2pSegment(segs)
  {
    var all := front + segs;
    assert all[|all| - 1] == segs[|segs| - 1] && all[|all| - 2] == segs[|segs| - 2];
    if segs[|segs| - 2] != P2P {
      assert all[..|all| - 1] == front + segs[..|segs| - 1];
      LastSegmentOfSuffix(front, segs[..|segs| - 1]);
    }
  }

  lemma SplitTwice(a: string, word: string, b: string)
    requires '/' !in word
    ensures Split(a + "/" + word + "/" + b) == Split(a) + [word] + Split(b)
  {
    SplitConcat(a + "/" + word, b);
    SplitConcat(a, word);
    SplitSlashFree(word);
  }

  lemma {:induction false} SegmentsSnoc(m: Multiaddr, c: Component)
    ensures Segments(m + [c]) == Segments(m) + ComponentSegments(c)
  {
    if m == [] {
      assert m + [c] == [c];
      assert Segments([c]) == ComponentSegments(c) + [];
    } else {
      SegmentsSnoc(m[1..], c);
      assert (m + [c])[1..] == m[1..] + [c];
      assert ComponentSegments(m[0]) + (Segments(m[1..]) + ComponentSegments(c)) ==
             ComponentSegments(m[0]) + Segments(m[1..]) + ComponentSegments(c);
    }
  }

  /** What the actor's extractor reads from a multiaddr, read from its text instead. */
  lemma LastSegmentIsLastPeer(m: Multiaddr)
    requires WellFormed(m)
    ensures LastP2pSegment(Split(Print(m))) == LastPeer(m)
  {
    SplitPrint(m);
    LastSegmentOfComponents(m);
  }

  lemma {:induction false} LastSegmentOfComponents(m: Multiaddr)
    requires WellFormed(m)
    ensures LastP2pSegment([""] + Segments(m)) == LastPeer(m)
    ensures ([""] + Segments(m))[|Segments(m)|] != P2P
  {
    if m != [] {
      var front, c := m[..|m| - 1], m[|m| - 1];
      LastSegmentOfComponents(front);
      SegmentsSnoc(front, c);
      assert front + [c] == m;
      LastOfComponent([""] + Segments(front), c);
      assert WellFormedComponent(c);
      hide Segments, LastP2pSegment, ComponentSegments, WellFormedComponent;
      assert [""] + Segments(m) == [""] + Segments(front) + ComponentSegments(c);
    }
  }

  lemma LastOfComponent(segs: seq<string>, c: Component)
    requires WellFormedComponent(c) && segs != [] && segs[|segs| - 1] != P2P
    ensures var all := segs + ComponentSegments(c);
            && all[|all| - 1] != P2P
            && LastP2pSegment(all) == if c.P2p? then Some(c.peer) else LastP2pSegment(segs)
  {
    var all := segs + ComponentSegments(c);
    if c.Valued? {
      assert all[..|all| - 1] == segs + [c.name];
      assert all[..|all| - 1][..|segs|] == segs;
    } else if !c.P2p? {
      assert all[..|all| - 1] == segs;
    }
  }

  /** A translated address has exactly the relay's segments, a circuit segment and the
      canonical segments, so the last "p2p" value of its text is still the canonical one's. */
  lemma TranslationPrependsRelayHop(relay: Address, canonical: Address)
    requires TranslateAddress(BrowserClient(relay), canonical) != canonical
    ensures Split(TranslateAddress(BrowserClient(relay), canonical)) ==
              Split(relay) + ["p2p-circuit"] + Split(canonical)
    ensures LastP2pSegment(Split(canonical)).Some? ==>
              LastP2pSegment(Split(TranslateAddress(BrowserClient(relay), canonical))) ==
              LastP2pSegment(Split(canonical))
  {
    PrependSegments(relay, canonical);
    if LastP2pSegment(Split(canonical)).Some? {
      LastSegmentOfSuffix(Split(relay) + [CIRCUIT], Split(canonical));
    }
  }

  /** The segment right behind a circuit hop is empty. */
  ghost predicate HasEmptyHop(addr: Address) {
    exists i :: EmptyHopAt(Split(addr), i)
  }

  predicate EmptyHopAt(segs: seq<string>, i: int) {
    1 <= i < |segs| && segs[i - 1] == "p2p-circuit" && segs[i] == ""
  }

  /** Every translated address has an empty segment, behind the circuit hop. */
  lemma TranslationLeavesEmptyHop(relay: Address, canonical: Address)
    requires TranslateAddress(BrowserClient(relay), canonical) != canonical
    ensures var segs := Split(TranslateAddress(BrowserClient(relay), canonical));
            |segs| > |Split(relay)| + 1 && segs[|Split(relay)| + 1] == ""
    ensures HasEmptyHop(TranslateAddress(BrowserClient(relay), canonical))
  {
    TranslationPrependsRelayHop(relay, canonical);
    assert canonical[0] == '/';
    assert Split(canonical)[0] == "";
    assert EmptyHopAt(Split(TranslateAddress(BrowserClient(relay), canonical)), |Split(relay)| + 1);
  }

  /** When the translation changes an address: on a browser client, if the address does not pass for
      one through the relay and starts like an IP address. */
  predicate NeedsRelayHop(node: NodeType, canonical: Address) {
    && node.BrowserClient? && !ThroughRelay(node.relayServer, canonical)
    && (StartsWith(canonical, "/ip4/") || StartsWith(canonical, "/ip6/"))
  }

  lemma ChangedIffNeedsRelayHop(node: NodeType, canonical: Address)
    ensures TranslateAddress(node, canonical) != canonical <==> NeedsRelayHop(node, canonical)
  {
    hide ThroughRelay;
    if NeedsRelayHop(node, canonical) {
      assert |TranslateAddress(node, canonical)| > |canonical|;
    }
  }

  /** No name and no value is empty. */
  predicate Named(m: Multiaddr) {
    forall i :: 0 <= i < |m| ==> NamedComponent(m[i])
  }

  predicate NamedComponent(c: Component) {
    match c
    case P2p(peer) => peer != ""
    case P2pCircuit => true
    case Bare(name) => name != ""
    case Valued(name, value) => name != "" && value != ""
  }

  lemma {:induction false} NamedSegments(m: Multiaddr)
    requires Named(m)
    ensures "" !in Segments(m)
  {
    if m != [] {
      NamedSegments(m[1..]);
      assert NamedComponent(m[0]);
    }
  }

  lemma NamedHasNoEmptyHop(m: Multiaddr)
    requires WellFormed(m) && Named(m)
    ensures !HasEmptyHop(Print(m))
  {
    SplitPrint(m);
    NamedSegments(m);
    var segs := Split(Print(m));
    forall i
      ensures !EmptyHopAt(segs, i)
    {
      if 1 <= i < |segs| {
        assert segs[i] == Segments(m)[i - 1];
      }
    }
  }

  /** So a translated address is the text of no multiaddr. */
  lemma TranslationPrintsNoMultiaddr(relay: Address, canonical: Address, m: Multiaddr)
    requires TranslateAddress(BrowserClient(relay), canonical) != canonical
    requires WellFormed(m) && Named(m)
    ensures Print(m) != TranslateAddress(BrowserClient(relay), canonical)
  {
    TranslationLeavesEmptyHop(relay, canonical);
    NamedHasNoEmptyHop(m);
  }

  /** The text that is dialled for an address that gets the relay hop. */
  lemma TranslationText(relay: Address, canonical: Address)
    requires NeedsRelayHop(BrowserClient(relay), canonical)
    ensures TranslateAddress(BrowserClient(relay), canonical) == relay + "/p2p-circuit/" + canonical
  {
    hide ThroughRelay;
    assert CIRCUIT_TEXT + "/" == "/p2p-circuit/";
    assert relay + CIRCUIT_TEXT + "/" + canonical == relay + (CIRCUIT_TEXT + "/") + canonical;
  }

  /** The words of address text. */
  lemma PrintedWords(peer: PeerId, name: string, value: string)
    ensures Print([P2p(peer)]) == "/p2p/" + peer && Print([P2pCircuit]) == "/p2p-circuit"
    ensures Print([Bare(name)]) == "/" + name && Print([Valued(name, value)]) == "/" + name + "/" + value
  {
    assert Print([]) == "";
    assert "/" + P2P + "/" + peer + "" == "/p2p/" + peer;
    assert "/" + CIRCUIT + "" == "/p2p-circuit";
    assert "/" + name + "" == "/" + name && "/" + name + "/" + value + "" == "/" + name + "/" + value;
  }

  lemma PrependSegments(relay: Address, canonical: Address)
    ensures Split(relay + CIRCUIT_TEXT + "/" + canonical) == Split(relay) + [CIRCUIT] + Split(canonical)
  {
    SplitTwice(relay, CIRCUIT, canonical);
    assert relay + CIRCUIT_TEXT == relay + "/" + CIRCUIT;
  }

  /** What the textual test is meant to decide: the relay's hops come first, whole, and a
      circuit hop follows them. */
  ghost predicate RoutedThroughRelay(relay: seq<string>, canonical: seq<string>) {
    && relay <= canonical
    && "p2p-circuit" in canonical[|relay|..]
  }

  /** The textual test on arbitrary strings, read on segments. */
  lemma ThroughRelayOnSegments(relay: Address, canonical: Address)
    ensures ThroughRelay(relay, canonical) <==>
              && SegmentwisePrefix(Split(relay), Split(canonical))
              && SomeBegins(Split(canonical), "p2p-circuit")
  {
    StartsWithIffSegments(canonical, relay);
    ContainsIffSegments(canonical, CIRCUIT);
  }

  /** For all addresses: the textual test never misses a relayed address, and it is wrong
      exactly when the segment in which the relay's text ends goes on in the canonical
      address, or no circuit hop follows the relay's own segments. */
  lemma RoutedIffThroughRelayAnd(relay: Address, canonical: Address)
    ensures var rs, cs := Split(relay), Split(canonical);
            RoutedThroughRelay(rs, cs) <==>
              && ThroughRelay(relay, canonical)
              && |rs| <= |cs|
              && |rs[|rs| - 1]| == |cs[|rs| - 1]|
              && "p2p-circuit" in cs[|rs|..]
  {
    ThroughRelayOnSegments(relay, canonical);
    var rs, cs := Split(relay), Split(canonical);
    if RoutedThroughRelay(rs, cs) {
      var i :| 0 <= i < |cs[|rs|..]| && cs[|rs|..][i] == CIRCUIT;
      assert cs[|rs| + i] == CIRCUIT;
    } else if SegmentwisePrefix(rs, cs) && |rs[|rs| - 1]| == |cs[|rs| - 1]| {
      assert rs[|rs| - 1] == cs[|rs| - 1];
      assert rs <= cs;
    }
  }

  /** Where the textual test decides the question: only circuit hops look like circuit hops,
      the relay has none after its first segment, and the relay's last segment does not go on. */
  lemma ThroughRelayIsExact(relay: Address, canonical: Address)
    requires forall i :: 1 <= i < |Split(relay)| ==> !("p2p-circuit" <= Split(relay)[i])
    requires forall i :: 1 <= i < |Split(canonical)| ==>
               ("p2p-circuit" <= Split(canonical)[i] <==> Split(canonical)[i] == "p2p-circuit")
    requires |Split(relay)| <= |Split(canonical)| ==>
               |Split(relay)[|Split(relay)| - 1]| == |Split(canonical)[|Split(relay)| - 1]|
    ensures ThroughRelay(relay, canonical) <==> RoutedThroughRelay(Split(relay), Split(canonical))
  {
    RoutedIffThroughRelayAnd(relay, canonical);
    ThroughRelayOnSegments(relay, canonical);
    if ThroughRelay(relay, canonical) {
      var i :| 1 <= i < |Split(canonical)| && CIRCUIT <= Split(canonical)[i];
      CircuitFollowsRelay(Split(relay), Split(canonical), i);
    }
  }

  lemma CircuitFollowsRelay(rs: seq<string>, cs: seq<string>, i: nat)
    requires SegmentwisePrefix(rs, cs) && |rs[|rs| - 1]| == |cs[|rs| - 1]|
    requires forall k :: 1 <= k < |rs| ==> !(CIRCUIT <= rs[k])
    requires 1 <= i < |cs| && cs[i] == CIRCUIT
    ensures CIRCUIT in cs[|rs|..]
  {
    assert rs[|rs| - 1] == cs[|rs| - 1];
    assert forall k :: 0 <= k < |rs| ==> rs[k] == cs[k];
    assert i >= |rs|;
    assert cs[|rs|..][i - |rs|] == CIRCUIT;
  }

  /** A relay whose address text goes on where ours ends, say by more digits of a port, passes for
      our relay: no hop is prepended although the address does not run through our relay. */
  lemma ThroughRelayMistakesLongerRelay(relay: Address, more: string, rest: string)
    requires more != "" && '/' !in more
    ensures var canonical := relay + more + CIRCUIT_TEXT + rest;
            && ThroughRelay(relay, canonical)
            && !RoutedThroughRelay(Split(relay), Split(canonical))
            && TranslateAddress(BrowserClient(relay), canonical) == canonical
  {
    var canonical, tail := relay + more + CIRCUIT_TEXT + rest, CIRCUIT + rest;
    ContainsAfter(relay + more, CIRCUIT_TEXT, rest);
    assert canonical[..|relay|] == relay;
    SplitConcat(relay + more, tail);
    assert canonical == relay + more + "/" + tail;
    SplitGrowsLast(relay, more);
    GrownIsNotRouted(Split(relay), more, Split(tail));
    hide Split, Contains, RoutedThroughRelay, GrowLast;
  }

  lemma GrownIsNotRouted(segs: seq<string>, more: string, tail: seq<string>)
    requires segs != [] && more != ""
    ensures !RoutedThroughRelay(segs, GrowLast(segs, more) + tail)
  {
    var n, grown := |segs| - 1, GrowLast(segs, more) + tail;
    assert grown[n] == segs[n] + more;
    assert |grown[n]| != |segs[n]|;
  }

  lemma {:induction false} SplitGrowsLast(s: string, more: string)
    requires '/' !in more
    ensures Split(s + more) == GrowLast(Split(s), more)
  {
    if s == "" {
      SplitSlashFree(more);
      assert s + more == more;
    } else {
      SplitGrowsLast(s[1..], more);
      assert (s + more)[1..] == s[1..] + more;
      GrowLastCons(s[0], Split(s[1..]), more);
    }
  }

  function GrowLast(segs: seq<string>, more: string): seq<string>
    requires |segs| >= 1
  {
    segs[..|segs| - 1] + [segs[|segs| - 1] + more]
  }

  lemma GrowLastCons(c: char, segs: seq<string>, more: string)
    requires |segs| >= 1
    ensures GrowLast([""] + segs, more) == [""] + GrowLast(segs, more)
    ensures GrowLast([[c] + segs[0]] + segs[1..], more) ==
            [[c] + GrowLast(segs, more)[0]] + GrowLast(segs, more)[1..]
  {
    if |segs| == 1 {
      assert [c] + (segs[0] + more) == [c] + segs[0] + more;
    }
  }
}
