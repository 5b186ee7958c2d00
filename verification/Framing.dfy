/** Messages on a byte stream: a 4-byte big-endian length, then that many bytes of payload. */
module Framing {
  import opened Types
  import opened Collections

  const LENGTH_SPAN: nat := 0x1_0000_0000

  /** Serialisation as an arbitrary pair of partial functions. */
  datatype Codec = Codec(encode: Message -> Option<seq<Byte>>, decode: seq<Byte> -> Option<Message>)

  ghost predicate Inverse(codec: Codec, msg: Message) {
    codec.encode(msg).Some? && codec.decode(codec.encode(msg).value) == Some(msg)
  }

  // --- Lengths ---

  function LowByte(n: nat): Byte {
    n % 0x100
  }

  function BigEndian(n: nat): (bytes: seq<Byte>)
    ensures |bytes| == 4
  {
    var a := n / 0x100;
    var b := a / 0x100;
    [LowByte(b / 0x100), LowByte(b), LowByte(a), LowByte(n)]
  }

  function FromBigEndian(bytes: seq<Byte>): nat
    requires |bytes| == 4
  {
    var b0: nat, b1: nat, b2: nat, b3: nat := bytes[0], bytes[1], bytes[2], bytes[3];
    ((b0 * 0x100 + b1) * 0x100 + b2) * 0x100 + b3
  }

  lemma ByteSplit(n: nat)
    ensures n == n / 0x100 * 0x100 + n % 0x100
  {
  }

  lemma BigEndianRoundTrip(n: nat)
    requires n < LENGTH_SPAN
    ensures FromBigEndian(BigEndian(n)) == n
  {
    var a := n / 0x100;
    var b := a / 0x100;
    var c := b / 0x100;
    ByteSplit(n);
    ByteSplit(a);
    ByteSplit(b);
    assert a < 0x100_0000 && b < 0x1_0000 && c < 0x100;
    assert LowByte(c) == c;
  }

  /** The value of four bytes, the first one weighing most. */
  function Weighted(bytes: seq<Byte>): nat
    requires |bytes| == 4
  {
    var b0: nat, b1: nat, b2: nat, b3: nat := bytes[0], bytes[1], bytes[2], bytes[3];
    0x100_0000 * b0 + 0x1_0000 * b1 + 0x100 * b2 + b3
  }

  /** The order of the bytes on the wire. */
  lemma BigEndianBytes(n: nat)
    requires n < 0x1_0000_0000
    ensures BigEndian(n)[0] == n / 0x100_0000
    ensures BigEndian(n)[1] == n / 0x1_0000 % 0x100
    ensures BigEndian(n)[2] == n / 0x100 % 0x100
    ensures BigEndian(n)[3] == n % 0x100
    ensures Weighted(BigEndian(n)) == n
  {
    BigEndianRoundTrip(n);
    FromBigEndianWeighs(BigEndian(n));
  }

  lemma FromBigEndianWeighs(bytes: seq<Byte>)
    requires |bytes| == 4
    ensures FromBigEndian(bytes) == Weighted(bytes)
  {
  }

  /** What is written for a payload; the length is cast to 32 bits. */
  function Frame(data: seq<Byte>): seq<Byte> {
    BigEndian(|data| % LENGTH_SPAN) + data
  }

  /** What one receive makes of the bytes on a stream: the message, if any, and what it leaves. */
  function Receive(codec: Codec, input: seq<Byte>): (Option<Message>, seq<Byte>) {
    if |input| < 4 then (None, [])
    else
      var n := FromBigEndian(input[..4]);
      if |input| - 4 < n then (None, []) else (codec.decode(input[4..4 + n]), input[4 + n..])
  }

  /** What a receive does, in terms of the bytes that arrive: the first four of them weigh up to the
      length of the payload, which is taken whole and decoded, or else the receive fails. */
  lemma ReceiveByLength(codec: Codec, input: seq<Byte>)
    ensures |input| < 4 ==> Receive(codec, input) == (None, [])
    ensures |input| >= 4 ==>
              var n := Weighted(input[..4]);
              Receive(codec, input) ==
              if |input| < 4 + n then (None, []) else (codec.decode(input[4..4 + n]), input[4 + n..])
  {
    if |input| >= 4 {
      FromBigEndianWeighs(input[..4]);
    }
    hide FromBigEndian, Weighted;
  }

  /** What is put on the wire: four bytes that weigh up to the payload's length mod 2^32, then the payload. */
  lemma FrameByLength(data: seq<Byte>)
    ensures |Frame(data)| == 4 + |data| && Frame(data)[4..] == data
    ensures Weighted(Frame(data)[..4]) == |data| % 0x1_0000_0000
  {
    BigEndianBytes(|data| % 0x1_0000_0000);
    assert Frame(data)[..4] == BigEndian(|data| % 0x1_0000_0000);
    hide BigEndian, Weighted;
  }

  // --- Round trips ---

  lemma FrameDeclares(data: seq<Byte>, rest: seq<Byte>)
    ensures |Frame(data) + rest| == 4 + |data| + |rest|
    ensures FromBigEndian((Frame(data) + rest)[..4]) == |data| % LENGTH_SPAN
    ensures (Frame(data) + rest)[4..] == data + rest
  {
    BigEndianRoundTrip(|data| % LENGTH_SPAN);
    assert (Frame(data) + rest)[..4] == BigEndian(|data| % LENGTH_SPAN);
  }

  /** For payloads of every size: a receive takes the first size-mod-2^32 bytes of the payload
      and leaves the rest of it on the stream. */
  lemma ReceiveTakesDeclared(codec: Codec, data: seq<Byte>, rest: seq<Byte>)
    ensures Receive(codec, Frame(data) + rest) ==
            (codec.decode(data[..|data| % LENGTH_SPAN]), data[|data| % LENGTH_SPAN..] + rest)
  {
    var input, n := Frame(data) + rest, |data| % LENGTH_SPAN;
    FrameDeclares(data, rest);
    assert n <= |data|;
    assert input[4..4 + n] == input[4..][..n] == (data + rest)[..n] == data[..n];
    assert input[4 + n..] == input[4..][n..] == (data + rest)[n..] == data[n..] + rest;
  }

  /** The payload arrives whole, and nothing of it is left behind, exactly if it is shorter than 2^32. */
  lemma PayloadWholeIffShort(codec: Codec, data: seq<Byte>, rest: seq<Byte>)
    ensures Receive(codec, Frame(data) + rest).1 == rest <==> |data| < LENGTH_SPAN
    ensures |data| < LENGTH_SPAN ==> Receive(codec, Frame(data) + rest) == (codec.decode(data), rest)
  {
    ReceiveTakesDeclared(codec, data, rest);
    DeclaredIffShort(|data|);
    hide Receive, Frame;
    var n := |data| % LENGTH_SPAN;
    if |data| < LENGTH_SPAN {
      assert data[..n] == data && data[n..] + rest == rest;
    } else {
      assert |data[n..] + rest| > |rest|;
    }
  }

  lemma DeclaredIffShort(n: nat)
    ensures n < LENGTH_SPAN ==> n % LENGTH_SPAN == n
    ensures n >= LENGTH_SPAN ==> n % LENGTH_SPAN < n
  {
  }

  /** All messages of the list are inverse under the codec and short enough to frame. */
  ghost predicate Sendable(codec: Codec, msgs: seq<Message>) {
    forall i :: 0 <= i < |msgs| ==> Inverse(codec, msgs[i]) && |codec.encode(msgs[i]).value| < LENGTH_SPAN
  }

  function Frames(codec: Codec, msgs: seq<Message>): seq<Byte> {
    if msgs == [] then []
    else (match codec.encode(msgs[0])
          case None => []
          case Some(data) => Frame(data))
         + Frames(codec, msgs[1..])
  }

  /** Receive up to n messages; stops at the first error. */
  function ReceiveMany(codec: Codec, n: nat, input: seq<Byte>): (seq<Message>, seq<Byte>) {
    if n == 0 then ([], input)
    else
      var (msg, rest) := Receive(codec, input);
      if msg == None then ([], rest)
      else
        var (msgs, rest') := ReceiveMany(codec, n - 1, rest);
        ([msg.value] + msgs, rest')
  }

  /** Any list of messages sent one after the other is received as that list, and bytes that
      follow are untouched. */
  lemma {:induction false} FramesRoundTrip(codec: Codec, msgs: seq<Message>, rest: seq<Byte>)
    requires Sendable(codec, msgs)
    ensures ReceiveMany(codec, |msgs|, Frames(codec, msgs) + rest) == (msgs, rest)
  {
    if msgs == [] {
      assert Frames(codec, msgs) + rest == rest;
    } else {
      assert Inverse(codec, msgs[0]);
      var data, tail := codec.encode(msgs[0]).value, Frames(codec, msgs[1..]) + rest;
      FramesRoundTrip(codec, msgs[1..], rest);
      FramesHead(codec, msgs, rest);
      PayloadWholeIffShort(codec, data, tail);
      hide *;
      ReceiveOneMore(codec, |msgs|, Frame(data) + tail, msgs[0], tail);
      assert msgs == [msgs[0]] + msgs[1..];
    }
  }

  lemma FramesHead(codec: Codec, msgs: seq<Message>, rest: seq<Byte>)
    requires msgs != [] && codec.encode(msgs[0]).Some?
    ensures Frames(codec, msgs) + rest == Frame(codec.encode(msgs[0]).value) + (Frames(codec, msgs[1..]) + rest)
  {
    Regroup(Frame(codec.encode(msgs[0]).value), Frames(codec, msgs[1..]), rest);
  }

  lemma ReceiveOneMore(codec: Codec, n: nat, input: seq<Byte>, msg: Message, rest: seq<Byte>)
    requires n > 0 && Receive(codec, input) == (Some(msg), rest)
    ensures var (msgs, rest') := ReceiveMany(codec, n - 1, rest);
            ReceiveMany(codec, n, input) == ([msg] + msgs, rest')
  {
    hide Receive;
  }

  /** A stream that ends before the declared payload is complete yields an error, wherever it
      is cut; for payloads below 2^32 that is every strict prefix of the frame. So a send that
      fails half-way never shows up as a message. */
  lemma CutFrameFails(codec: Codec, data: seq<Byte>, cut: nat)
    requires cut < 4 + |data| % LENGTH_SPAN
    ensures cut <= |Frame(data)| && Receive(codec, Frame(data)[..cut]) == (None, [])
  {
    FrameDeclares(data, []);
    assert Frame(data) + [] == Frame(data);
    if cut >= 4 {
      assert Frame(data)[..cut][..4] == Frame(data)[..4];
    }
  }

  /** What of a frame reaches the stream. */
  function Written(data: seq<Byte>, room: nat): seq<Byte> {
    if |Frame(data)| <= room then Frame(data) else Frame(data)[..room]
  }

  /** What a receiver gets of a message does not depend on the sender's result: it is the message
      exactly if the stream took the whole frame. */
  lemma ReceivedIffWritten(codec: Codec, msg: Message, room: nat)
    requires Inverse(codec, msg) && |codec.encode(msg).value| < LENGTH_SPAN
    ensures var data := codec.encode(msg).value;
            Receive(codec, Written(data, room)).0 == if |Frame(data)| <= room then Some(msg) else None
  {
    var data := codec.encode(msg).value;
    if |Frame(data)| <= room {
      PayloadWholeIffShort(codec, data, []);
      assert Frame(data) + [] == Frame(data);
    } else {
      CutFrameFails(codec, data, room);
    }
  }

  predicate ReportedSent(data: seq<Byte>, room: nat, flushOk: bool) {
    |Frame(data)| <= room && flushOk
  }

  /** A send reported as failed has been received exactly if all bytes were written and only the flush
      failed; a send reported as successful always has. */
  lemma FailedYetReceived(codec: Codec, msg: Message, room: nat, flushOk: bool)
    requires Inverse(codec, msg) && |codec.encode(msg).value| < LENGTH_SPAN
    ensures var data := codec.encode(msg).value;
            var received := Receive(codec, Written(data, room)).0 == Some(msg);
            && (!ReportedSent(data, room, flushOk) && received <==> |Frame(data)| <= room && !flushOk)
            && (ReportedSent(data, room, flushOk) ==> received)
  {
    ReceivedIffWritten(codec, msg, room);
    hide Receive, Frame, Written;
  }

  // --- The streams and the two operations ---

  /** A stream to write to, that takes only so many bytes before the transport fails. */
  class Writer {
    var written: seq<Byte>
    var room: nat

    constructor (room: nat)
      ensures written == [] && this.room == room
    {
      written, this.room := [], room;
    }

    method WriteAll(bytes: seq<Byte>) returns (ok: bool)
      modifies this
      ensures ok <==> |bytes| <= old(room)
      ensures ok ==> written == old(written) + bytes && room == old(room) - |bytes|
      ensures !ok ==> written == old(written) + bytes[..old(room)] && room == 0
    {
      ok := |bytes| <= room;
      if ok {
        written, room := written + bytes, room - |bytes|;
      } else {
        written, room := written + bytes[..room], 0;
      }
    }
  }

  /** A stream to read from, with the bytes that will still arrive on it. */
  class Reader {
    var input: seq<Byte>

    constructor (input: seq<Byte>)
      ensures this.input == input
    {
      this.input := input;
    }

    /** Fill the buffer, or fail at the end of the stream. */
    method ReadExact(buffer: array<Byte>) returns (ok: bool)
      modifies this, buffer
      ensures ok <==> buffer.Length <= |old(input)|
      ensures ok ==> buffer[..] == old(input)[..buffer.Length] && input == old(input)[buffer.Length..]
      ensures !ok ==> input == []
    {
      ok := buffer.Length <= |input|;
      var n := if ok then buffer.Length else |input|;
      for i := 0 to n
        invariant input == old(input) && n <= |input|
        invariant forall j :: 0 <= j < i ==> buffer[j] == input[j]
      {
        buffer[i] := input[i];
      }
      assert ok ==> buffer[..] == input[..n];
      input := input[n..];
    }
  }

  method SendMessage(codec: Codec, stream: Writer, msg: Message, flushOk: bool) returns (ok: bool)
    modifies stream
    ensures match codec.encode(msg)
            case None => !ok && stream.written == old(stream.written)
            case Some(data) =>
              && stream.written == old(stream.written) + Written(data, old(stream.room))
              && ok == ReportedSent(data, old(stream.room), flushOk)
              && (|data| + 4 <= old(stream.room) ==>
                    var added := stream.written[|old(stream.written)|..];
                    && |added| == 4 + |data| && added[4..] == data
                    && Weighted(added[..4]) == |data| % 0x1_0000_0000)
  {
    var encoded := codec.encode(msg);
    if encoded == None {
      return false;
    }
    var data := encoded.value;
    var len := BigEndian(|data| % LENGTH_SPAN);
    ghost var written, room := stream.written, stream.room;
    ok := stream.WriteAll(len);
    if !ok {
      assert Frame(data)[..room] == len[..room];
      return;
    }
    ok := stream.WriteAll(data);
    if !ok {
      assert Frame(data)[..room] == len + data[..room - 4];
      return;
    }
    assert stream.written == written + Frame(data);
    assert stream.written[|written|..] == Frame(data);
    FrameByLength(data);
    ok := flushOk;
  }

  method ReceiveMessage(codec: Codec, stream: Reader) returns (msg: Option<Message>)
    modifies stream
    ensures (msg, stream.input) == Receive(codec, old(stream.input))
    ensures |old(stream.input)| >= 4 ==>
              var n := Weighted(old(stream.input)[..4]);
              msg == if |old(stream.input)| < 4 + n then None else codec.decode(old(stream.input)[4..4 + n])
  {
    ghost var input := stream.input;
    ReceiveByLength(codec, input);
    hide Weighted;
    var lenBytes := new Byte[4];
    var ok := stream.ReadExact(lenBytes);
    if !ok {
      return None;
    }
    assert stream.input == input[4..];
    var len := FromBigEndian(lenBytes[..]);
    var data := new Byte[len];
    ok := stream.ReadExact(data);
    if !ok {
      return None;
    }
    assert data[..] == input[4..][..len] == input[4..4 + len];
    assert stream.input == input[4..][len..] == input[4 + len..];
    msg := codec.decode(data[..]);
  }
}
