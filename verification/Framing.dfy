/** The client's OnRecvStream: cutting a received datagram into packets. */
module Framing {

  type Byte = bv8

  const HEADER_SIZE: nat := 5       // df_HEADER_SIZE
  const DEFAULT_SIZE: nat := 1024   // dfDEFAULTSIZE
  const LENGTH_POSITION: nat := 1

  datatype Packet = Packet(header: seq<Byte>, payload: seq<Byte>)

  // The bytes a read past the end of the datagram delivers; at most five are ever asked for.
  type Beyond = b: seq<Byte> | |b| == 5 witness [0, 0, 0, 0, 0]

  // GetPayloadLength: a little-endian WORD in the header
  function PayloadLength(header: seq<Byte>): nat
    requires |header| == HEADER_SIZE
  {
    var low, high := header[LENGTH_POSITION] as int, header[LENGTH_POSITION + 1] as int;
    low + 256 * high
  }

  function ReadBuffer(rest: seq<Byte>, n: nat, beyond: Beyond): (read: seq<Byte>)
    requires n <= |rest| + HEADER_SIZE
    ensures |read| == n
  {
    if n <= |rest| then rest[..n] else rest + beyond[..n - |rest|]
  }

  // The packets handed to ProcessRecvPacket.
  function Frames(rest: seq<Byte>, beyond: Beyond): seq<Packet>
    decreases |rest|
  {
    if |rest| <= HEADER_SIZE then []
    else
      var header := rest[..HEADER_SIZE];
      var length := PayloadLength(header);
      if length == 0 || length > DEFAULT_SIZE || length > |rest| then []
      else
        var packet := Packet(header, ReadBuffer(rest[HEADER_SIZE..], length, beyond));
        if HEADER_SIZE + length > |rest| then [packet]
        else [packet] + Frames(rest[HEADER_SIZE + length..], beyond)
  }

  // The same read from a position in the buffer, carrying the packets processed so far.
  function FramesFrom(done: seq<Packet>, buffer: seq<Byte>, read: nat, beyond: Beyond): seq<Packet>
    requires read <= |buffer|
    decreases |buffer| - read
  {
    if |buffer| - read <= HEADER_SIZE then done
    else
      var length := PayloadLength(HeaderAt(buffer, read));
      if length == 0 || length > DEFAULT_SIZE || length > |buffer| - read then done
      else if HEADER_SIZE + length > |buffer| - read then done + [PacketAt(buffer, read, beyond)]
      else FramesFrom(done + [PacketAt(buffer, read, beyond)], buffer, read + HEADER_SIZE + length, beyond)
  }

  function HeaderAt(buffer: seq<Byte>, read: nat): (h: seq<Byte>)
    requires read + HEADER_SIZE <= |buffer|
    ensures |h| == HEADER_SIZE
  {
    buffer[read..read + HEADER_SIZE]
  }

  function PacketAt(buffer: seq<Byte>, read: nat, beyond: Beyond): Packet
    requires read + HEADER_SIZE <= |buffer| && PayloadLength(HeaderAt(buffer, read)) <= |buffer| - read
  {
    var header := HeaderAt(buffer, read);
    Packet(header, ReadBuffer(buffer[read + HEADER_SIZE..], PayloadLength(header), beyond))
  }

  lemma {:induction false} FramesFromIs(done: seq<Packet>, buffer: seq<Byte>, read: nat, beyond: Beyond)
    requires read <= |buffer|
    ensures FramesFrom(done, buffer, read, beyond) == done + Frames(buffer[read..], beyond)
    decreases |buffer| - read
  {
    hide PayloadLength, ReadBuffer;
    var rest := buffer[read..];
    if |rest| > HEADER_SIZE {
      assert rest[..HEADER_SIZE] == HeaderAt(buffer, read) && rest[HEADER_SIZE..] == buffer[read + HEADER_SIZE..];
      var length := PayloadLength(HeaderAt(buffer, read));
      if 0 < length <= DEFAULT_SIZE && HEADER_SIZE + length <= |rest| {
        var packet := PacketAt(buffer, read, beyond);
        assert rest[HEADER_SIZE + length..] == buffer[read + HEADER_SIZE + length..];
        FramesFromIs(done + [packet], buffer, read + HEADER_SIZE + length, beyond);
        AddToFront(done, packet, Frames(rest[HEADER_SIZE + length..], beyond));
      }
    }
  }

  lemma AddToFront(done: seq<Packet>, p: Packet, tail: seq<Packet>)
    ensures done + [p] + tail == done + ([p] + tail)
  {
  }

  lemma FromTheStart(buffer: seq<Byte>, beyond: Beyond)
    ensures FramesFrom([], buffer, 0, beyond) == Frames(buffer, beyond)
  {
    FramesFromIs([], buffer, 0, beyond);
    assert buffer[0..] == buffer;
  }

  // One turn: nothing to read, a packet that reaches past the end, or one with more behind it.
  lemma NoTurn(done: seq<Packet>, buffer: seq<Byte>, read: nat, beyond: Beyond)
    requires read <= |buffer|
    requires || |buffer| - read <= HEADER_SIZE
             || var length := PayloadLength(HeaderAt(buffer, read));
                length == 0 || length > DEFAULT_SIZE || length > |buffer| - read
    ensures FramesFrom(done, buffer, read, beyond) == done
  {
    hide PayloadLength;
  }

  lemma LastTurn(done: seq<Packet>, buffer: seq<Byte>, read: nat, beyond: Beyond, length: nat)
    requires read + HEADER_SIZE < |buffer| && length == PayloadLength(HeaderAt(buffer, read))
    requires 0 < length <= DEFAULT_SIZE && length <= |buffer| - read < HEADER_SIZE + length
    ensures FramesFrom(done, buffer, read, beyond) == done + [PacketAt(buffer, read, beyond)]
  {
    hide PayloadLength;
  }

  lemma NextTurn(done: seq<Packet>, buffer: seq<Byte>, read: nat, beyond: Beyond, length: nat)
    requires read + HEADER_SIZE < |buffer| && length == PayloadLength(HeaderAt(buffer, read))
    requires 0 < length <= DEFAULT_SIZE && HEADER_SIZE + length <= |buffer| - read
    ensures FramesFrom(done, buffer, read, beyond)
            == FramesFrom(done + [PacketAt(buffer, read, beyond)], buffer, read + HEADER_SIZE + length, beyond)
  {
    hide PayloadLength;
  }

  method OnRecvStream(recvBuffer: seq<Byte>, beyond: Beyond) returns (processed: seq<Packet>)
    ensures processed == Frames(recvBuffer, beyond)
  {
    processed := [];
    var recvSize: int := |recvBuffer|;
    var read: nat := 0;
    FromTheStart(recvBuffer, beyond);
    hide *;
    while recvSize > HEADER_SIZE
      invariant recvSize >= 0 ==> read + recvSize == |recvBuffer|
      invariant recvSize >= 0 ==> FramesFrom(processed, recvBuffer, read, beyond) == Frames(recvBuffer, beyond)
      invariant recvSize < 0 ==> processed == Frames(recvBuffer, beyond)
      decreases recvSize
    {
      var header := HeaderAt(recvBuffer, read);
      var payloadLength := PayloadLength(header);
      if payloadLength <= 0 || payloadLength > DEFAULT_SIZE || payloadLength > recvSize {
        NoTurn(processed, recvBuffer, read, beyond);
        return;
      }
      var packetSize := payloadLength + HEADER_SIZE;
      if packetSize > recvSize {
        LastTurn(processed, recvBuffer, read, beyond, payloadLength);
      } else {
        NextTurn(processed, recvBuffer, read, beyond, payloadLength);
      }
      recvSize := recvSize - packetSize;
      processed := processed + [PacketAt(recvBuffer, read, beyond)];
      read := read + packetSize;
    }
    if recvSize >= 0 { NoTurn(processed, recvBuffer, read, beyond); }
  }

  // --- Round trip ---

  // What the sending side puts on the wire for one packet: bytes 1 and 2 of the header are the length
  // of the payload, low byte first.
  predicate WellFormed(p: Packet) {
    && |p.header| == HEADER_SIZE
    && 1 <= |p.payload| <= DEFAULT_SIZE
    && p.header[1] as int == |p.payload| % 256 && p.header[2] as int == |p.payload| / 256
  }

  lemma LengthOfHeader(p: Packet)
    requires |p.header| == HEADER_SIZE && 1 <= |p.payload| <= DEFAULT_SIZE
    ensures WellFormed(p) <==> PayloadLength(p.header) == |p.payload|
  {
  }

  function Joined(packets: seq<Packet>): seq<Byte> {
    if packets == [] then [] else packets[0].header + packets[0].payload + Joined(packets[1..])
  }

  lemma OneFrame(p: Packet, tail: seq<Byte>, beyond: Beyond)
    requires WellFormed(p)
    ensures Frames(p.header + p.payload + tail, beyond) == [p] + Frames(tail, beyond)
  {
    var rest := p.header + p.payload + tail;
    LengthOfHeader(p);
    hide PayloadLength;
    assert rest[..HEADER_SIZE] == p.header;
    assert rest[HEADER_SIZE..] == p.payload + tail;
    assert (p.payload + tail)[..|p.payload|] == p.payload;
    assert rest[HEADER_SIZE + |p.payload|..] == tail;
  }

  lemma Regroup(p: Packet, more: seq<Packet>, tail: seq<Packet>)
    ensures [p] + more + tail == [p] + (more + tail)
  {
  }

  // Well-formed packets at the front come out as they went in, whatever follows them.
  lemma JoinedFirst(p: Packet, more: seq<Packet>, tail: seq<Byte>)
    ensures Joined([p] + more) + tail == p.header + p.payload + (Joined(more) + tail)
  {
    assert ([p] + more)[1..] == more;
  }

  lemma {:induction false} FramesOfJoined(packets: seq<Packet>, tail: seq<Byte>, beyond: Beyond)
    requires forall p :: p in packets ==> WellFormed(p)
    ensures Frames(Joined(packets) + tail, beyond) == packets + Frames(tail, beyond)
    decreases |packets|
  {
    if packets == [] {
      assert Joined(packets) + tail == tail;
    } else {
      hide Frames, WellFormed, Joined;
      var p, more := packets[0], packets[1..];
      assert packets == [p] + more;
      JoinedFirst(p, more, tail);
      OneFrame(p, Joined(more) + tail, beyond);
      FramesOfJoined(more, tail, beyond);
      Regroup(p, more, Frames(tail, beyond));
    }
  }

  lemma RoundTrip(packets: seq<Packet>, beyond: Beyond)
    requires forall p :: p in packets ==> WellFormed(p)
    ensures Frames(Joined(packets), beyond) == packets
  {
    FramesOfJoined(packets, [], beyond);
    assert Joined(packets) + [] == Joined(packets);
  }

  // A last packet cut off after m bytes is dropped exactly when m is less than its payload length or
  // not more than the header: a packet that lacks up to five bytes is still processed, its missing
  // bytes being whatever lies beyond the datagram.
  lemma TruncatedExactly(packets: seq<Packet>, last: Packet, m: nat, beyond: Beyond)
    requires (forall p :: p in packets ==> WellFormed(p)) && WellFormed(last)
    requires m < HEADER_SIZE + |last.payload|
    ensures var cut := (last.header + last.payload)[..m];
            Frames(Joined(packets) + cut, beyond) ==
            packets + if m <= HEADER_SIZE || m < |last.payload| then []
                      else [Packet(last.header,
                                   last.payload[..m - HEADER_SIZE] + beyond[..|last.payload| - (m - HEADER_SIZE)])]
  {
    var cut := (last.header + last.payload)[..m];
    FramesOfJoined(packets, cut, beyond);
    LengthOfHeader(last);
    hide PayloadLength;
    if m > HEADER_SIZE {
      assert cut[..HEADER_SIZE] == last.header;
      assert cut[HEADER_SIZE..] == last.payload[..m - HEADER_SIZE];
    }
  }

  // On every input, the packets have the lengths their headers say, and each but the last lies inside
  // the datagram, in order.
  ghost predicate Inside(packets: seq<Packet>, rest: seq<Byte>)
    decreases |packets|
  {
    packets == [] ||
    var front := packets[0].header + packets[0].payload;
    front <= rest && Inside(packets[1..], rest[|front|..])
  }

  lemma InsideFirst(first: Packet, more: seq<Packet>, rest: seq<Byte>)
    requires first.header + first.payload <= rest
    requires Inside(more, rest[|first.header + first.payload|..])
    ensures Inside([first] + more, rest)
  {
    assert ([first] + more)[1..] == more;
  }

  lemma InsideNone(rest: seq<Byte>)
    ensures Inside([], rest)
  {
  }

  lemma {:induction false} AllButLastInside(rest: seq<Byte>, beyond: Beyond)
    ensures var packets := Frames(rest, beyond);
            && (forall p :: p in packets ==> WellFormed(p))
            && (packets != [] ==> Inside(packets[..|packets| - 1], rest))
    decreases |rest|
  {
    hide PayloadLength, Inside, WellFormed;
    var packets := Frames(rest, beyond);
    InsideNone(rest);
    if packets != [] {
      LengthOfHeader(packets[0]);
      var length := PayloadLength(rest[..HEADER_SIZE]);
      if HEADER_SIZE + length > |rest| {
        assert packets[..0] == [];
      } else {
        var tail := rest[HEADER_SIZE + length..];
        AllButLastInside(tail, beyond);
        AddFront(packets[0], Frames(tail, beyond), rest, HEADER_SIZE + length);
      }
    }
  }

  lemma AddFront(first: Packet, more: seq<Packet>, rest: seq<Byte>, n: nat)
    requires n <= |rest| && first.header + first.payload == rest[..n]
    requires more != [] ==> Inside(more[..|more| - 1], rest[n..])
    ensures Inside(([first] + more)[..|more|], rest)
  {
    hide Inside;
    InsideNone(rest);
    if more == [] {
      assert ([first] + more)[..|more|] == [];
    } else {
      InsideFirst(first, more[..|more| - 1], rest);
      assert ([first] + more)[..|more|] == [first] + more[..|more| - 1];
    }
  }
}
