/** How payloads become frames and how the receive loop finds them again in a byte stream. */
module Framing {

  import opened Common
  import opened Encryption
  import opened Packet
  import opened RingBuffer

  const PACKET_CODE: byte := 0x77
  const MAX_PAYLOAD: nat := BUFFER_DEFAULT - HEADER

  // ---------------------------------------------------------------- frames

  function Low(n: nat): byte { n % 256 }

  function High(n: nat): byte { n / 256 % 256 }

  /** The first four bytes of a header; a negative size wraps in the length field. */
  function Header(payloadSize: int, key: byte): seq<byte> {
    var len := payloadSize % 0x1_0000;
    [PACKET_CODE, Low(len), High(len), key]
  }

  /** What SendPacket makes of a payload: code, length, key, and the encoded checksum and payload. */
  function Frame(payload: seq<byte>, key: byte): seq<byte> {
    Header(|payload|, key) + Encoded(Begin(key), [CheckSum(payload)] + payload)
  }

  // What one run of the receive loop does with the bytes in the buffer: the payloads handed to OnRecv, the
  // bytes left for later, and whether the session is to be closed.
  datatype Parsed = Parsed(frames: seq<seq<byte>>, rest: seq<byte>, error: bool)

  function Length(s: seq<byte>): nat
    requires |s| >= 3
  {
    s[1] as int + 256 * (s[2] as int)
  }

  function Body(s: seq<byte>): seq<byte>
    requires |s| >= 3 && |s| >= HEADER + Length(s)
  {
    Decoded(Begin(s[3]), s[4..HEADER + Length(s)])
  }

  predicate Refused(s: seq<byte>, capacity: nat)
    requires |s| >= 3
  {
    s[0] != PACKET_CODE || Length(s) == 0 || Length(s) > MAX_PAYLOAD || HEADER + Length(s) > capacity
  }

  function Parse(s: seq<byte>, capacity: nat): Parsed
    decreases |s|
  {
    if |s| < 3 then Parsed([], s, false)
    else if Refused(s, capacity) then Parsed([], [], true)
    else if |s| < HEADER + Length(s) then Parsed([], s, false)
    else if Body(s)[0] != CheckSum(Body(s)[1..]) then Parsed([], [], true)
    else
      var later := Parse(s[HEADER + Length(s)..], capacity);
      later.(frames := [Body(s)[1..]] + later.frames)
  }

  /** After a loop without error what is left is the beginning of one frame, so a buffer that can hold any
    * frame has room for more.
    */
  lemma {:induction false} LeftIsShort(s: seq<byte>, capacity: nat)
    requires !Parse(s, capacity).error
    ensures |Parse(s, capacity).rest| < BUFFER_DEFAULT
    decreases |s|
  {
    if |s| >= 3 && |s| >= HEADER + Length(s) { LeftIsShort(s[HEADER + Length(s)..], capacity); }
  }

  /** Bytes that follow change nothing in the frame at the front. */
  lemma SameFront(a: seq<byte>, b: seq<byte>, capacity: nat)
    requires |a| >= 3
    ensures Length(a + b) == Length(a) && (Refused(a + b, capacity) <==> Refused(a, capacity))
    ensures |a| >= HEADER + Length(a) ==>
              Body(a + b) == Body(a) && (a + b)[HEADER + Length(a)..] == a[HEADER + Length(a)..] + b
  {
    if |a| >= HEADER + Length(a) {
      assert (a + b)[4..HEADER + Length(a)] == a[4..HEADER + Length(a)];
    }
  }

  /** What a later parse adds to an earlier one. */
  function Joined(first: Parsed, later: Parsed): Parsed {
    if first.error then first else later.(frames := first.frames + later.frames)
  }

  predicate Complete(s: seq<byte>, capacity: nat) {
    |s| >= 3 && !Refused(s, capacity) && |s| >= HEADER + Length(s) && Body(s)[0] == CheckSum(Body(s)[1..])
  }

  lemma ParseNext(s: seq<byte>, capacity: nat)
    requires Complete(s, capacity)
    ensures Parse(s, capacity) ==
            Joined(Parsed([Body(s)[1..]], [], false), Parse(s[HEADER + Length(s)..], capacity))
  {
  }

  lemma JoinedAssociates(a: Parsed, b: Parsed, c: Parsed)
    requires !a.error
    ensures Joined(Joined(a, b), c) == Joined(a, Joined(b, c))
  {
    assert a.frames + (b.frames + c.frames) == a.frames + b.frames + c.frames;
  }

  lemma ParseStops(a: seq<byte>, b: seq<byte>, capacity: nat)
    requires !Complete(a, capacity)
    ensures Parse(a + b, capacity) == Joined(Parse(a, capacity), Parse(Parse(a, capacity).rest + b, capacity))
  {
    if |a| >= 3 { SameFront(a, b, capacity); }
    assert [] + Parse(a + b, capacity).frames == Parse(a + b, capacity).frames;
  }

  /** Parsing what has arrived and then what is left with the bytes that follow finds the same frames as
    * parsing it all at once.
    */
  lemma {:induction false} ParseAppend(a: seq<byte>, b: seq<byte>, capacity: nat)
    ensures Parse(a + b, capacity) == Joined(Parse(a, capacity), Parse(Parse(a, capacity).rest + b, capacity))
    decreases |a|
  {
    if Complete(a, capacity) {
      var rest := a[HEADER + Length(a)..];
      SameFront(a, b, capacity);
      ParseNext(a, capacity);
      ParseNext(a + b, capacity);
      ParseAppend(rest, b, capacity);
      JoinedAssociates(Parsed([Body(a)[1..]], [], false), Parse(rest, capacity),
                       Parse(Parse(rest, capacity).rest + b, capacity));
    } else {
      ParseStops(a, b, capacity);
    }
  }

  // ---------------------------------------------------------------- chunks

  function Flatten(chunks: seq<seq<byte>>): seq<byte> {
    if chunks == [] then [] else Flatten(chunks[..|chunks| - 1]) + chunks[|chunks| - 1]
  }

  /** What the session has done after these receive completions, one chunk each. */
  function Deliver(chunks: seq<seq<byte>>, capacity: nat): Parsed {
    if chunks == [] then Parsed([], [], false)
    else
      var before := Deliver(chunks[..|chunks| - 1], capacity);
      Joined(before, Parse(before.rest + chunks[|chunks| - 1], capacity))
  }

  /** How the stream is cut into chunks does not matter. */
  lemma {:induction false} ChunksDoNotMatter(chunks: seq<seq<byte>>, capacity: nat)
    ensures Deliver(chunks, capacity) == Parse(Flatten(chunks), capacity)
    decreases |chunks|
  {
    if chunks != [] {
      var front, last := chunks[..|chunks| - 1], chunks[|chunks| - 1];
      ChunksDoNotMatter(front, capacity);
      ParseAppend(Flatten(front), last, capacity);
    }
  }

  // ---------------------------------------------------------------- round trip

  predicate Sendable(payload: seq<byte>) { 1 <= |payload| <= MAX_PAYLOAD }

  lemma LowHigh(n: nat)
    requires n < 0x1_0000
    ensures Low(n) as int + 256 * (High(n) as int) == n
  {
  }

  lemma HeaderFields(size: nat, key: byte)
    requires size < 0x1_0000
    ensures var head := Header(size, key);
            |head| == 4 && head[0] == PACKET_CODE && head[1] as int + 256 * (head[2] as int) == size && head[3] == key
  {
    LowHigh(size);
  }

  lemma FrameSlices(head: seq<byte>, sealed: seq<byte>, more: seq<byte>)
    requires |head| == 4
    ensures (head + sealed + more)[4..4 + |sealed|] == sealed && (head + sealed + more)[4 + |sealed|..] == more
    ensures forall k :: 0 <= k < 4 ==> (head + sealed + more)[k] == head[k]
  {
  }

  lemma FrameFields(payload: seq<byte>, key: byte, more: seq<byte>)
    requires Sendable(payload)
    ensures var s := Frame(payload, key) + more;
            && |s| >= HEADER + |payload| && s[0] == PACKET_CODE && Length(s) == |payload|
            && s[HEADER + |payload|..] == more && Body(s) == [CheckSum(payload)] + payload
  {
    var head := Header(|payload|, key);
    var sealed := Encoded(Begin(key), [CheckSum(payload)] + payload);
    FrameSlices(head, sealed, more);
    HeaderFields(|payload|, key);
    DecodeEncode(Begin(key), [CheckSum(payload)] + payload);
  }

  lemma ParseFrame(payload: seq<byte>, key: byte, more: seq<byte>, capacity: nat)
    requires Sendable(payload) && capacity >= BUFFER_DEFAULT
    ensures var later := Parse(more, capacity);
            Parse(Frame(payload, key) + more, capacity) == later.(frames := [payload] + later.frames)
  {
    FrameFields(payload, key, more);
    var s := Frame(payload, key) + more;
    assert Body(s)[0] == CheckSum(payload) && Body(s)[1..] == payload;
  }

  datatype Sent = Sent(payload: seq<byte>, key: byte)

  function Stream(sent: seq<Sent>): seq<byte> {
    if sent == [] then [] else Frame(sent[0].payload, sent[0].key) + Stream(sent[1..])
  }

  function Payloads(sent: seq<Sent>): seq<seq<byte>> {
    if sent == [] then [] else [sent[0].payload] + Payloads(sent[1..])
  }

  lemma {:induction false} ParseStream(sent: seq<Sent>, capacity: nat)
    requires (forall k :: 0 <= k < |sent| ==> Sendable(sent[k].payload)) && capacity >= BUFFER_DEFAULT
    ensures Parse(Stream(sent), capacity) == Parsed(Payloads(sent), [], false)
  {
    if sent != [] {
      ParseStream(sent[1..], capacity);
      ParseFrame(sent[0].payload, sent[0].key, Stream(sent[1..]), capacity);
    }
  }

  /** Whatever payloads are sent under whatever keys, and however the network cuts the stream, the receive
    * loop hands over exactly those payloads in order, without error and with nothing left.
    */
  lemma RoundTrip(sent: seq<Sent>, chunks: seq<seq<byte>>, capacity: nat)
    requires (forall k :: 0 <= k < |sent| ==> Sendable(sent[k].payload)) && capacity >= BUFFER_DEFAULT
    requires Flatten(chunks) == Stream(sent)
    ensures Deliver(chunks, capacity) == Parsed(Payloads(sent), [], false)
  {
    ChunksDoNotMatter(chunks, capacity);
    ParseStream(sent, capacity);
  }

  // ---------------------------------------------------------------- the loops of the server

  /** The checksum goes before the payload, and both are encoded in place. For a packet shorter than its
    * header the size is negative: the checksum is 0 and nothing is encoded.
    */
  method SealBody(buffer: array<byte>, payloadSize: int, dynamicKey: byte)
    requires HEADER <= buffer.Length && HEADER + Rounds(payloadSize) <= buffer.Length
    modifies buffer
    ensures payloadSize >= 0 ==>
              buffer[4..HEADER + payloadSize] ==
              Encoded(Begin(dynamicKey), [CheckSum(old(buffer[HEADER..HEADER + payloadSize]))]
                                         + old(buffer[HEADER..HEADER + payloadSize]))
    ensures payloadSize < 0 ==> buffer[4] == 0
  {
    ghost var payload := buffer[HEADER..HEADER + Rounds(payloadSize)];
    var checkSum := CalculateCheckSum(buffer, HEADER, payloadSize);
    buffer[4] := checkSum;
    assert payloadSize >= 0 ==> buffer[4..HEADER + payloadSize] == [checkSum] + payload;
    Encode(dynamicKey, buffer, 4, 1 + payloadSize);
    assert payloadSize < 0 ==> buffer[4..][0] == 0;
  }

  /** What SendPacket makes of the bytes of a packet, also of one that is shorter than its header. */
  function Sealing(written: seq<byte>, key: byte): seq<byte> {
    if |written| >= HEADER then Frame(written[HEADER..], key)
    else (Header(|written| - HEADER, key) + [0])[..|written|]
  }

  method WriteHeader(buffer: array<byte>, payloadSize: int, dynamicKey: byte)
    requires 4 <= buffer.Length
    modifies buffer
    ensures buffer[..4] == Header(payloadSize, dynamicKey) && buffer[4..] == old(buffer[4..])
  {
    var len := payloadSize % 0x1_0000;
    buffer[0] := PACKET_CODE;
    buffer[1], buffer[2] := Low(len), High(len);
    buffer[3] := dynamicKey;
  }

  lemma SealedBytes(buffer: seq<byte>, written: seq<byte>, key: byte)
    requires HEADER <= |written| <= |buffer| && buffer[..4] == Header(|written| - HEADER, key)
    requires buffer[4..|written|] == Encoded(Begin(key), [CheckSum(written[HEADER..])] + written[HEADER..])
    ensures buffer[..|written|] == Sealing(written, key)
  {
    assert buffer[..|written|] == buffer[..4] + buffer[4..|written|];
  }

  lemma ShortBytes(buffer: seq<byte>, written: seq<byte>, key: byte)
    requires |written| < HEADER <= |buffer| && buffer[..4] == Header(|written| - HEADER, key) && buffer[4] == 0
    ensures buffer[..|written|] == Sealing(written, key)
  {
    assert buffer[..HEADER] == buffer[..4] + [buffer[4]];
    assert buffer[..|written|] == buffer[..HEADER][..|written|];
  }

  /** The encoding part of SendPacket; a packet that has been encoded for another session is left alone. */
  method Seal(packet: Packet, dynamicKey: byte)
    requires packet.Valid()
    modifies packet`isEncoding, packet.storage
    ensures packet.Valid() && packet.isEncoding
    ensures packet.Written() ==
            if old(packet.isEncoding) then old(packet.Written()) else Sealing(old(packet.Written()), dynamicKey)
  {
    if !packet.isEncoding {
      var buffer := packet.storage;
      var payloadSize := packet.dataSize - HEADER;
      ghost var written := packet.Written();
      assert payloadSize >= 0 ==> buffer[HEADER..HEADER + payloadSize] == written[HEADER..];
      SealBody(buffer, payloadSize, dynamicKey);
      ghost var sealed := buffer[4..];
      WriteHeader(buffer, payloadSize, dynamicKey);
      assert payloadSize >= 0 ==> buffer[4..packet.dataSize] == sealed[..packet.dataSize - 4];
      if payloadSize >= 0 { SealedBytes(buffer[..], written, dynamicKey); }
      else { ShortBytes(buffer[..], written, dynamicKey); }
      packet.isEncoding := true;
    }
  }

  lemma EmptyIsRefused(written: seq<byte>, key: byte, more: seq<byte>, capacity: nat)
    requires |written| == HEADER
    ensures Parse(Sealing(written, key) + more, capacity) == Parsed([], [], true)
  {
    var s := Sealing(written, key) + more;
    HeaderFields(0, key);
    assert s[..4] == Header(0, key);
    assert Length(s) == 0;
  }

  /** Whatever a packet holds: if it has a payload, the receiver of what SendPacket makes of it gets exactly that
    * payload and goes on with the bytes behind; if it has none, the receiver closes the session.
    */
  lemma SealedIsReceived(written: seq<byte>, key: byte, more: seq<byte>, capacity: nat)
    requires HEADER <= |written| <= BUFFER_DEFAULT <= capacity
    ensures Parse(Sealing(written, key) + more, capacity) ==
            if |written| == HEADER then Parsed([], [], true)
            else Joined(Parsed([written[HEADER..]], [], false), Parse(more, capacity))
  {
    if |written| == HEADER {
      EmptyIsRefused(written, key, more, capacity);
    } else {
      ParseFrame(written[HEADER..], key, more, capacity);
    }
  }

  /** The bytes of the frame at the front move from the ring to a packet. */
  method Fetch(ring: RingBuffer<byte>, dataLen: nat) returns (randKey: byte, packet: Packet)
    requires ring.Valid() && |ring.Contents| >= HEADER + dataLen && dataLen <= MAX_PAYLOAD
    modifies ring`front, ring`Contents
    ensures ring.Valid() && ring.Contents == old(ring.Contents)[HEADER + dataLen..]
    ensures fresh(packet) && fresh(packet.storage) && packet.Valid() && packet.dataSize == packet.readPos == 0
    ensures randKey == old(ring.Contents)[3]
    ensures packet.storage[4..HEADER + dataLen] == old(ring.Contents)[4..HEADER + dataLen]
  {
    ghost var s := ring.Contents;
    var moved := ring.MoveFront(3);
    var keyByte := new byte[1];
    var n := ring.Dequeue(keyByte, 0, 1);
    assert keyByte[0..1] == s[3..4];
    randKey := keyByte[0];
    packet := new Packet();
    n := ring.Dequeue(packet.storage, 4, 1 + dataLen);
    assert s[3..][1..] == s[4..] && s[4..][..1 + dataLen] == s[4..HEADER + dataLen];
  }

  /** The packet is decoded and, when its checksum is right, made ready for reading its payload. */
  method Open(packet: Packet, randKey: byte, dataLen: nat) returns (good: bool)
    requires packet.Valid() && packet.dataSize == packet.readPos == 0 && 1 <= dataLen <= MAX_PAYLOAD
    modifies packet`dataSize, packet`readPos, packet.storage
    ensures packet.Valid()
    ensures var body := Decoded(Begin(randKey), old(packet.storage[4..HEADER + dataLen]));
            good == (body[0] == CheckSum(body[1..])) && (good ==> packet.Unread() == body[1..])
  {
    Decode(randKey, packet.storage, 4, 1 + dataLen);
    ghost var body := packet.storage[4..HEADER + dataLen];
    var receivedCheckSum := packet.storage[4];
    var calcCheckSum := CalculateCheckSum(packet.storage, HEADER, dataLen);
    assert packet.storage[HEADER..HEADER + dataLen] == body[1..];
    if receivedCheckSum != calcCheckSum { return false; }
    packet.SetDataSize(HEADER + dataLen);
    packet.MoveReadPos(HEADER);
    good := true;
  }

  /** One round of the receive loop on a buffer that holds a complete frame: the frame is taken out, and its
    * payload comes back when its checksum is right.
    */
  method TakeFrame(ring: RingBuffer<byte>, dataLen: nat) returns (good: bool, payload: seq<byte>)
    requires ring.Valid() && |ring.Contents| >= HEADER + dataLen && 1 <= dataLen <= MAX_PAYLOAD
    requires Length(ring.Contents) == dataLen
    modifies ring`front, ring`Contents
    ensures ring.Valid() && ring.Contents == old(ring.Contents)[HEADER + dataLen..]
    ensures good == (Body(old(ring.Contents))[0] == CheckSum(Body(old(ring.Contents))[1..]))
    ensures good ==> payload == Body(old(ring.Contents))[1..]
  {
    var randKey, packet := Fetch(ring, dataLen);
    good := Open(packet, randKey, dataLen);
    payload := if good then packet.storage[packet.readPos..packet.dataSize] else [];
  }

  /** The code and the length field at the front, which stay where they are. */
  method PeekHeader(ring: RingBuffer<byte>) returns (dataCode: byte, dataLen: nat)
    requires ring.Valid() && |ring.Contents| >= 3
    ensures dataCode == ring.Contents[0] && dataLen == Length(ring.Contents)
  {
    var header := new byte[3];
    var n := ring.Peek(header, 0, 3);
    assert header[0..3] == ring.Contents[..3];
    assert header[0] == ring.Contents[0] && header[1] == ring.Contents[1] && header[2] == ring.Contents[2];
    dataCode := header[0];
    dataLen := header[1] as int + 256 * (header[2] as int);
  }

  /** The receive loop of workerThread: it finds in the buffer what `Parse` finds in its contents. */
  method ReceiveLoop(ring: RingBuffer<byte>) returns (frames: seq<seq<byte>>, parseError: bool)
    requires ring.Valid()
    modifies ring`front, ring`Contents
    ensures ring.Valid()
    ensures var parsed := Parse(old(ring.Contents), ring.data.Length - 1);
            frames == parsed.frames && parseError == parsed.error && (!parseError ==> ring.Contents == parsed.rest)
  {
    var capacity := ring.data.Length - 1;
    frames, parseError := [], false;
    while true
      invariant ring.Valid() && !parseError
      invariant Parse(old(ring.Contents), capacity) == Joined(Parsed(frames, [], false), Parse(ring.Contents, capacity))
      decreases |ring.Contents|
    {
      var used := ring.GetUseSize();
      if used < 3 { break; }
      var dataCode, dataLen := PeekHeader(ring);
      if dataCode != PACKET_CODE || dataLen == 0 || dataLen > MAX_PAYLOAD || HEADER + dataLen > capacity {
        parseError := true;
        break;
      }
      if used < HEADER + dataLen { break; }
      ghost var s := ring.Contents;
      var good, payload := TakeFrame(ring, dataLen);
      if !good {
        parseError := true;
        break;
      }
      ParseNext(s, capacity);
      JoinedAssociates(Parsed(frames, [], false), Parsed([payload], [], false), Parse(ring.Contents, capacity));
      frames := frames + [payload];
    }
  }

  /** A receive completion: the bytes become part of the stream, and either the session is to be closed or
    * there is room for the next receive, so that postRecv never finds a full buffer.
    */
  method OnReceived(ring: RingBuffer<byte>, bytes: seq<byte>) returns (frames: seq<seq<byte>>, parseError: bool)
    requires ring.Valid() && |bytes| <= ring.Room() && ring.data.Length > BUFFER_DEFAULT
    modifies ring`front, ring`rear, ring`Contents, ring.data
    ensures ring.Valid()
    ensures var now := Parse(old(ring.Contents) + bytes, ring.data.Length - 1);
            frames == now.frames && parseError == now.error && (!parseError ==> ring.Contents == now.rest)
    ensures !parseError ==> ring.Room() > 0
  {
    ring.Receive(bytes);
    LeftIsShortWhenOk(ring.Contents, ring.data.Length - 1);
    frames, parseError := ReceiveLoop(ring);
  }

  lemma LeftIsShortWhenOk(s: seq<byte>, capacity: nat)
    ensures !Parse(s, capacity).error ==> |Parse(s, capacity).rest| < BUFFER_DEFAULT
  {
    if !Parse(s, capacity).error { LeftIsShort(s, capacity); }
  }
}
