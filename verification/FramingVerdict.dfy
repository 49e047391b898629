/** When the receive loop accepts a frame and when it closes the session, told from the bytes alone. */
module FramingVerdict {

  import opened Common
  import opened Encryption
  import opened EncryptionLaws
  import opened Packet
  import opened Framing

  // ---------------------------------------------------------------- bytes

  /** The length field: two bytes behind the code, the low one first. */
  function Size(s: seq<byte>): nat
    requires |s| >= 3
  {
    s[1] as int + s[2] as int * 256
  }

  /** The two XOR passes under the key take `body` to the bytes `e`. */
  ghost predicate Enciphers(key: byte, body: seq<byte>, e: seq<byte>) {
    exists p: seq<byte> :: Chained(key, body, p, e)
  }

  /** The frame at the front carries the checksum and the payload `body`, under the key in its header. */
  ghost predicate Carries(s: seq<byte>, body: seq<byte>)
    requires |s| >= 3 && |s| >= 5 + Size(s)
  {
    Enciphers(s[3], body, s[4..5 + Size(s)])
  }

  /** The code or the length is wrong, or the frame would never fit into the buffer. */
  predicate BadHeader(s: seq<byte>, capacity: nat) {
    |s| >= 3 && (s[0] != 0x77 || Size(s) == 0 || Size(s) > 507 || 5 + Size(s) > capacity)
  }

  /** The frame at the front has arrived, and its checksum is not the sum of its payload. */
  ghost predicate BadSum(s: seq<byte>) {
    && |s| >= 3 && |s| >= 5 + Size(s)
    && exists body: seq<byte> :: |body| > 0 && Carries(s, body) && body[0] != Sum(body[1..]) % 256
  }

  ghost predicate Bad(s: seq<byte>, capacity: nat) { BadHeader(s, capacity) || BadSum(s) }

  /** `s` is one whole frame that carries `payload`. */
  ghost predicate GoodFrame(s: seq<byte>, payload: seq<byte>, capacity: nat) {
    && |s| >= 3 && !BadHeader(s, capacity) && |s| == 5 + Size(s)
    && Carries(s, [Sum(payload) % 256] + payload)
  }

  // ---------------------------------------------------------------- what the parser makes of the front

  lemma CarriesBody(s: seq<byte>, body: seq<byte>)
    requires |s| >= 3 && |s| >= 5 + Size(s)
    ensures Carries(s, body) <==> body == Body(s)
  {
    DecodingIsUnchaining(s[3], body, s[4..5 + Size(s)]);
  }

  lemma BadIsError(s: seq<byte>, capacity: nat)
    requires Bad(s, capacity)
    ensures Parse(s, capacity) == Parsed([], [], true)
  {
    if !BadHeader(s, capacity) {
      var body: seq<byte> :| |body| > 0 && Carries(s, body) && body[0] != Sum(body[1..]) % 256;
      CarriesBody(s, body);
      CheckSumIsSum(body[1..]);
    }
  }

  lemma GoodIsTaken(frame: seq<byte>, payload: seq<byte>, more: seq<byte>, capacity: nat)
    requires GoodFrame(frame, payload, capacity)
    ensures Parse(frame + more, capacity) == Joined(Parsed([payload], [], false), Parse(more, capacity))
  {
    var s := frame + more;
    assert s[4..5 + Size(frame)] == frame[4..5 + Size(frame)] && s[5 + Size(frame)..] == more;
    CarriesBody(s, [Sum(payload) % 256] + payload);
    CheckSumIsSum(payload);
    assert Body(s)[1..] == payload;
    ParseNext(s, capacity);
  }

  /** A stream that starts neither with a good frame nor with a bad one waits for more bytes. */
  ghost predicate Waits(s: seq<byte>, capacity: nat) {
    !BadHeader(s, capacity) && (|s| < 3 || |s| < 5 + Size(s))
  }

  lemma WaitsParse(s: seq<byte>, capacity: nat)
    requires Waits(s, capacity)
    ensures Parse(s, capacity) == Parsed([], s, false)
  {
  }

  /** Nothing else can stand at the front of a stream. */
  lemma FrontIsKnown(s: seq<byte>, capacity: nat) returns (frame: seq<byte>, payload: seq<byte>, rest: seq<byte>)
    requires !Bad(s, capacity) && !Waits(s, capacity)
    ensures s == frame + rest && frame != [] && GoodFrame(frame, payload, capacity)
  {
    var n, body := 5 + Size(s), Body(s);
    frame, payload, rest := s[..n], body[1..], s[n..];
    CarriesBody(s, body);
    assert body[0] == Sum(payload) % 256 && body == [body[0]] + payload;
    assert frame[4..n] == s[4..n];
    assert Carries(frame, body);
  }

  // ---------------------------------------------------------------- whole streams

  datatype Good = Good(frame: seq<byte>, payload: seq<byte>)

  ghost predicate AllGood(goods: seq<Good>, capacity: nat) {
    forall k: nat :: k < |goods| ==> GoodFrame(goods[k].frame, goods[k].payload, capacity)
  }

  function Bytes(goods: seq<Good>): seq<byte> { if goods == [] then [] else goods[0].frame + Bytes(goods[1..]) }

  function Loads(goods: seq<Good>): seq<seq<byte>> {
    if goods == [] then [] else [goods[0].payload] + Loads(goods[1..])
  }

  lemma Behind(good: Good, rest: seq<Good>, tail: seq<byte>, capacity: nat)
    ensures Bytes([good] + rest) + tail == good.frame + (Bytes(rest) + tail)
    ensures Loads([good] + rest) == [good.payload] + Loads(rest)
    ensures AllGood([good] + rest, capacity) <==>
            GoodFrame(good.frame, good.payload, capacity) && AllGood(rest, capacity)
  {
    var goods := [good] + rest;
    assert goods[1..] == rest;
    assert goods[0] == good && forall k: nat :: k < |rest| ==> goods[k + 1] == rest[k];
  }

  lemma {:induction false} GoodStream(goods: seq<Good>, tail: seq<byte>, capacity: nat)
    requires AllGood(goods, capacity)
    ensures Parse(Bytes(goods) + tail, capacity) == Joined(Parsed(Loads(goods), [], false), Parse(tail, capacity))
  {
    if goods == [] {
      assert Bytes(goods) + tail == tail && [] + Parse(tail, capacity).frames == Parse(tail, capacity).frames;
    } else {
      var good, rest := goods[0], goods[1..];
      assert goods == [good] + rest;
      Behind(good, rest, tail, capacity);
      GoodStream(rest, tail, capacity);
      TakesOne(good, Bytes(rest) + tail, Loads(rest), Parse(tail, capacity), capacity);
    }
  }

  lemma TakesOne(good: Good, more: seq<byte>, loads: seq<seq<byte>>, last: Parsed, capacity: nat)
    requires GoodFrame(good.frame, good.payload, capacity)
    requires Parse(more, capacity) == Joined(Parsed(loads, [], false), last)
    ensures Parse(good.frame + more, capacity) == Joined(Parsed([good.payload] + loads, [], false), last)
  {
    GoodIsTaken(good.frame, good.payload, more, capacity);
    JoinedAssociates(Parsed([good.payload], [], false), Parsed(loads, [], false), last);
  }

  /** Every stream is some good frames and a tail that is bad or waits. */
  lemma {:induction false} StreamSplits(s: seq<byte>, capacity: nat) returns (goods: seq<Good>, tail: seq<byte>)
    ensures s == Bytes(goods) + tail && AllGood(goods, capacity) && (Bad(tail, capacity) || Waits(tail, capacity))
    decreases |s|
  {
    if Bad(s, capacity) || Waits(s, capacity) {
      goods, tail := [], s;
    } else {
      var frame, payload, rest := FrontIsKnown(s, capacity);
      var later;
      later, tail := StreamSplits(rest, capacity);
      goods := [Good(frame, payload)] + later;
      Behind(Good(frame, payload), later, tail, capacity);
    }
  }

  /** Whatever the network makes of a stream of good frames with a tail behind them: exactly the payloads of the
    * good frames are handed over, in order; if the tail is bad the session is closed, and if it waits its bytes
    * are kept.
    */
  lemma DeliverIsVerdict(goods: seq<Good>, tail: seq<byte>, chunks: seq<seq<byte>>, capacity: nat)
    requires AllGood(goods, capacity) && Flatten(chunks) == Bytes(goods) + tail
    requires Bad(tail, capacity) || Waits(tail, capacity)
    ensures Deliver(chunks, capacity) ==
            if Bad(tail, capacity) then Parsed(Loads(goods), [], true) else Parsed(Loads(goods), tail, false)
  {
    ChunksDoNotMatter(chunks, capacity);
    GoodStream(goods, tail, capacity);
    if Bad(tail, capacity) { BadIsError(tail, capacity); } else { WaitsParse(tail, capacity); }
    assert Loads(goods) + [] == Loads(goods);
  }

  ghost predicate BadBehind(s: seq<byte>, goods: seq<Good>, tail: seq<byte>, capacity: nat) {
    s == Bytes(goods) + tail && AllGood(goods, capacity) && Bad(tail, capacity)
  }

  /** The session is closed for a bad frame behind good ones, and for nothing else. */
  lemma ErrorIffBad(chunks: seq<seq<byte>>, capacity: nat)
    ensures Deliver(chunks, capacity).error <==>
            exists goods: seq<Good>, tail: seq<byte> :: BadBehind(Flatten(chunks), goods, tail, capacity)
  {
    if goods: seq<Good>, tail: seq<byte> :| BadBehind(Flatten(chunks), goods, tail, capacity) {
      DeliverIsVerdict(goods, tail, chunks, capacity);
    }
    var goods, tail := StreamSplits(Flatten(chunks), capacity);
    DeliverIsVerdict(goods, tail, chunks, capacity);
    if Bad(tail, capacity) { assert BadBehind(Flatten(chunks), goods, tail, capacity); }
  }

  /** What SendPacket makes of a payload is a good frame for every receiver with room for it. */
  lemma FrameIsGood(payload: seq<byte>, key: byte, capacity: nat)
    requires 1 <= |payload| <= 507 && capacity >= 5 + |payload|
    ensures GoodFrame(Frame(payload, key), payload, capacity)
  {
    var s := Frame(payload, key);
    assert s + [] == s;
    FrameFields(payload, key, []);
    CheckSumIsSum(payload);
    CarriesBody(s, [Sum(payload) % 256] + payload);
  }
}
