/** The chained-XOR cipher and the checksum of a packet, in place on a buffer, and what they undo. */
module Encryption {

  type byte = b: int | 0 <= b < 256

  const PACKET_KEY: byte := 0x32

  // ---------------------------------------------------------------- arithmetic on unsigned char

  function Add(a: byte, b: byte): byte { (a + b) % 256 }

  /** Exclusive or of the low `n` bits. */
  function XorBits(a: nat, b: nat, n: nat): (r: nat)
    ensures n == 0 ==> r == 0
  {
    if n == 0 then 0 else (if a % 2 == b % 2 then 0 else 1) + 2 * XorBits(a / 2, b / 2, n - 1)
  }

  function Power(n: nat): nat { if n == 0 then 1 else 2 * Power(n - 1) }

  lemma {:induction false} XorTwice(a: nat, b: nat, n: nat)
    requires a < Power(n)
    ensures XorBits(a, b, n) < Power(n) && XorBits(XorBits(a, b, n), b, n) == a
  {
    if n > 0 { XorTwice(a / 2, b / 2, n - 1); }
  }

  lemma XorByte(a: byte, b: byte)
    ensures XorBits(a, b, 8) < 256 && XorBits(XorBits(a, b, 8), b, 8) == a
  {
    assert Power(8) == 256 by { assert Power(4) == 16; }
    XorTwice(a, b, 8);
  }

  function Xor(a: byte, b: byte): byte { XorByte(a, b); XorBits(a, b, 8) }

  // ---------------------------------------------------------------- what is computed

  function CheckSum(data: seq<byte>): byte {
    if data == [] then 0 else Add(CheckSum(data[..|data| - 1]), data[|data| - 1])
  }

  // The running state of both loops: the two keys, and the last byte before and after the second XOR.
  datatype Chain = Chain(rk: byte, k: byte, p: byte, e: byte)

  function Begin(dynamicKey: byte): Chain { Chain(dynamicKey, PACKET_KEY, 0, 0) }

  function Sealed(c: Chain, raw: byte): Chain {
    var rk, k := Add(c.rk, 1), Add(c.k, 1);
    var p := Xor(raw, Add(c.p, rk));
    Chain(rk, k, p, Xor(p, Add(c.e, k)))
  }

  function Opened(c: Chain, encrypted: byte): Chain {
    var rk, k := Add(c.rk, 1), Add(c.k, 1);
    Chain(rk, k, Xor(encrypted, Add(c.e, k)), encrypted)
  }

  function RawOf(c: Chain, encrypted: byte): byte {
    Xor(Opened(c, encrypted).p, Add(c.p, Add(c.rk, 1)))
  }

  function Encoded(c: Chain, data: seq<byte>): (r: seq<byte>)
    ensures |r| == |data|
    decreases |data|
  {
    if data == [] then [] else [Sealed(c, data[0]).e] + Encoded(Sealed(c, data[0]), data[1..])
  }

  function Decoded(c: Chain, data: seq<byte>): (r: seq<byte>)
    ensures |r| == |data|
    decreases |data|
  {
    if data == [] then [] else [RawOf(c, data[0])] + Decoded(Opened(c, data[0]), data[1..])
  }

  // ---------------------------------------------------------------- laws

  /** Opening a sealed byte gives the byte back and leaves the decoder where the encoder is. */
  lemma OpenSealed(c: Chain, raw: byte)
    ensures RawOf(c, Sealed(c, raw).e) == raw && Opened(c, Sealed(c, raw).e) == Sealed(c, raw)
  {
    var rk, k := Add(c.rk, 1), Add(c.k, 1);
    XorByte(raw, Add(c.p, rk));
    XorByte(Xor(raw, Add(c.p, rk)), Add(c.e, k));
  }

  lemma SealOpened(c: Chain, encrypted: byte)
    ensures Sealed(c, RawOf(c, encrypted)) == Opened(c, encrypted)
  {
    var rk, k := Add(c.rk, 1), Add(c.k, 1);
    XorByte(encrypted, Add(c.e, k));
    XorByte(Xor(encrypted, Add(c.e, k)), Add(c.p, rk));
  }

  /** Decoding undoes encoding under the same key. */
  lemma {:induction false} DecodeEncode(c: Chain, data: seq<byte>)
    ensures Decoded(c, Encoded(c, data)) == data
    decreases |data|
  {
    if data != [] {
      OpenSealed(c, data[0]);
      DecodeEncode(Sealed(c, data[0]), data[1..]);
      assert Encoded(c, data)[1..] == Encoded(Sealed(c, data[0]), data[1..]);
    }
  }

  /** And encoding undoes decoding, so a key permutes the buffers of each length. */
  lemma {:induction false} EncodeDecode(c: Chain, data: seq<byte>)
    ensures Encoded(c, Decoded(c, data)) == data
    decreases |data|
  {
    if data != [] {
      SealOpened(c, data[0]);
      EncodeDecode(Opened(c, data[0]), data[1..]);
      assert Decoded(c, data)[1..] == Decoded(Opened(c, data[0]), data[1..]);
    }
  }

  lemma AddAssociates(x: byte, y: byte, z: byte)
    ensures Add(x, Add(y, z)) == Add(Add(x, y), z)
  {
  }

  lemma {:induction false} CheckSumAppend(a: seq<byte>, b: seq<byte>)
    ensures CheckSum(a + b) == Add(CheckSum(a), CheckSum(b))
  {
    if b == [] {
      assert a + b == a;
    } else {
      var front, last := b[..|b| - 1], b[|b| - 1];
      CheckSumAppend(a, front);
      assert (a + b)[..|a + b| - 1] == a + front;
      AddAssociates(CheckSum(a), CheckSum(front), last);
    }
  }

  /** The checksum notices every change of a single byte. */
  lemma CheckSumNoticesOneByte(data: seq<byte>, i: nat, b: byte)
    requires i < |data|
    ensures CheckSum(data[i := b]) == CheckSum(data) <==> b == data[i]
  {
    CheckSumAround(data, i, b);
    CheckSumAround(data, i, data[i]);
    assert data[i := data[i]] == data;
    AddCancels(CheckSum(data[..i]), b, data[i], CheckSum(data[i + 1..]));
  }

  lemma CheckSumAround(data: seq<byte>, i: nat, b: byte)
    requires i < |data|
    ensures CheckSum(data[i := b]) == Add(Add(CheckSum(data[..i]), b), CheckSum(data[i + 1..]))
  {
    assert data[i := b] == data[..i] + [b] + data[i + 1..];
    CheckSumAppend(data[..i] + [b], data[i + 1..]);
    CheckSumAppend(data[..i], [b]);
    OneByte(b);
  }

  lemma OneByte(b: byte)
    ensures CheckSum([b]) == b
  {
    assert [b][..0] == [];
  }

  lemma AddCancels(x: byte, b: byte, c: byte, y: byte)
    ensures Add(Add(x, b), y) == Add(Add(x, c), y) <==> b == c
  {
  }

  // ---------------------------------------------------------------- the loops

  /** How often a loop from 0 up to `size` goes round. */
  function Rounds(size: int): nat { if size < 0 then 0 else size }

  method CalculateCheckSum(buffer: array<byte>, at: nat, size: int) returns (sum: byte)
    requires at + Rounds(size) <= buffer.Length
    ensures sum == CheckSum(buffer[at..at + Rounds(size)])
  {
    sum := 0;
    var i := 0;
    while i < size
      invariant 0 <= i <= Rounds(size) && sum == CheckSum(buffer[at..at + i])
    {
      assert buffer[at..at + i + 1][..i] == buffer[at..at + i];
      sum := Add(sum, buffer[at + i]);
      i := i + 1;
    }
  }

  lemma {:induction false} EncodedAppend(c: Chain, data: seq<byte>, b: byte)
    ensures Encoded(c, data + [b]) == Encoded(c, data) + [Sealed(After(c, data), b).e]
    ensures After(c, data + [b]) == Sealed(After(c, data), b)
    decreases |data|
  {
    if data == [] {
      assert [] + [b] == [b] && [b][1..] == [];
    } else {
      EncodedAppend(Sealed(c, data[0]), data[1..], b);
      assert (data + [b])[1..] == data[1..] + [b];
    }
  }

  function After(c: Chain, data: seq<byte>): Chain
    decreases |data|
  {
    if data == [] then c else After(Sealed(c, data[0]), data[1..])
  }

  method Encode(dynamicKey: byte, buffer: array<byte>, at: nat, size: int)
    requires at + Rounds(size) <= buffer.Length
    modifies buffer
    ensures buffer[at..at + Rounds(size)] == Encoded(Begin(dynamicKey), old(buffer[at..at + Rounds(size)]))
    ensures buffer[..at] == old(buffer[..at]) && buffer[at + Rounds(size)..] == old(buffer[at + Rounds(size)..])
  {
    ghost var data := buffer[at..at + Rounds(size)];
    var rk, k := dynamicKey, PACKET_KEY;
    var currentP: byte, currentE: byte := 0, 0;
    var i := 0;
    while i < size
      invariant 0 <= i <= Rounds(size)
      invariant Chain(rk, k, currentP, currentE) == After(Begin(dynamicKey), data[..i])
      invariant buffer[at..at + i] == Encoded(Begin(dynamicKey), data[..i])
      invariant buffer[at + i..at + Rounds(size)] == data[i..]
      invariant buffer[..at] == old(buffer[..at]) && buffer[at + Rounds(size)..] == old(buffer[at + Rounds(size)..])
    {
      rk, k := Add(rk, 1), Add(k, 1);
      var raw := buffer[at + i];
      assert raw == data[i];
      currentP := Xor(raw, Add(currentP, rk));
      currentE := Xor(currentP, Add(currentE, k));
      EncodedAppend(Begin(dynamicKey), data[..i], raw);
      assert data[..i] + [raw] == data[..i + 1];
      buffer[at + i] := currentE;
      assert buffer[at..at + i + 1] == buffer[at..at + i] + [currentE];
      i := i + 1;
    }
    assert data[..Rounds(size)] == data;
  }

  lemma {:induction false} DecodedAppend(c: Chain, data: seq<byte>, b: byte)
    ensures Decoded(c, data + [b]) == Decoded(c, data) + [RawOf(AfterOpening(c, data), b)]
    ensures AfterOpening(c, data + [b]) == Opened(AfterOpening(c, data), b)
    decreases |data|
  {
    if data == [] {
      assert [] + [b] == [b] && [b][1..] == [];
    } else {
      DecodedAppend(Opened(c, data[0]), data[1..], b);
      assert (data + [b])[1..] == data[1..] + [b];
    }
  }

  function AfterOpening(c: Chain, data: seq<byte>): Chain
    decreases |data|
  {
    if data == [] then c else AfterOpening(Opened(c, data[0]), data[1..])
  }

  method Decode(dynamicKey: byte, buffer: array<byte>, at: nat, size: int)
    requires at + Rounds(size) <= buffer.Length
    modifies buffer
    ensures buffer[at..at + Rounds(size)] == Decoded(Begin(dynamicKey), old(buffer[at..at + Rounds(size)]))
    ensures buffer[..at] == old(buffer[..at]) && buffer[at + Rounds(size)..] == old(buffer[at + Rounds(size)..])
  {
    ghost var data := buffer[at..at + Rounds(size)];
    var rk, k := dynamicKey, PACKET_KEY;
    var currentP: byte, currentE: byte := 0, 0;
    var i := 0;
    while i < size
      invariant 0 <= i <= Rounds(size)
      invariant Chain(rk, k, currentP, currentE) == AfterOpening(Begin(dynamicKey), data[..i])
      invariant buffer[at..at + i] == Decoded(Begin(dynamicKey), data[..i])
      invariant buffer[at + i..at + Rounds(size)] == data[i..]
      invariant buffer[..at] == old(buffer[..at]) && buffer[at + Rounds(size)..] == old(buffer[at + Rounds(size)..])
    {
      rk, k := Add(rk, 1), Add(k, 1);
      var encrypted := buffer[at + i];
      assert encrypted == data[i];
      var newP := Xor(encrypted, Add(currentE, k));
      var raw := Xor(newP, Add(currentP, rk));
      currentE, currentP := encrypted, newP;
      DecodedAppend(Begin(dynamicKey), data[..i], encrypted);
      assert data[..i] + [encrypted] == data[..i + 1];
      buffer[at + i] := raw;
      assert buffer[at..at + i + 1] == buffer[at..at + i] + [raw];
      i := i + 1;
    }
    assert data[..Rounds(size)] == data;
  }
}
