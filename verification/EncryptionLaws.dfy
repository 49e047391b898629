/** What the cipher and the checksum compute, on bits and on whole buffers. */
module EncryptionLaws {

  import opened Encryption

  // ---------------------------------------------------------------- exclusive or, bit by bit

  /** Bit `j` of `n`, counted from the lowest. */
  function Bit(n: nat, j: nat): nat { if j == 0 then n % 2 else Bit(n / 2, j - 1) }

  lemma LowBit(low: nat, high: nat)
    requires low < 2
    ensures (low + 2 * high) % 2 == low && (low + 2 * high) / 2 == high
  {
  }

  lemma {:induction false} XorBitAt(a: nat, b: nat, n: nat, j: nat)
    requires j < n
    ensures Bit(XorBits(a, b, n), j) == (Bit(a, j) + Bit(b, j)) % 2
  {
    LowBit(if a % 2 == b % 2 then 0 else 1, XorBits(a / 2, b / 2, n - 1));
    if j > 0 { XorBitAt(a / 2, b / 2, n - 1, j - 1); }
  }

  lemma {:induction false} SameBits(a: nat, b: nat, n: nat)
    requires a < Power(n) && b < Power(n) && forall j: nat :: j < n ==> Bit(a, j) == Bit(b, j)
    ensures a == b
  {
    if n > 0 {
      assert Bit(a, 0) == Bit(b, 0);
      forall j: nat | j < n - 1 ensures Bit(a / 2, j) == Bit(b / 2, j) { assert Bit(a, j + 1) == Bit(b, j + 1); }
      SameBits(a / 2, b / 2, n - 1);
    }
  }

  /** Each bit of `c` is set exactly when one of the two bits of `a` and `b` is. */
  predicate ExclusiveOr(a: byte, b: byte, c: byte) {
    forall j: nat :: j < 8 ==> Bit(c, j) == (Bit(a, j) + Bit(b, j)) % 2
  }

  /** `Xor` is exclusive or, and the only byte that is. */
  lemma XorIsExclusiveOr(a: byte, b: byte, c: byte)
    ensures c == Xor(a, b) <==> ExclusiveOr(a, b, c)
  {
    var x := Xor(a, b);
    forall j: nat | j < 8 ensures Bit(x, j) == (Bit(a, j) + Bit(b, j)) % 2 { XorBitAt(a, b, 8, j); }
    if ExclusiveOr(a, b, c) {
      assert Power(8) == 256 by { assert Power(4) == 16; }
      forall j: nat | j < 8 ensures Bit(c, j) == Bit(x, j) { }
      SameBits(c, x, 8);
    }
  }

  // ---------------------------------------------------------------- the chained cipher on a whole buffer

  /** The element before the `i`-th, and 0 before the first. */
  function Last(s: seq<byte>, i: nat): byte
    requires i <= |s|
  {
    if i == 0 then 0 else s[i - 1]
  }

  predicate ChainedAt(key: byte, data: seq<byte>, p: seq<byte>, e: seq<byte>, i: nat)
    requires i < |data| == |p| == |e|
  {
    && p[i] == Xor(data[i], (Last(p, i) + key + i + 1) % 256)
    && e[i] == Xor(p[i], (Last(e, i) + 0x32 + i + 1) % 256)
  }

  /** `e` is `data` under the two chained passes: the first with the random key, the second with the fixed one. */
  predicate Chained(key: byte, data: seq<byte>, p: seq<byte>, e: seq<byte>) {
    |data| == |p| == |e| && forall i: nat :: i < |data| ==> ChainedAt(key, data, p, e, i)
  }

  lemma NextKey(x: nat, n: nat)
    ensures Add((x + n) % 256, 1) == (x + (n + 1)) % 256
  {
  }

  lemma {:induction false} KeysAfter(key: byte, data: seq<byte>)
    ensures After(Begin(key), data).rk == (key + |data|) % 256 && After(Begin(key), data).k == (0x32 + |data|) % 256
  {
    if data != [] {
      var front, b := data[..|data| - 1], data[|data| - 1];
      assert data == front + [b];
      KeysAfter(key, front);
      EncodedAppend(Begin(key), front, b);
      NextKey(key, |front|);
      NextKey(0x32, |front|);
    }
  }

  /** The bytes between the two passes. */
  function Middle(key: byte, data: seq<byte>): (p: seq<byte>)
    ensures |p| == |data|
  {
    seq(|data|, i requires 0 <= i < |data| => After(Begin(key), data[..i + 1]).p)
  }

  lemma {:induction false} EncodedAt(key: byte, data: seq<byte>, i: nat)
    requires i < |data|
    ensures Encoded(Begin(key), data)[i] == After(Begin(key), data[..i + 1]).e
    decreases |data|
  {
    var front, b := data[..|data| - 1], data[|data| - 1];
    assert data == front + [b];
    EncodedAppend(Begin(key), front, b);
    if i < |front| {
      EncodedAt(key, front, i);
      assert front[..i + 1] == data[..i + 1];
    } else {
      assert data[..i + 1] == data;
    }
  }

  lemma EncodedIsChained(key: byte, data: seq<byte>)
    ensures Chained(key, data, Middle(key, data), Encoded(Begin(key), data))
  {
    var c, p, e := Begin(key), Middle(key, data), Encoded(Begin(key), data);
    forall i: nat | i < |data| ensures ChainedAt(key, data, p, e, i) {
      var front := data[..i];
      assert data[..i + 1] == front + [data[i]];
      EncodedAppend(c, front, data[i]);
      KeysAfter(key, front);
      EncodedAt(key, data, i);
      if i > 0 { EncodedAt(key, data, i - 1); }
      var s := After(c, front);
      assert s.p == Last(p, i) && s.e == Last(e, i);
      AddKeys(s.p, key, i);
      AddKeys(s.e, 0x32, i);
    }
  }

  lemma AddKeys(x: byte, key: byte, i: nat)
    ensures Add(x, Add((key + i) % 256, 1)) == (x + key + i + 1) % 256
  {
  }

  lemma ChainedStep(key: byte, data: seq<byte>, p: seq<byte>, e: seq<byte>, p': seq<byte>, e': seq<byte>, i: nat)
    requires Chained(key, data, p, e) && Chained(key, data, p', e') && i < |data|
    requires Last(p, i) == Last(p', i) && Last(e, i) == Last(e', i)
    ensures p[i] == p'[i] && e[i] == e'[i]
  {
    assert ChainedAt(key, data, p, e, i) && ChainedAt(key, data, p', e', i);
  }

  lemma {:induction false} ChainedOnce(key: byte, data: seq<byte>, p: seq<byte>, e: seq<byte>,
                                       p': seq<byte>, e': seq<byte>, n: nat)
    requires Chained(key, data, p, e) && Chained(key, data, p', e') && n <= |data|
    ensures p[..n] == p'[..n] && e[..n] == e'[..n]
  {
    if n > 0 {
      ChainedOnce(key, data, p, e, p', e', n - 1);
      assert n > 1 ==> p[..n - 1][n - 2] == p[n - 2] && e[..n - 1][n - 2] == e[n - 2];
      ChainedStep(key, data, p, e, p', e', n - 1);
      assert p[..n] == p[..n - 1] + [p[n - 1]] && e[..n] == e[..n - 1] + [e[n - 1]];
      assert p'[..n] == p'[..n - 1] + [p'[n - 1]] && e'[..n] == e'[..n - 1] + [e'[n - 1]];
    }
  }

  /** Encoding is the two chained passes, and nothing else is. */
  lemma EncodingIsChaining(key: byte, data: seq<byte>, e: seq<byte>)
    ensures e == Encoded(Begin(key), data) <==> exists p: seq<byte> :: Chained(key, data, p, e)
  {
    EncodedIsChained(key, data);
    if p: seq<byte> :| Chained(key, data, p, e) {
      ChainedOnce(key, data, p, e, Middle(key, data), Encoded(Begin(key), data), |data|);
    }
  }

  /** Decoding finds the one buffer that the two passes take to the bytes received. */
  lemma DecodingIsUnchaining(key: byte, data: seq<byte>, e: seq<byte>)
    ensures data == Decoded(Begin(key), e) <==> exists p: seq<byte> :: Chained(key, data, p, e)
  {
    EncodingIsChaining(key, data, e);
    DecodeEncode(Begin(key), data);
    EncodeDecode(Begin(key), e);
  }

  // ---------------------------------------------------------------- the checksum

  function Sum(data: seq<byte>): nat { if data == [] then 0 else data[0] + Sum(data[1..]) }

  lemma {:induction false} SumAppend(data: seq<byte>, b: byte)
    ensures Sum(data + [b]) == Sum(data) + b
  {
    if data == [] {
      assert Sum([b][1..]) == 0;
    } else {
      SumAppend(data[1..], b);
      assert (data + [b])[1..] == data[1..] + [b];
    }
  }

  lemma AddRest(x: nat, b: byte)
    ensures Add(x % 256, b) == (x + b) % 256
  {
    var q, y := x / 256, x % 256 + b;
    if y < 256 { assert x + b == 256 * q + y; } else { assert x + b == 256 * (q + 1) + (y - 256); }
  }

  /** The checksum is the sum of the bytes modulo 256. */
  lemma {:induction false} CheckSumIsSum(data: seq<byte>)
    ensures CheckSum(data) == Sum(data) % 256
  {
    if data != [] {
      var front, b := data[..|data| - 1], data[|data| - 1];
      assert data == front + [b];
      CheckSumIsSum(front);
      SumAppend(front, b);
      AddRest(Sum(front), b);
    }
  }
}
