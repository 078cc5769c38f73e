/** MD5 and SHA-1 of whole messages, as RFC 1321 and RFC 3174 define them, and HMAC as RFC 2104 defines it. */
module DigestSpec {
  import opened Words
  import Md5Block
  import Sha1Block

  datatype HashFunction = MD5 | SHA1

  const TWO32: nat := 0x1_0000_0000
  const TWO64: nat := 0x1_0000_0000_0000_0000

  function Compress(h: HashFunction, r: Registers, block: seq<byte>): Registers
    requires |block| == 64
  {
    match h
    case MD5 => Md5Block.Compress(r, block)
    case SHA1 => Sha1Block.Compress(r, block)
  }

  /** So many bytes are a whole number of blocks. */
  predicate IsWhole(n: nat) {
    n % 64 == 0
  }

  lemma WholeSum(a: nat, b: nat)
    requires IsWhole(a) && IsWhole(b)
    ensures IsWhole(a + b)
    ensures a < b ==> a + 64 <= b
  {
  }

  /** The registers after a whole number of blocks. */
  function Fold(h: HashFunction, r: Registers, data: seq<byte>): Registers
    requires IsWhole(|data|)
    decreases |data|
  {
    if data == [] then r else Fold(h, Compress(h, r, data[..64]), data[64..])
  }

  lemma {:induction false} FoldConcat(h: HashFunction, r: Registers, a: seq<byte>, b: seq<byte>)
    requires IsWhole(|a|) && IsWhole(|b|)
    ensures IsWhole(|a + b|) && Fold(h, r, a + b) == Fold(h, Fold(h, r, a), b)
    decreases |a|
  {
    hide Compress;
    if a == [] {
      assert a + b == b;
    } else {
      assert (a + b)[..64] == a[..64] && (a + b)[64..] == a[64..] + b;
      FoldConcat(h, Compress(h, r, a[..64]), a[64..], b);
    }
  }

  lemma FoldBlock(h: HashFunction, r: Registers, a: seq<byte>, block: seq<byte>)
    requires IsWhole(|a|) && |block| == 64
    ensures IsWhole(|a + block|) && Fold(h, r, a + block) == Compress(h, Fold(h, r, a), block)
  {
    hide Compress;
    FoldConcat(h, r, a, block);
    assert block[..64] == block && block[64..] == [];
    assert Fold(h, Compress(h, Fold(h, r, a), block), []) == Compress(h, Fold(h, r, a), block);
  }

  // ----- Padding -----

  function Zeros(n: nat): (z: seq<byte>)
    ensures |z| == n
  {
    seq(n, _ => 0)
  }

  /** The number of zero bytes that make n + 1 bytes congruent to 56 modulo 64. */
  function ZeroCount(n: nat): (k: nat)
    ensures k < 64 && (n + 1 + k) % 64 == 56
  {
    if n % 64 < 56 then 55 - n % 64 else 119 - n % 64
  }

  function WordBytes(w: nat): (b: seq<byte>)
    ensures |b| == 4
  {
    [ (w / 0x1000000 % 256) as byte, (w / 0x10000 % 256) as byte, (w / 0x100 % 256) as byte, (w % 256) as byte ]
  }

  function ReversedWordBytes(w: nat): (b: seq<byte>)
    ensures |b| == 4
  {
    [ (w % 256) as byte, (w / 0x100 % 256) as byte, (w / 0x10000 % 256) as byte, (w / 0x1000000 % 256) as byte ]
  }

  /** The length in bits, modulo 2^64: the low-order word first for MD5, the high-order word first for SHA-1. */
  function LengthBytes(h: HashFunction, bits: nat): (b: seq<byte>)
    ensures |b| == 8
  {
    match h
    case MD5 => ReversedWordBytes(bits % TWO32) + ReversedWordBytes(bits / TWO32 % TWO32)
    case SHA1 => WordBytes(bits / TWO32 % TWO32) + WordBytes(bits % TWO32)
  }

  /** Sections 3.1 and 3.2 of RFC 1321, and section 4 of RFC 3174. */
  function Padding(h: HashFunction, n: nat): (p: seq<byte>)
    ensures IsWhole(n + |p|)
  {
    PaddedLength(n, 1 + ZeroCount(n));
    [0x80] + Zeros(ZeroCount(n)) + LengthBytes(h, 8 * n)
  }

  lemma PaddedLength(n: nat, k: nat)
    requires (n + k) % 64 == 56
    ensures IsWhole(n + k + 8)
  {
  }

  function Output(h: HashFunction, r: Registers): (d: seq<byte>)
    ensures |d| == if h.MD5? then 16 else 20
  {
    match h
    case MD5 =>
      LittleEndianBytes(r.a) + LittleEndianBytes(r.b) + LittleEndianBytes(r.c) + LittleEndianBytes(r.d)
    case SHA1 =>
      BigEndianBytes(r.a) + BigEndianBytes(r.b) + BigEndianBytes(r.c) + BigEndianBytes(r.d) + BigEndianBytes(r.e)
  }

  /** The digest of a message. */
  function Hash(h: HashFunction, m: seq<byte>): (d: seq<byte>)
    ensures |d| == if h.MD5? then 16 else 20
  {
    Output(h, Fold(h, Initial(), m + Padding(h, |m|)))
  }

  /** The digest, from the blocks that have been processed and those that are left. */
  lemma HashIs(h: HashFunction, m: seq<byte>, done: seq<byte>, waiting: seq<byte>, tail: seq<byte>)
    requires m == done + waiting && tail == waiting + Padding(h, |m|)
    ensures IsWhole(|done + tail|) && Hash(h, m) == Output(h, Fold(h, Initial(), done + tail))
  {
    hide Padding, Fold, IsWhole, Output;
    assert done + tail == m + Padding(h, |m|);
  }

  // ----- HMAC -----

  function Xor(key: seq<byte>, pad: byte): (x: seq<byte>)
    ensures |x| == |key|
  {
    seq(|key|, i requires 0 <= i < |key| => key[i] ^ pad)
  }

  /** Section 2 of RFC 2104, for keys that are not longer than a block. */
  function Hmac(h: HashFunction, key: seq<byte>, m: seq<byte>): seq<byte>
    requires |key| <= 64
  {
    var k := key + Zeros(64 - |key|);
    Hash(h, Xor(k, 0x5c) + Hash(h, Xor(k, 0x36) + m))
  }
}
