/** The incremental digests of src/digest.c. */
module Digest {
  import opened Words
  import opened DigestSpec
  import Md5Block
  import Sha1Block

  /** memcpy to an offset in a buffer. */
  method Memcpy(dest: array<byte>, at: nat, src: seq<byte>)
    requires at + |src| <= dest.Length
    modifies dest
    ensures dest[..] == old(dest[..at]) + src + old(dest[at + |src|..])
  {
    for i := 0 to |src|
      invariant dest[..at] == old(dest[..at])
      invariant dest[at..at + i] == src[..i]
      invariant dest[at + i..] == old(dest[at + i..])
    {
      dest[at + i] := src[i];
    }
  }

  /** memcpy from one place of a buffer to its start. */
  method MoveToStart(buffer: array<byte>, from: nat, n: nat)
    requires from + n <= buffer.Length
    modifies buffer
    ensures buffer[..n] == old(buffer[from..from + n])
  {
    var src := buffer[from..from + n];
    Memcpy(buffer, 0, src);
    assert buffer[..n] == src;
  }

  /** Bitwise or of two unsigned words. */
  function Or(a: nat, b: nat): nat {
    if a == 0 && b == 0 then 0 else 2 * Or(a / 2, b / 2) + (if a % 2 == 1 || b % 2 == 1 then 1 else 0)
  }

  lemma {:induction false} OrZero(a: nat)
    ensures Or(a, 0) == a
  {
    if a != 0 { OrZero(a / 2); }
  }

  /** Where no bits meet, or is addition. */
  lemma OrAdds(a: nat, b: nat)
    requires a % 8 == 0 && b < 8
    ensures Or(a, b) == a + b
  {
    OrZero(a / 8);
    assert a / 2 / 2 / 2 == a / 8 && b / 2 / 2 / 2 == 0;
    assert Or(a / 2 / 2, b / 2 / 2) == 2 * Or(a / 8, 0) + b / 2 / 2 % 2;
    assert Or(a / 2, b / 2) == 2 * Or(a / 2 / 2, b / 2 / 2) + b / 2 % 2;
  }

  /** n & ~63. */
  function WholeBlocks(n: nat): (w: nat)
    ensures IsWhole(w) && w <= n < w + 64
  {
    n / 64 * 64
  }

  /** n & 63. */
  function PartialBlock(n: nat): (k: nat)
    ensures WholeBlocks(n) + k == n && k < 64
  {
    n % 64
  }

  method Md5Compress(r: Registers, block: seq<byte>) returns (r': Registers)
    requires |block| == 64
    ensures r' == Compress(MD5, r, block)
  {
    hide Md5Block.Compress;
    r' := Md5Block.ProcessBlock(r, block);
  }

  /** The loop of MD5ProcessBlock. */
  method Md5Blocks(r: Registers, data: seq<byte>) returns (r': Registers)
    requires IsWhole(|data|)
    ensures r' == Fold(MD5, r, data)
  {
    assert Fold(MD5, r, data[..0]) == r && IsWhole(0) && IsWhole(64);
    hide Compress, Fold, IsWhole;
    r' := r;
    var words := 0;
    while words < |data|
      invariant words <= |data| && IsWhole(words)
      invariant r' == Fold(MD5, r, data[..words])
    {
      WholeSum(words, |data|);
      WholeSum(words, 64);
      var block := data[words..words + 64];
      FoldBlock(MD5, r, data[..words], block);
      assert data[..words] + block == data[..words + 64];
      r' := Md5Compress(r', block);
      words := words + 64;
    }
    assert data[..words] == data;
  }

  class DigestState {
    var regs: Registers  // A, B, C, D and E
    var total0: nat
    var total1: nat
    var buflen: nat
    const buffer: array<byte>
    var computed: bool
    var corrupted: bool
    ghost var done: seq<byte>     // the blocks that have been processed
    ghost var message: seq<byte>  // what has been given to the digest so far

    /** InitializeDigestState. */
    constructor ()
      ensures fresh(buffer) && message == [] && Md5State() && Sha1State()
    {
      regs := Initial();
      total0, total1, buflen := 0, 0, 0;
      computed, corrupted := false, false;
      buffer := new byte[128];
      done, message := [], [];
    }

    /** The two-word counter stands at n. */
    ghost predicate Counts(n: nat)
      reads `total0, `total1
    {
      total0 == n % TWO32 && total1 == n / TWO32 % TWO32
    }

    ghost predicate Folded(h: HashFunction)
      reads `regs, `done
    {
      IsWhole(|done|) && regs == Fold(h, Initial(), done)
    }

    /** Between calls: whole blocks have been folded and counted in bytes, and at most 64 bytes wait in the buffer. */
    ghost predicate Md5State()
      reads this, buffer
    {
      && buffer.Length == 128
      && buflen <= 64
      && Folded(MD5) && Counts(|done|)
      && message == done + buffer[..buflen]
    }

    /** Between calls: whole blocks have been folded, bits are counted, and fewer than 64 bytes wait in the buffer. */
    ghost predicate Sha1State()
      reads this, buffer
    {
      && buffer.Length == 128
      && !computed
      && (corrupted <==> 8 * |message| >= TWO64)
      && (!corrupted ==>
            && buflen < 64
            && Folded(SHA1) && Counts(8 * |message|)
            && message == done + buffer[..buflen])
    }

    // ----- MD5 -----

    /** A double word increment. */
    method CountUp(len: nat, ghost n: nat)
      requires len < TWO32 && Counts(n)
      modifies `total0, `total1
      ensures Counts(n + len)
    {
      AddCarries(n, len);
      total0 := (total0 + len) % TWO32;
      if total0 < len {
        total1 := (total1 + 1) % TWO32;
      }
    }

    method MD5ProcessBlock(data: seq<byte>, ghost n: nat)
      requires IsWhole(|data|) && |data| < TWO32 && Folded(MD5) && Counts(n)
      modifies `regs, `total0, `total1, `done
      ensures Folded(MD5) && Counts(n + |data|) && done == old(done) + data
    {
      hide Fold, Counts, IsWhole, Initial;
      CountUp(|data|, n);
      FoldConcat(MD5, Initial(), done, data);
      regs := Md5Blocks(regs, data);
      done := done + data;
    }

    method MD5ProcessContinuous(data: seq<byte>)
      requires Md5State() && |data| < TWO32
      modifies this, buffer
      ensures Md5State() && message == old(message) + data
    {
      hide Folded, Counts, IsWhole, WholeBlocks, PartialBlock;
      var rest := data;
      if buflen != 0 {
        rest := MD5TopUp(rest);
      }
      if rest != [] {
        MD5Rest(rest);
      }
    }

    /** The second part of MD5ProcessContinuous: process the whole blocks, and put what remains in the buffer. */
    method MD5Rest(data: seq<byte>)
      requires Md5State() && buflen == 0 && data != [] && |data| < TWO32
      modifies this, buffer
      ensures Md5State() && message == old(message) + data
    {
      hide Folded, Counts, WholeBlocks;
      assert buffer[..0] == [] && message == done;
      var rest := data;
      if |rest| > 64 {
        var whole := WholeBlocks(|rest|);
        MD5ProcessBlock(rest[..whole], |done|);
        rest := rest[whole..];
      }
      assert done + rest == message + data;
      if |rest| > 0 {
        Memcpy(buffer, 0, rest);
        buflen := |rest|;
        assert buffer[..buflen] == rest;
      }
      message := message + data;
    }

    /** The first part of MD5ProcessContinuous: fill the buffer, and process it if it holds more than a block. */
    method MD5TopUp(data: seq<byte>) returns (rest: seq<byte>)
      requires Md5State() && |data| < TWO32
      modifies this, buffer
      ensures Md5State() && message + rest == old(message) + data
      ensures rest != [] ==> buflen == 0
      ensures |rest| <= |data|
    {
      hide Folded, Counts;
      var leftOver := buflen;
      var toAdd := if 128 - leftOver > |data| then |data| else 128 - leftOver;
      Memcpy(buffer, leftOver, data[..toAdd]);
      rest := data[toAdd..];
      buflen := leftOver + toAdd;
      message := message + data[..toAdd];
      assert message == done + buffer[..buflen];
      if leftOver + toAdd > 64 {
        MD5Drain();
      }
    }

    /** Process the whole blocks in the buffer, and move what remains to its start. */
    method MD5Drain()
      requires buffer.Length == 128 && 64 < buflen <= 128
      requires Folded(MD5) && Counts(|done|) && message == done + buffer[..buflen]
      modifies this, buffer
      ensures Md5State() && message == old(message) && buflen == PartialBlock(old(buflen))
    {
      hide Folded, Counts, IsWhole, WholeBlocks, PartialBlock;
      var whole, partial := WholeBlocks(buflen), PartialBlock(buflen);
      ghost var head, tail := buffer[..whole], buffer[whole..buflen];
      assert buffer[..buflen] == head + tail;
      MD5ProcessBlock(buffer[..whole], |done|);
      MoveToStart(buffer, whole, partial);
      buflen := partial;
      assert buffer[..buflen] == tail;
    }

    /** Put the padding and the length behind the bytes in the buffer. */
    method MD5Pad(ghost n: nat) returns (end: nat)
      requires buffer.Length == 128 && buflen <= 64 && buflen <= n && IsWhole(n - buflen) && Counts(n)
      modifies buffer
      ensures end <= 128 && IsWhole(end) && buffer[..end] == old(buffer[..buflen]) + Padding(MD5, n)
    {
      hide Padding, IsWhole, ReversedWordBytes, Or;
      var bytes := buflen;
      var padding := if bytes >= 56 then 64 + 56 - bytes else 56 - bytes;
      var fill := FILLBUF[..padding];
      var low := ReversedWordBytes(total0 * 8 % TWO32);
      var high := ReversedWordBytes(Or(total1 * 8 % TWO32, total0 / 0x20000000));
      PaddedTail(n, bytes, padding, total0, total1);
      end := bytes + padding + 8;
      PutTail(buffer, bytes, fill, low, high);
    }

    /** Pad the message, process the last block or blocks, and return the digest. */
    method MD5FlushState() returns (digest: seq<byte>)
      requires Md5State()
      modifies this, buffer
      ensures digest == Hash(MD5, old(message))
    {
      hide Counts, Initial, Fold, Padding, Output, Hash;
      assert IsWhole(|done|);
      assert |message| == |done| + buflen;
      hide IsWhole;
      CountUp(buflen, |done|);
      ghost var waiting := buffer[..buflen];
      var end := MD5Pad(|message|);
      HashIs(MD5, message, done, waiting, buffer[..end]);
      MD5ProcessBlock(buffer[..end], |message|);
      digest := Output(MD5, regs);
    }

    // ----- SHA-1 -----

    method SHA1ProcessMessageBlock()
      requires buffer.Length == 128 && Folded(SHA1)
      modifies `regs, `done, `buflen
      ensures Folded(SHA1) && done == old(done) + buffer[..64] && buflen == 0
    {
      hide Fold, Compress, IsWhole, Initial;
      FoldBlock(SHA1, Initial(), done, buffer[..64]);
      regs := Sha1Compress(regs, buffer[..64]);
      done := done + buffer[..64];
      buflen := 0;
    }

    /** The body of the loop of SHA1Input. */
    method SHA1Byte(b: byte)
      requires Sha1State() && !corrupted
      modifies `regs, `total0, `total1, `buflen, `corrupted, `done, `message, buffer
      ensures Sha1State() && message == old(message) + [b]
    {
      hide Folded, Fold, Initial;
      ghost var waiting := buffer[..buflen];
      buffer[buflen] := b;
      buflen := buflen + 1;
      assert buffer[..buflen] == waiting + [b];
      SHA1CountUp(|message|);
      message := message + [b];
      if buflen == 64 {
        SHA1ProcessMessageBlock();
        assert buffer[..0] == [];
      }
    }

    /** Count eight more bits; the message is too long if that overflows. */
    method SHA1CountUp(ghost n: nat)
      requires 8 * n < TWO64 && Counts(8 * n) && !corrupted
      modifies `total0, `total1, `corrupted
      ensures Counts(8 * (n + 1)) && (corrupted <==> 8 * (n + 1) >= TWO64)
    {
      BitsCarry(n);
      total0 := (total0 + 8) % TWO32;
      if total0 == 0 {
        total1 := (total1 + 1) % TWO32;
        if total1 == 0 {
          corrupted := true;
        }
      }
    }

    method SHA1Input(data: seq<byte>)
      requires |data| < TWO32 && (computed || Sha1State())
      modifies `regs, `total0, `total1, `buflen, `corrupted, `done, `message, buffer
      ensures message == old(message) + data
      ensures !old(computed) ==> Sha1State()
      ensures old(computed) ==> computed && regs == old(regs) && corrupted == (old(corrupted) || data != [])
    {
      if |data| == 0 {
        return;
      }
      if computed || corrupted {
        corrupted := true;
        message := message + data;
        return;
      }
      ghost var before := message;
      var i := 0;
      assert data[..0] == [];
      while i < |data| && !corrupted
        invariant i <= |data|
        invariant Sha1State() && message == before + data[..i]
      {
        hide Sha1State;
        SHA1Byte(data[i]);
        i := i + 1;
        assert data[..i] == data[..i - 1] + [data[i - 1]];
      }
      assert data[..i] + data[i..] == data;
      message := before + data;
    }

    /** Store zeros up to position to. */
    method SHA1Zeros(to: nat)
      requires buffer.Length == 128 && buflen <= to <= 128
      modifies `buflen, buffer
      ensures buflen == to && buffer[..to] == old(buffer[..buflen]) + Zeros(to - old(buflen))
    {
      ghost var start := buflen;
      ghost var before := buffer[..buflen];
      assert buffer[..buflen] == before + Zeros(0);
      while buflen < to
        invariant start <= buflen <= to
        invariant buffer[..buflen] == before + Zeros(buflen - start)
      {
        buffer[buflen] := 0;
        assert Zeros(buflen + 1 - start) == Zeros(buflen - start) + [0];
        buflen := buflen + 1;
      }
    }

    /** The one bit, and zeros up to position to. */
    method SHA1Mark(to: nat)
      requires buffer.Length == 128 && buflen < to <= 64
      modifies `buflen, buffer
      ensures buflen == to && buffer[..to] == old(buffer[..buflen]) + [0x80] + Zeros(to - old(buflen) - 1)
    {
      ghost var before := buffer[..buflen];
      buffer[buflen] := 0x80;
      buflen := buflen + 1;
      assert buffer[..buflen] == before + [0x80];
      SHA1Zeros(to);
    }

    /** Both branches of SHA1PadMessage. */
    method SHA1PadZeros()
      requires buffer.Length == 128 && buflen < 64 && Folded(SHA1)
      modifies `regs, `buflen, `done, buffer
      ensures Folded(SHA1) && buflen == 56
      ensures done + buffer[..56] ==
              old(done + buffer[..buflen]) + [0x80] + Zeros(if old(buflen) < 56 then 55 - old(buflen) else 119 - old(buflen))
    {
      hide Folded, Zeros;
      ghost var k, before, waiting := buflen, done, buffer[..buflen];
      if buflen > 55 {
        SHA1Mark(64);
        SHA1ProcessMessageBlock();
        assert buffer[..0] == [];
        SHA1Zeros(56);
        ZerosAdd(63 - k, 56);
        assert done + buffer[..56] == before + waiting + [0x80] + (Zeros(63 - k) + Zeros(56));
      } else {
        SHA1Mark(56);
        assert done + buffer[..56] == before + waiting + [0x80] + Zeros(55 - k);
      }
    }

    method SHA1PadMessage()
      requires Sha1State() && !corrupted
      modifies `regs, `buflen, `done, buffer
      ensures Folded(SHA1) && done == message + Padding(SHA1, |message|)
    {
      hide WordBytes, Zeros, Padding, Fold, Initial;
      Sha1Padding(|message|, buflen, total0, total1);
      ghost var zeros := Zeros(if buflen < 56 then 55 - buflen else 119 - buflen);
      ghost var length := WordBytes(total1) + WordBytes(total0);
      hide *;
      SHA1PadZeros();
      ghost var before, head := done, buffer[..56];
      SHA1PutLength();
      SHA1ProcessMessageBlock();
      Reassociate(before, head, length, done, message, [0x80], zeros);
    }

    /** The bit length goes into the last eight bytes. */
    method SHA1PutLength()
      requires buffer.Length == 128
      modifies buffer
      ensures buffer[..64] == old(buffer[..56]) + (WordBytes(total1) + WordBytes(total0))
    {
      hide WordBytes;
      Memcpy(buffer, 56, WordBytes(total1) + WordBytes(total0));
    }

    method SHA1Result() returns (ok: bool)
      requires computed || Sha1State()
      modifies `regs, `buflen, `computed, `done, buffer
      ensures ok == !corrupted
      ensures ok && !old(computed) ==> computed && Output(SHA1, regs) == Hash(SHA1, message)
      ensures old(computed) ==> computed && regs == old(regs)
    {
      if corrupted {
        return false;
      }
      if !computed {
        SHA1PadMessage();
        computed := true;
      }
      return true;
    }
  }

  method Sha1Compress(r: Registers, block: seq<byte>) returns (r': Registers)
    requires |block| == 64
    ensures r' == Compress(SHA1, r, block)
  {
    hide Sha1Block.Compress;
    r' := Sha1Block.ProcessBlock(r, block);
  }

  lemma ZerosAdd(a: nat, b: nat)
    ensures Zeros(a) + Zeros(b) == Zeros(a + b)
  {
  }

  lemma Sha1Padding(n: nat, buflen: nat, total0: nat, total1: nat)
    requires buflen < 64 && buflen <= n && IsWhole(n - buflen)
    requires total0 == 8 * n % TWO32 && total1 == 8 * n / TWO32 % TWO32
    ensures Padding(SHA1, n) ==
            [0x80] + Zeros(if buflen < 56 then 55 - buflen else 119 - buflen) + (WordBytes(total1) + WordBytes(total0))
  {
    SameRemainder(n, buflen);
    hide WordBytes, Zeros;
  }

  lemma Reassociate(before: seq<byte>, head: seq<byte>, length: seq<byte>, done: seq<byte>,
                    m: seq<byte>, mark: seq<byte>, zeros: seq<byte>)
    requires done == before + (head + length) && before + head == m + mark + zeros
    ensures done == m + (mark + zeros + length)
  {
    assert done == (before + head) + length;
  }

  lemma BitsCarry(n: nat)
    requires 8 * n < TWO64
    ensures 8 * (n + 1) % TWO32 == (8 * n % TWO32 + 8) % TWO32
    ensures 8 * (n + 1) / TWO32 % TWO32 ==
            if 8 * (n + 1) % TWO32 == 0 then (8 * n / TWO32 % TWO32 + 1) % TWO32 else 8 * n / TWO32 % TWO32
    ensures 8 * (n + 1) >= TWO64 <==> 8 * (n + 1) % TWO32 == 0 && 8 * (n + 1) / TWO32 % TWO32 == 0
  {
    AddCarries(8 * n, 8);
    var q, r := 8 * n / TWO32, 8 * n % TWO32;
    assert 8 * n == TWO32 * q + r && r % 8 == 0 && q < TWO32;
    if r + 8 < TWO32 {
      assert 8 * (n + 1) / TWO32 == q;
    } else {
      assert r + 8 == TWO32 && 8 * (n + 1) == TWO32 * (q + 1);
    }
  }

  method PutTail(buffer: array<byte>, at: nat, fill: seq<byte>, low: seq<byte>, high: seq<byte>)
    requires |low| == |high| == 4 && at + |fill| + 8 <= buffer.Length
    modifies buffer
    ensures buffer[..at + |fill| + 8] == old(buffer[..at]) + (fill + low + high)
  {
    Memcpy(buffer, at, fill);
    Memcpy(buffer, at + |fill|, low);
    Memcpy(buffer, at + |fill| + 4, high);
  }

  /** A one bit, and zeros: the longest padding there is. */
  const FILLBUF: seq<byte> := [0x80] + Zeros(63)

  /** The two words of the bit length. */
  lemma LengthWords(n: nat, total0: nat, total1: nat)
    requires total0 == n % TWO32 && total1 == n / TWO32 % TWO32
    ensures total0 * 8 % TWO32 == 8 * n % TWO32
    ensures Or(total1 * 8 % TWO32, total0 / 0x20000000) == 8 * n / TWO32 % TWO32
  {
    hide Or;
    var u, w := total0 / 0x20000000, total1 % 0x20000000;
    var q := n / TWO32;
    LowWord(n, q, total0);
    HighWord(q, total1, u);
    OrAdds(8 * w, u);
  }

  /** Eight times a number, cut into the lower 32 bits and the rest. */
  lemma LowWord(n: nat, q: nat, low: nat)
    requires q == n / TWO32 && low == n % TWO32
    ensures 8 * n / TWO32 == 8 * q + low / 0x20000000 && 8 * n % TWO32 == low * 8 % TWO32
    ensures low / 0x20000000 < 8
  {
    var u, v := low / 0x20000000, low % 0x20000000;
    assert 8 * n == TWO32 * (8 * q + u) + 8 * v;
    assert low * 8 == TWO32 * u + 8 * v;
  }

  lemma HighWord(q: nat, high: nat, u: nat)
    requires high == q % TWO32 && u < 8
    ensures high * 8 % TWO32 == 8 * (high % 0x20000000)
    ensures (8 * q + u) % TWO32 == 8 * (high % 0x20000000) + u
  {
    var w := high % 0x20000000;
    assert 8 * q + u == TWO32 * (8 * (q / TWO32) + high / 0x20000000) + (8 * w + u);
    assert high * 8 == TWO32 * (high / 0x20000000) + 8 * w;
  }

  /** The bytes that MD5FlushState puts behind the message are the padding. */
  lemma PaddedTail(n: nat, bytes: nat, padding: nat, total0: nat, total1: nat)
    requires bytes <= 64 && bytes <= n && IsWhole(n - bytes)
    requires padding == if bytes >= 56 then 64 + 56 - bytes else 56 - bytes
    requires total0 == n % TWO32 && total1 == n / TWO32 % TWO32
    ensures FILLBUF[..padding] + ReversedWordBytes(total0 * 8 % TWO32)
              + ReversedWordBytes(Or(total1 * 8 % TWO32, total0 / 0x20000000)) == Padding(MD5, n)
    ensures IsWhole(bytes + padding + 8)
  {
    LengthWords(n, total0, total1);
    SameRemainder(n, bytes);
    hide Or, ReversedWordBytes, TWO32;
    assert padding == 1 + ZeroCount(n);
    FillIs(padding);
  }

  lemma SameRemainder(n: nat, k: nat)
    requires k <= 64 && k <= n && IsWhole(n - k)
    ensures n % 64 == if k == 64 then 0 else k
  {
  }

  lemma FillIs(padding: nat)
    requires 0 < padding <= 64
    ensures FILLBUF[..padding] == [0x80] + Zeros(padding - 1)
  {
  }

  lemma AddCarries(n: nat, k: nat)
    requires k < TWO32
    ensures (n + k) % TWO32 == (n % TWO32 + k) % TWO32
    ensures (n + k) / TWO32 % TWO32 ==
            if (n % TWO32 + k) % TWO32 < k then (n / TWO32 % TWO32 + 1) % TWO32 else n / TWO32 % TWO32
  {
    var q, r := n / TWO32, n % TWO32;
    assert n == TWO32 * q + r;
    if r + k < TWO32 {
      assert (n + k) / TWO32 == q && (n + k) % TWO32 == r + k;
    } else {
      assert n + k == TWO32 * (q + 1) + (r + k - TWO32);
      assert (n + k) / TWO32 == q + 1;
    }
  }
}
