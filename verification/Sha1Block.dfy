/**
 The SHA-1 block function: the loops of SHA1ProcessMessageBlock compute method 1
 of section 6.1 of RFC 3174.
 */
module Sha1Block {
  import opened Words

  // ----- RFC 3174 -----

  function Mix(a: word, b: word, c: word, d: word): word {
    RotateLeft(a ^ b ^ c ^ d, 1)
  }

  /** The word sequence W(0), ..., W(79) of a block. */
  function W(block: seq<byte>, t: nat): word
    requires |block| == 64
  {
    if t < 16 then BigEndian(block[4 * t..4 * t + 4])
    else Mix(W(block, t - 3), W(block, t - 8), W(block, t - 14), W(block, t - 16))
  }

  function Choose(b: word, c: word, d: word): word { (b & c) | (!b & d) }

  function Parity(b: word, c: word, d: word): word { b ^ c ^ d }

  function Majority(b: word, c: word, d: word): word { (b & c) | (b & d) | (c & d) }

  function F(t: nat, b: word, c: word, d: word): word {
    if t < 20 then Choose(b, c, d)
    else if t < 40 then Parity(b, c, d)
    else if t < 60 then Majority(b, c, d)
    else Parity(b, c, d)
  }

  function K(t: nat): word {
    if t < 20 then 0x5A827999
    else if t < 40 then 0x6ED9EBA1
    else if t < 60 then 0x8F1BBCDC
    else 0xCA62C1D6
  }

  function Temp(a: word, f: word, e: word, w: word, k: word): word {
    RotateLeft(a, 5) + f + e + w + k
  }

  function Step(t: nat, r: Registers, w: word): Registers {
    Registers(Temp(r.a, F(t, r.b, r.c, r.d), r.e, w, K(t)), r.a, RotateLeft(r.b, 30), r.c, r.d)
  }

  function Steps(n: nat, r: Registers, block: seq<byte>): Registers
    requires |block| == 64
  {
    if n == 0 then r else Step(n - 1, Steps(n - 1, r, block), W(block, n - 1))
  }

  function Plus(r: Registers, q: Registers): Registers {
    Registers(r.a + q.a, r.b + q.b, r.c + q.c, r.d + q.d, r.e + q.e)
  }

  /** The effect of one block on the registers. */
  function Compress(r: Registers, block: seq<byte>): Registers
    requires |block| == 64
  {
    Plus(r, Steps(80, r, block))
  }

  // ----- digest.c -----

  method WordSequence(block: seq<byte>) returns (w: array<word>)
    requires |block| == 64
    ensures fresh(w) && w.Length == 80
    ensures forall t | 0 <= t < 80 :: w[t] == W(block, t)
  {
    hide BigEndian, Mix;
    w := new word[80];
    for t := 0 to 16
      invariant forall u | 0 <= u < t :: w[u] == W(block, u)
    {
      w[t] := BigEndian(block[4 * t..4 * t + 4]);
    }
    for t := 16 to 80
      invariant forall u | 0 <= u < t :: w[u] == W(block, u)
    {
      w[t] := Mix(w[t - 3], w[t - 8], w[t - 14], w[t - 16]);
    }
  }

  method ProcessBlock(r: Registers, block: seq<byte>) returns (r': Registers)
    requires |block| == 64
    ensures r' == Compress(r, block)
  {
    hide RotateLeft, W, Choose, Parity, Majority, Steps, Temp, Plus;
    var w := WordSequence(block);
    var A, B, C, D, E := r.a, r.b, r.c, r.d, r.e;
    assert Steps(0, r, block) == r by { StepsAt(0, r, block); }
    for t := 0 to 20
      invariant Registers(A, B, C, D, E) == Steps(t, r, block)
      modifies {}
    {
      var temp := Temp(A, Choose(B, C, D), E, w[t], 0x5A827999);
      StepsAt(t + 1, r, block);
      A, B, C, D, E := temp, A, RotateLeft(B, 30), C, D;
    }
    for t := 20 to 40
      invariant Registers(A, B, C, D, E) == Steps(t, r, block)
      modifies {}
    {
      var temp := Temp(A, Parity(B, C, D), E, w[t], 0x6ED9EBA1);
      StepsAt(t + 1, r, block);
      A, B, C, D, E := temp, A, RotateLeft(B, 30), C, D;
    }
    for t := 40 to 60
      invariant Registers(A, B, C, D, E) == Steps(t, r, block)
      modifies {}
    {
      var temp := Temp(A, Majority(B, C, D), E, w[t], 0x8F1BBCDC);
      StepsAt(t + 1, r, block);
      A, B, C, D, E := temp, A, RotateLeft(B, 30), C, D;
    }
    for t := 60 to 80
      invariant Registers(A, B, C, D, E) == Steps(t, r, block)
      modifies {}
    {
      var temp := Temp(A, Parity(B, C, D), E, w[t], 0xCA62C1D6);
      StepsAt(t + 1, r, block);
      A, B, C, D, E := temp, A, RotateLeft(B, 30), C, D;
    }
    r' := Plus(r, Registers(A, B, C, D, E));
  }

  lemma StepsAt(n: nat, r: Registers, block: seq<byte>)
    requires |block| == 64
    ensures n == 0 ==> Steps(n, r, block) == r
    ensures 0 < n ==> Steps(n, r, block) == Step(n - 1, Steps(n - 1, r, block), W(block, n - 1))
  {
  }
}
