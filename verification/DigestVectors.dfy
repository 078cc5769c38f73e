/**
 The digests of "abc" that section A.5 of RFC 1321 and section 7.3 of RFC 3174
 publish, computed step by step.
 */
module DigestVectors {
  import opened Words
  import opened DigestSpec
  import M = Md5Block
  import S = Sha1Block

  // ----- The message -----

  const ABC: seq<byte> := [0x61, 0x62, 0x63]

  /** The one block of the padded message. */
  function Block(h: HashFunction): (b: seq<byte>)
    ensures |b| == 64
  {
    ABC + Padding(h, 3)
  }

  lemma AbcLength()
    ensures LengthBytes(MD5, 24) == [0x18, 0, 0, 0, 0, 0, 0, 0] && LengthBytes(SHA1, 24) == [0, 0, 0, 0, 0, 0, 0, 0x18]
    ensures ZeroCount(3) == 52
  {
    hide WordBytes, ReversedWordBytes;
    SmallWords();
  }

  lemma SmallWords()
    ensures WordBytes(0) == ReversedWordBytes(0) == [0, 0, 0, 0]
    ensures WordBytes(24) == [0, 0, 0, 0x18] && ReversedWordBytes(24) == [0x18, 0, 0, 0]
  {
  }

  lemma BlockIs(h: HashFunction)
    ensures Block(h)[..4] == [0x61, 0x62, 0x63, 0x80] && forall i | 4 <= i < 56 :: Block(h)[i] == 0
    ensures Block(h)[56..] == if h.MD5? then [0x18, 0, 0, 0, 0, 0, 0, 0] else [0, 0, 0, 0, 0, 0, 0, 0x18]
  {
    hide LengthBytes, ZeroCount;
    AbcLength();
    assert Block(h) == ABC + ([0x80] + Zeros(52) + LengthBytes(h, 24));
  }

  lemma ZeroWord(b: seq<byte>)
    requires b == [0, 0, 0, 0]
    ensures LittleEndian(b) == 0 && BigEndian(b) == 0
  {
  }

  lemma AbcWords()
    ensures LittleEndian([0x61, 0x62, 0x63, 0x80]) == 0x80636261 && LittleEndian([0x18, 0, 0, 0]) == 0x18
    ensures BigEndian([0x61, 0x62, 0x63, 0x80]) == 0x61626380 && BigEndian([0, 0, 0, 0x18]) == 0x18
  {
  }

  /** The words of the block but for the first one and those of the length are zero. */
  lemma WordsAreZero(b: seq<byte>, k: nat)
    requires |b| == 64 && 0 < k < 14 && forall i | 4 <= i < 56 :: b[i] == 0
    ensures LittleEndian(b[4 * k..4 * k + 4]) == 0 && BigEndian(b[4 * k..4 * k + 4]) == 0
  {
    hide LittleEndian, BigEndian;
    assert b[4 * k..4 * k + 4] == [0, 0, 0, 0];
    ZeroWord(b[4 * k..4 * k + 4]);
  }

  lemma HashOfBlock(h: HashFunction)
    ensures Hash(h, ABC) == Output(h, Compress(h, Initial(), Block(h)))
  {
    hide Compress, Padding, Output;
    var b := Block(h);
    assert b == ABC + Padding(h, |ABC|) && b[..64] == b && b[64..] == [];
    hide Block;
    FoldOfBlock(h, b);
  }

  lemma FoldOfBlock(h: HashFunction, b: seq<byte>)
    requires |b| == 64
    ensures IsWhole(|b|) && Fold(h, Initial(), b) == Compress(h, Initial(), b)
  {
    hide Compress;
    FoldBlock(h, Initial(), [], b);
    assert [] + b == b;
  }

  // ----- MD5 -----

  const START: M.Quad := M.Quad(0x67452301, 0xefcdab89, 0x98badcfe, 0x10325476)

  predicate IsMd5Abc(x: seq<word>) {
    |x| == 16 && x[0] == 0x80636261 && x[14] == 0x18 && forall k | 0 < k < 16 && k != 14 :: x[k] == 0
  }

  lemma Md5Words()
    ensures IsMd5Abc(M.BlockWords(Block(MD5)))
  {
    var b := Block(MD5);
    BlockIs(MD5);
    hide Block, LittleEndian, BigEndian;
    AbcWords();
    assert b[0..4] == b[..4] && b[56..60] == b[56..][..4] == [0x18, 0, 0, 0] && b[60..64] == b[56..][4..] == [0, 0, 0, 0];
    ZeroWord(b[60..64]);
    forall k | 0 < k < 14 ensures LittleEndian(b[4 * k..4 * k + 4]) == 0 { WordsAreZero(b, k); }
  }

  lemma EachMd5Word(x: seq<word>)
    requires IsMd5Abc(x)
    ensures |x| == 16 && x[0] == 0x80636261 && x[1] == x[2] == x[3] == x[4] == x[5] == x[6] == x[7] == x[8] == 0
    ensures x[9] == x[10] == x[11] == x[12] == x[13] == x[15] == 0 && x[14] == 0x18
  {
  }

  /** Four steps, given what each of them computes. */
  lemma FourSteps(i: nat, x: seq<word>, a: word, d: word, c: word, b: word)
    requires i <= 60 && |x| == 16
    requires var q := M.Steps(i, START, x);
             && OpOf(i, x, q.a, q.b, q.c, q.d) == a
             && OpOf(i + 1, x, q.d, a, q.b, q.c) == d
             && OpOf(i + 2, x, q.c, d, a, q.b) == c
             && OpOf(i + 3, x, q.b, c, d, a) == b
    ensures M.Steps(i + 4, START, x) == M.Quad(a, b, c, d)
  {
    hide M.Op, M.RoundFunction, M.Shift, M.Sine, M.WordIndex, M.Steps;
    M.StepsByFour(i, START, x);
  }

  function OpOf(i: nat, x: seq<word>, a: word, b: word, c: word, d: word): word
    requires i < 64 && |x| == 16
  {
    var f := M.RoundFunction(i, b, c, d);
    M.Op(f, a, b, M.Shift(i), M.Sine(i), x[M.WordIndex(i)])
  }

  lemma Md5Operations1()
    ensures M.Op(M.F(0xefcdab89, 0x98badcfe, 0x10325476), 0x67452301, 0xefcdab89, 7, 0xd76aa478, 0x80636261) == 0xd6d117b4
    ensures M.Op(M.F(0xd6d117b4, 0xefcdab89, 0x98badcfe), 0x10325476, 0xd6d117b4, 12, 0xe8c7b756, 0) == 0x344a8432
    ensures M.Op(M.F(0x344a8432, 0xd6d117b4, 0xefcdab89), 0x98badcfe, 0x344a8432, 17, 0x242070db, 0) == 0x2f6fbd72
    ensures M.Op(M.F(0x2f6fbd72, 0x344a8432, 0xd6d117b4), 0xefcdab89, 0x2f6fbd72, 22, 0xc1bdceee, 0) == 0x7ad956f2
    ensures M.Op(M.F(0x7ad956f2, 0x2f6fbd72, 0x344a8432), 0xd6d117b4, 0x7ad956f2, 7, 0xf57c0faf, 0) == 0xc73741ef
    ensures M.Op(M.F(0xc73741ef, 0x7ad956f2, 0x2f6fbd72), 0x344a8432, 0xc73741ef, 12, 0x4787c62a, 0) == 0x8bac3051
    ensures M.Op(M.F(0x8bac3051, 0xc73741ef, 0x7ad956f2), 0x2f6fbd72, 0x8bac3051, 17, 0xa8304613, 0) == 0x207dc67b
    ensures M.Op(M.F(0x207dc67b, 0x8bac3051, 0xc73741ef), 0x7ad956f2, 0x207dc67b, 22, 0xfd469501, 0) == 0x928d99f6
    ensures M.Op(M.F(0x928d99f6, 0x207dc67b, 0x8bac3051), 0xc73741ef, 0x928d99f6, 7, 0x698098d8, 0) == 0x854b3712
    ensures M.Op(M.F(0x854b3712, 0x928d99f6, 0x207dc67b), 0x8bac3051, 0x854b3712, 12, 0x8b44f7af, 0) == 0x74e2f284
    ensures M.Op(M.F(0x74e2f284, 0x854b3712, 0x928d99f6), 0x207dc67b, 0x74e2f284, 17, 0xffff5bb1, 0) == 0x3020401c
    ensures M.Op(M.F(0x3020401c, 0x74e2f284, 0x854b3712), 0x928d99f6, 0x3020401c, 22, 0x895cd7be, 0) == 0x5ed49596
    ensures M.Op(M.F(0x5ed49596, 0x3020401c, 0x74e2f284), 0x854b3712, 0x5ed49596, 7, 0x6b901122, 0) == 0xdda9b9a6
    ensures M.Op(M.F(0xdda9b9a6, 0x5ed49596, 0x3020401c), 0x74e2f284, 0xdda9b9a6, 12, 0xfd987193, 0) == 0xa1051895
    ensures M.Op(M.F(0xa1051895, 0xdda9b9a6, 0x5ed49596), 0x3020401c, 0xa1051895, 17, 0xa679438e, 0x18) == 0xe396856b
    ensures M.Op(M.F(0xe396856b, 0xa1051895, 0xdda9b9a6), 0x5ed49596, 0xe396856b, 22, 0x49b40821, 0) == 0x72aff2e0
  {
  }

  lemma Md5Round1(x: seq<word>)
    requires IsMd5Abc(x)
    requires M.Steps(0, START, x) == M.Quad(0x67452301, 0xefcdab89, 0x98badcfe, 0x10325476)
    ensures M.Steps(16, START, x) == M.Quad(0xdda9b9a6, 0x72aff2e0, 0xe396856b, 0xa1051895)
  {
    hide *;
    EachMd5Word(x);
    M.WordsOfRound1();
    M.ShiftsOfRound1();
    M.SinesOfRound1();
    Md5Operations1();
    IsRound1(x);
    FourSteps(0, x, 0xd6d117b4, 0x344a8432, 0x2f6fbd72, 0x7ad956f2);
    FourSteps(4, x, 0xc73741ef, 0x8bac3051, 0x207dc67b, 0x928d99f6);
    FourSteps(8, x, 0x854b3712, 0x74e2f284, 0x3020401c, 0x5ed49596);
    FourSteps(12, x, 0xdda9b9a6, 0xa1051895, 0xe396856b, 0x72aff2e0);
  }

  /** What an operation of this round is, in the terms of RFC 1321. */
  lemma IsRound1(x: seq<word>)
    requires |x| == 16
    ensures forall i: nat, a, b, c, d | 0 <= i < 16 ::
              OpOf(i, x, a, b, c, d) ==
              M.Op(M.F(b, c, d), a, b, M.Shift(i), M.Sine(i), x[M.WordIndex(i)])
  {
    hide M.Op, M.Shift, M.Sine, M.WordIndex;
  }

  lemma Md5Operations2()
    ensures M.Op(M.G(0x72aff2e0, 0xe396856b, 0xa1051895), 0xdda9b9a6, 0x72aff2e0, 5, 0xf61e2562, 0) == 0x3e9e9126
    ensures M.Op(M.G(0x3e9e9126, 0x72aff2e0, 0xe396856b), 0xa1051895, 0x3e9e9126, 9, 0xc040b340, 0) == 0x4a1d804e
    ensures M.Op(M.G(0x4a1d804e, 0x3e9e9126, 0x72aff2e0), 0xe396856b, 0x4a1d804e, 14, 0x265e5a51, 0) == 0xe25e1652
    ensures M.Op(M.G(0xe25e1652, 0x4a1d804e, 0x3e9e9126), 0x72aff2e0, 0xe25e1652, 20, 0xe9b6c7aa, 0x80636261) == 0xb5b204e4
    ensures M.Op(M.G(0xb5b204e4, 0xe25e1652, 0x4a1d804e), 0x3e9e9126, 0xb5b204e4, 5, 0xd62f105d, 0) == 0x59a8ffda
    ensures M.Op(M.G(0x59a8ffda, 0xb5b204e4, 0xe25e1652), 0x4a1d804e, 0x59a8ffda, 9, 0x02441453, 0) == 0x6d002f1e
    ensures M.Op(M.G(0x6d002f1e, 0x59a8ffda, 0xb5b204e4), 0xe25e1652, 0x6d002f1e, 14, 0xd8a1e681, 0) == 0xabfc7920
    ensures M.Op(M.G(0xabfc7920, 0x6d002f1e, 0x59a8ffda), 0xb5b204e4, 0xabfc7920, 20, 0xe7d3fbc8, 0) == 0x47092c07
    ensures M.Op(M.G(0x47092c07, 0xabfc7920, 0x6d002f1e), 0x59a8ffda, 0x47092c07, 5, 0x21e1cde6, 0) == 0xb7f268cf
    ensures M.Op(M.G(0xb7f268cf, 0x47092c07, 0xabfc7920), 0x6d002f1e, 0xb7f268cf, 9, 0xc33707d6, 0x18) == 0x09388eff
    ensures M.Op(M.G(0x09388eff, 0xb7f268cf, 0x47092c07), 0xabfc7920, 0x09388eff, 14, 0xf4d50d87, 0) == 0xfe1623b1
    ensures M.Op(M.G(0xfe1623b1, 0x09388eff, 0xb7f268cf), 0x47092c07, 0xfe1623b1, 20, 0x455a14ed, 0) == 0x786acb8f
    ensures M.Op(M.G(0x786acb8f, 0xfe1623b1, 0x09388eff), 0xb7f268cf, 0x786acb8f, 5, 0xa9e3e905, 0) == 0x790a77fb
    ensures M.Op(M.G(0x790a77fb, 0x786acb8f, 0xfe1623b1), 0x09388eff, 0x790a77fb, 9, 0xfcefa3f8, 0) == 0x9f47e4f8
    ensures M.Op(M.G(0x9f47e4f8, 0x790a77fb, 0x786acb8f), 0xfe1623b1, 0x9f47e4f8, 14, 0x676f02d9, 0) == 0xa62884aa
    ensures M.Op(M.G(0xa62884aa, 0x9f47e4f8, 0x790a77fb), 0x786acb8f, 0xa62884aa, 20, 0x8d2a4c8a, 0) == 0x726342d3
  {
  }

  lemma Md5Round2(x: seq<word>)
    requires IsMd5Abc(x)
    requires M.Steps(16, START, x) == M.Quad(0xdda9b9a6, 0x72aff2e0, 0xe396856b, 0xa1051895)
    ensures M.Steps(32, START, x) == M.Quad(0x790a77fb, 0x726342d3, 0xa62884aa, 0x9f47e4f8)
  {
    hide *;
    EachMd5Word(x);
    M.WordsOfRound2();
    M.ShiftsOfRound2();
    M.SinesOfRound2();
    Md5Operations2();
    IsRound2(x);
    FourSteps(16, x, 0x3e9e9126, 0x4a1d804e, 0xe25e1652, 0xb5b204e4);
    FourSteps(20, x, 0x59a8ffda, 0x6d002f1e, 0xabfc7920, 0x47092c07);
    FourSteps(24, x, 0xb7f268cf, 0x09388eff, 0xfe1623b1, 0x786acb8f);
    FourSteps(28, x, 0x790a77fb, 0x9f47e4f8, 0xa62884aa, 0x726342d3);
  }

  /** What an operation of this round is, in the terms of RFC 1321. */
  lemma IsRound2(x: seq<word>)
    requires |x| == 16
    ensures forall i: nat, a, b, c, d | 16 <= i < 32 ::
              OpOf(i, x, a, b, c, d) ==
              M.Op(M.G(b, c, d), a, b, M.Shift(i), M.Sine(i), x[M.WordIndex(i)])
  {
    hide M.Op, M.Shift, M.Sine, M.WordIndex;
  }

  lemma Md5Operations3()
    ensures M.Op(M.H(0x726342d3, 0xa62884aa, 0x9f47e4f8), 0x790a77fb, 0x726342d3, 4, 0xfffa3942, 0) == 0xb3707ebf
    ensures M.Op(M.H(0xb3707ebf, 0x726342d3, 0xa62884aa), 0x9f47e4f8, 0xb3707ebf, 11, 0x8771f681, 0) == 0x60127b2e
    ensures M.Op(M.H(0x60127b2e, 0xb3707ebf, 0x726342d3), 0xa62884aa, 0x60127b2e, 16, 0x6d9d6122, 0) == 0x8d212ff5
    ensures M.Op(M.H(0x8d212ff5, 0x60127b2e, 0xb3707ebf), 0x726342d3, 0x8d212ff5, 23, 0xfde5380c, 0x18) == 0x3b0875c7
    ensures M.Op(M.H(0x3b0875c7, 0x8d212ff5, 0x60127b2e), 0xb3707ebf, 0x3b0875c7, 4, 0xa4beea44, 0) == 0x21b117b9
    ensures M.Op(M.H(0x21b117b9, 0x3b0875c7, 0x8d212ff5), 0x60127b2e, 0x21b117b9, 11, 0x4bdecfa9, 0) == 0x6e7429d5
    ensures M.Op(M.H(0x6e7429d5, 0x21b117b9, 0x3b0875c7), 0x8d212ff5, 0x6e7429d5, 16, 0xf6bb4b60, 0) == 0x3575227e
    ensures M.Op(M.H(0x3575227e, 0x6e7429d5, 0x21b117b9), 0x3b0875c7, 0x3575227e, 23, 0xbebfbc70, 0) == 0x5a2f5ea5
    ensures M.Op(M.H(0x5a2f5ea5, 0x3575227e, 0x6e7429d5), 0x21b117b9, 0x5a2f5ea5, 4, 0x289b7ec6, 0) == 0x11de1779
    ensures M.Op(M.H(0x11de1779, 0x5a2f5ea5, 0x3575227e), 0x6e7429d5, 0x11de1779, 11, 0xeaa127fa, 0x80636261) == 0xfadcaa38
    ensures M.Op(M.H(0xfadcaa38, 0x11de1779, 0x5a2f5ea5), 0x3575227e, 0xfadcaa38, 16, 0xd4ef3085, 0) == 0x31c465ca
    ensures M.Op(M.H(0x31c465ca, 0xfadcaa38, 0x11de1779), 0x5a2f5ea5, 0x31c465ca, 23, 0x04881d05, 0) == 0x4c6124f4
    ensures M.Op(M.H(0x4c6124f4, 0x31c465ca, 0xfadcaa38), 0x11de1779, 0x4c6124f4, 4, 0xd9d4d039, 0) == 0x7f2e507b
    ensures M.Op(M.H(0x7f2e507b, 0x4c6124f4, 0x31c465ca), 0xfadcaa38, 0x7f2e507b, 11, 0xe6db99e5, 0) == 0x99d9679d
    ensures M.Op(M.H(0x99d9679d, 0x7f2e507b, 0x4c6124f4), 0x31c465ca, 0x99d9679d, 16, 0x1fa27cf8, 0) == 0x8fae6399
    ensures M.Op(M.H(0x8fae6399, 0x99d9679d, 0x7f2e507b), 0x4c6124f4, 0x8fae6399, 23, 0xc4ac5665, 0) == 0x7beb9700
  {
  }

  lemma Md5Round3(x: seq<word>)
    requires IsMd5Abc(x)
    requires M.Steps(32, START, x) == M.Quad(0x790a77fb, 0x726342d3, 0xa62884aa, 0x9f47e4f8)
    ensures M.Steps(48, START, x) == M.Quad(0x7f2e507b, 0x7beb9700, 0x8fae6399, 0x99d9679d)
  {
    hide *;
    EachMd5Word(x);
    M.WordsOfRound3();
    M.ShiftsOfRound3();
    M.SinesOfRound3();
    Md5Operations3();
    IsRound3(x);
    FourSteps(32, x, 0xb3707ebf, 0x60127b2e, 0x8d212ff5, 0x3b0875c7);
    FourSteps(36, x, 0x21b117b9, 0x6e7429d5, 0x3575227e, 0x5a2f5ea5);
    FourSteps(40, x, 0x11de1779, 0xfadcaa38, 0x31c465ca, 0x4c6124f4);
    FourSteps(44, x, 0x7f2e507b, 0x99d9679d, 0x8fae6399, 0x7beb9700);
  }

  /** What an operation of this round is, in the terms of RFC 1321. */
  lemma IsRound3(x: seq<word>)
    requires |x| == 16
    ensures forall i: nat, a, b, c, d | 32 <= i < 48 ::
              OpOf(i, x, a, b, c, d) ==
              M.Op(M.H(b, c, d), a, b, M.Shift(i), M.Sine(i), x[M.WordIndex(i)])
  {
    hide M.Op, M.Shift, M.Sine, M.WordIndex;
  }

  lemma Md5Operations4()
    ensures M.Op(M.I(0x7beb9700, 0x8fae6399, 0x99d9679d), 0x7f2e507b, 0x7beb9700, 6, 0xf4292244, 0x80636261) == 0x7b201df8
    ensures M.Op(M.I(0x7b201df8, 0x7beb9700, 0x8fae6399), 0x99d9679d, 0x7b201df8, 10, 0x432aff97, 0) == 0xf4e8e96e
    ensures M.Op(M.I(0xf4e8e96e, 0x7b201df8, 0x7beb9700), 0x8fae6399, 0xf4e8e96e, 15, 0xab9423a7, 0x18) == 0xb298cefd
    ensures M.Op(M.I(0xb298cefd, 0xf4e8e96e, 0x7b201df8), 0x7beb9700, 0xb298cefd, 21, 0xfc93a039, 0) == 0x8bf025c4
    ensures M.Op(M.I(0x8bf025c4, 0xb298cefd, 0xf4e8e96e), 0x7b201df8, 0x8bf025c4, 6, 0x655b59c3, 0) == 0x06cc5e8a
    ensures M.Op(M.I(0x06cc5e8a, 0x8bf025c4, 0xb298cefd), 0xf4e8e96e, 0x06cc5e8a, 10, 0x8f0ccc92, 0) == 0x5b0d97aa
    ensures M.Op(M.I(0x5b0d97aa, 0x06cc5e8a, 0x8bf025c4), 0xb298cefd, 0x5b0d97aa, 15, 0xffeff47d, 0) == 0x7d632dd0
    ensures M.Op(M.I(0x7d632dd0, 0x5b0d97aa, 0x06cc5e8a), 0x8bf025c4, 0x7d632dd0, 21, 0x85845dd1, 0) == 0x3bfa2c27
    ensures M.Op(M.I(0x3bfa2c27, 0x7d632dd0, 0x5b0d97aa), 0x06cc5e8a, 0x3bfa2c27, 6, 0x6fa87e4f, 0) == 0x7f81cc35
    ensures M.Op(M.I(0x7f81cc35, 0x3bfa2c27, 0x7d632dd0), 0x5b0d97aa, 0x7f81cc35, 10, 0xfe2ce6e0, 0) == 0x094454ab
    ensures M.Op(M.I(0x094454ab, 0x7f81cc35, 0x3bfa2c27), 0x7d632dd0, 0x094454ab, 15, 0xa3014314, 0) == 0x4f9dbe3f
    ensures M.Op(M.I(0x4f9dbe3f, 0x094454ab, 0x7f81cc35), 0x3bfa2c27, 0x4f9dbe3f, 21, 0x4e0811a1, 0) == 0x7327d604
    ensures M.Op(M.I(0x7327d604, 0x4f9dbe3f, 0x094454ab), 0x7f81cc35, 0x7327d604, 6, 0xf7537e82, 0) == 0x310ade8f
    ensures M.Op(M.I(0x310ade8f, 0x7327d604, 0x4f9dbe3f), 0x094454ab, 0x310ade8f, 10, 0xbd3af235, 0) == 0x624d8cb2
    ensures M.Op(M.I(0x624d8cb2, 0x310ade8f, 0x7327d604), 0x4f9dbe3f, 0x624d8cb2, 15, 0x2ad7d2bb, 0) == 0xe484b9d8
    ensures M.Op(M.I(0xe484b9d8, 0x624d8cb2, 0x310ade8f), 0x7327d604, 0xe484b9d8, 21, 0xeb86d391, 0) == 0xc08226b3
  {
  }

  lemma Md5Round4(x: seq<word>)
    requires IsMd5Abc(x)
    requires M.Steps(48, START, x) == M.Quad(0x7f2e507b, 0x7beb9700, 0x8fae6399, 0x99d9679d)
    ensures M.Steps(64, START, x) == M.Quad(0x310ade8f, 0xc08226b3, 0xe484b9d8, 0x624d8cb2)
  {
    hide *;
    EachMd5Word(x);
    M.WordsOfRound4();
    M.ShiftsOfRound4();
    M.SinesOfRound4();
    Md5Operations4();
    IsRound4(x);
    FourSteps(48, x, 0x7b201df8, 0xf4e8e96e, 0xb298cefd, 0x8bf025c4);
    FourSteps(52, x, 0x06cc5e8a, 0x5b0d97aa, 0x7d632dd0, 0x3bfa2c27);
    FourSteps(56, x, 0x7f81cc35, 0x094454ab, 0x4f9dbe3f, 0x7327d604);
    FourSteps(60, x, 0x310ade8f, 0x624d8cb2, 0xe484b9d8, 0xc08226b3);
  }

  /** What an operation of this round is, in the terms of RFC 1321. */
  lemma IsRound4(x: seq<word>)
    requires |x| == 16
    ensures forall i: nat, a, b, c, d | 48 <= i < 64 ::
              OpOf(i, x, a, b, c, d) ==
              M.Op(M.I(b, c, d), a, b, M.Shift(i), M.Sine(i), x[M.WordIndex(i)])
  {
    hide M.Op, M.Shift, M.Sine, M.WordIndex;
  }

  lemma Md5OfBlock()
    ensures Compress(MD5, Initial(), Block(MD5)) ==
            Registers(0x98500190, 0xb04fd23c, 0x7d3f96d6, 0x727fe128, 0xc3d2e1f0)
  {
    hide M.Steps, M.BlockWords, Block;
    Md5Words();
    var x := M.BlockWords(Block(MD5));
    M.NoSteps(START, x);
    Md5Round1(x);
    Md5Round2(x);
    Md5Round3(x);
    Md5Round4(x);
  }

  /** Section A.5 of RFC 1321. */
  lemma Md5OfAbc()
    ensures Hash(MD5, [0x61, 0x62, 0x63]) ==
            [0x90, 0x01, 0x50, 0x98, 0x3c, 0xd2, 0x4f, 0xb0,
             0xd6, 0x96, 0x3f, 0x7d, 0x28, 0xe1, 0x7f, 0x72]
  {
    HashOfBlock(MD5);
    Md5OfBlock();
    hide Compress, Hash;
  }

  // ----- SHA-1 -----

  lemma Sha1Words()
    ensures var b := Block(SHA1);
            IsW(b, 0, 0x61626380, 0, 0, 0) && IsW(b, 4, 0, 0, 0, 0) && IsW(b, 8, 0, 0, 0, 0) && IsW(b, 12, 0, 0, 0, 0x18)
  {
    var b := Block(SHA1);
    BlockIs(SHA1);
    hide Block, LittleEndian, BigEndian, S.W;
    AbcWords();
    assert b[0..4] == b[..4] && b[56..60] == b[56..][..4] == [0, 0, 0, 0] && b[60..64] == b[56..][4..] == [0, 0, 0, 0x18];
    ZeroWord(b[56..60]);
    forall k | 0 < k < 14 ensures BigEndian(b[4 * k..4 * k + 4]) == 0 { WordsAreZero(b, k); }
    forall t: nat | t < 16 ensures S.W(b, t) == BigEndian(b[4 * t..4 * t + 4]) { FirstWord(b, t); }
  }

  lemma FirstWord(b: seq<byte>, t: nat)
    requires |b| == 64 && t < 16
    ensures S.W(b, t) == BigEndian(b[4 * t..4 * t + 4])
  {
    hide BigEndian;
  }

  /** Four words of the sequence. */
  predicate IsW(b: seq<byte>, t: nat, w: word, x: word, y: word, z: word)
    requires |b| == 64
  {
    S.W(b, t) == w && S.W(b, t + 1) == x && S.W(b, t + 2) == y && S.W(b, t + 3) == z
  }

  lemma FourWords(b: seq<byte>, t: nat, w: word, x: word, y: word, z: word)
    requires |b| == 64 && 16 <= t
    requires MixAt(b, t) == w && MixAt(b, t + 1) == x && MixAt(b, t + 2) == y
    requires S.Mix(w, S.W(b, t - 5), S.W(b, t - 11), S.W(b, t - 13)) == z
    ensures IsW(b, t, w, x, y, z)
  {
    hide S.Mix;
  }

  function MixAt(b: seq<byte>, t: nat): word
    requires |b| == 64 && 16 <= t
  {
    S.Mix(S.W(b, t - 3), S.W(b, t - 8), S.W(b, t - 14), S.W(b, t - 16))
  }

  lemma Sha1Mixes1()
    ensures S.Mix(0, 0, 0, 0x61626380) == 0xc2c4c700
    ensures S.Mix(0, 0, 0, 0) == 0
    ensures S.Mix(0x18, 0, 0, 0) == 0x00000030
    ensures S.Mix(0xc2c4c700, 0, 0, 0) == 0x85898e01
    ensures S.Mix(0, 0, 0, 0) == 0
    ensures S.Mix(0x00000030, 0, 0, 0) == 0x00000060
    ensures S.Mix(0x85898e01, 0, 0, 0) == 0x0b131c03
    ensures S.Mix(0, 0x18, 0, 0) == 0x00000030
    ensures S.Mix(0x00000060, 0xc2c4c700, 0, 0) == 0x85898ec1
    ensures S.Mix(0x0b131c03, 0, 0, 0) == 0x16263806
    ensures S.Mix(0x00000030, 0x00000030, 0, 0) == 0
    ensures S.Mix(0x85898ec1, 0x85898e01, 0, 0) == 0x00000180
    ensures S.Mix(0x16263806, 0, 0, 0) == 0x2c4c700c
    ensures S.Mix(0, 0x00000060, 0x18, 0) == 0x000000f0
    ensures S.Mix(0x00000180, 0x0b131c03, 0xc2c4c700, 0) == 0x93afb507
    ensures S.Mix(0x2c4c700c, 0x00000030, 0, 0x18) == 0x5898e048
  {
  }

  lemma Sha1Words1(b: seq<byte>)
    requires |b| == 64
    requires IsW(b, 0, 0x61626380, 0, 0, 0)
    requires IsW(b, 4, 0, 0, 0, 0)
    requires IsW(b, 8, 0, 0, 0, 0)
    requires IsW(b, 12, 0, 0, 0, 0x18)
    ensures IsW(b, 16, 0xc2c4c700, 0, 0x00000030, 0x85898e01)
    ensures IsW(b, 20, 0, 0x00000060, 0x0b131c03, 0x00000030)
    ensures IsW(b, 24, 0x85898ec1, 0x16263806, 0, 0x00000180)
    ensures IsW(b, 28, 0x2c4c700c, 0x000000f0, 0x93afb507, 0x5898e048)
  {
    hide S.Mix, S.W;
    Sha1Mixes1();
    FourWords(b, 16, 0xc2c4c700, 0, 0x00000030, 0x85898e01);
    FourWords(b, 20, 0, 0x00000060, 0x0b131c03, 0x00000030);
    FourWords(b, 24, 0x85898ec1, 0x16263806, 0, 0x00000180);
    FourWords(b, 28, 0x2c4c700c, 0x000000f0, 0x93afb507, 0x5898e048);
  }

  lemma Sha1Mixes2()
    ensures S.Mix(0x000000f0, 0x85898ec1, 0x00000030, 0xc2c4c700) == 0x8e9a9202
    ensures S.Mix(0x93afb507, 0x16263806, 0x85898e01, 0) == 0x00000600
    ensures S.Mix(0x5898e048, 0, 0, 0x00000030) == 0xb131c0f0
    ensures S.Mix(0x8e9a9202, 0x00000180, 0x00000060, 0x85898e01) == 0x16263bc6
    ensures S.Mix(0x00000600, 0x2c4c700c, 0x0b131c03, 0) == 0x4ebed41e
    ensures S.Mix(0xb131c0f0, 0x000000f0, 0x00000030, 0x00000060) == 0x626380a1
    ensures S.Mix(0x16263bc6, 0x93afb507, 0x85898ec1, 0x0b131c03) == 0x16263806
    ensures S.Mix(0x4ebed41e, 0x5898e048, 0x16263806, 0x00000030) == 0x000018c0
    ensures S.Mix(0x626380a1, 0x8e9a9202, 0, 0x85898ec1) == 0xd2e138c4
    ensures S.Mix(0x16263806, 0x00000600, 0x00000180, 0x16263806) == 0x00000f00
    ensures S.Mix(0x000018c0, 0xb131c0f0, 0x2c4c700c, 0) == 0x3afb5079
    ensures S.Mix(0xd2e138c4, 0x16263bc6, 0x000000f0, 0x00000180) == 0x898e04e5
    ensures S.Mix(0x00000f00, 0x4ebed41e, 0x93afb507, 0x2c4c700c) == 0xe2ba3c2b
    ensures S.Mix(0x3afb5079, 0x626380a1, 0x5898e048, 0x000000f0) == 0x000060c0
    ensures S.Mix(0x898e04e5, 0x16263806, 0x8e9a9202, 0x93afb507) == 0x053a37cd
    ensures S.Mix(0xe2ba3c2b, 0x000018c0, 0x00000600, 0x5898e048) == 0x74458547
  {
  }

  lemma Sha1Words2(b: seq<byte>)
    requires |b| == 64
    requires IsW(b, 16, 0xc2c4c700, 0, 0x00000030, 0x85898e01)
    requires IsW(b, 20, 0, 0x00000060, 0x0b131c03, 0x00000030)
    requires IsW(b, 24, 0x85898ec1, 0x16263806, 0, 0x00000180)
    requires IsW(b, 28, 0x2c4c700c, 0x000000f0, 0x93afb507, 0x5898e048)
    ensures IsW(b, 32, 0x8e9a9202, 0x00000600, 0xb131c0f0, 0x16263bc6)
    ensures IsW(b, 36, 0x4ebed41e, 0x626380a1, 0x16263806, 0x000018c0)
    ensures IsW(b, 40, 0xd2e138c4, 0x00000f00, 0x3afb5079, 0x898e04e5)
    ensures IsW(b, 44, 0xe2ba3c2b, 0x000060c0, 0x053a37cd, 0x74458547)
  {
    hide S.Mix, S.W;
    Sha1Mixes2();
    FourWords(b, 32, 0x8e9a9202, 0x00000600, 0xb131c0f0, 0x16263bc6);
    FourWords(b, 36, 0x4ebed41e, 0x626380a1, 0x16263806, 0x000018c0);
    FourWords(b, 40, 0xd2e138c4, 0x00000f00, 0x3afb5079, 0x898e04e5);
    FourWords(b, 44, 0xe2ba3c2b, 0x000060c0, 0x053a37cd, 0x74458547);
  }

  lemma Sha1Mixes3()
    ensures S.Mix(0x000060c0, 0xd2e138c4, 0xb131c0f0, 0x8e9a9202) == 0xda9415ed
    ensures S.Mix(0x053a37cd, 0x00000f00, 0x16263bc6, 0x00000600) == 0x26380a16
    ensures S.Mix(0x74458547, 0x3afb5079, 0x4ebed41e, 0xb131c0f0) == 0x626383a1
    ensures S.Mix(0xda9415ed, 0x898e04e5, 0x626380a1, 0x16263bc6) == 0x4ebf54de
    ensures S.Mix(0x26380a16, 0xe2ba3c2b, 0x16263806, 0x4ebed41e) == 0x3835b44b
    ensures S.Mix(0x626383a1, 0x000060c0, 0x000018c0, 0x626380a1) == 0x0000f600
    ensures S.Mix(0x4ebf54de, 0x053a37cd, 0xd2e138c4, 0x16263806) == 0x1e84c7a3
    ensures S.Mix(0x3835b44b, 0x74458547, 0x00000f00, 0x000018c0) == 0x98e04d98
    ensures S.Mix(0x0000f600, 0xda9415ed, 0x3afb5079, 0xd2e138c4) == 0x651d16a0
    ensures S.Mix(0x1e84c7a3, 0x26380a16, 0x898e04e5, 0x00000f00) == 0x62658ca1
    ensures S.Mix(0x98e04d98, 0x626383a1, 0xe2ba3c2b, 0x3afb5079) == 0x458544d6
    ensures S.Mix(0x651d16a0, 0x4ebf54de, 0x000060c0, 0x898e04e5) == 0x44584cb7
    ensures S.Mix(0x62658ca1, 0x3835b44b, 0x053a37cd, 0xe2ba3c2b) == 0x7ba06619
    ensures S.Mix(0x458544d6, 0x0000f600, 0x74458547, 0x000060c0) == 0x6380aea2
    ensures S.Mix(0x44584cb7, 0x1e84c7a3, 0xda9415ed, 0x053a37cd) == 0x0ae55269
    ensures S.Mix(0x7ba06619, 0x98e04d98, 0x26380a16, 0x74458547) == 0x627b49a1
  {
  }

  lemma Sha1Words3(b: seq<byte>)
    requires |b| == 64
    requires IsW(b, 32, 0x8e9a9202, 0x00000600, 0xb131c0f0, 0x16263bc6)
    requires IsW(b, 36, 0x4ebed41e, 0x626380a1, 0x16263806, 0x000018c0)
    requires IsW(b, 40, 0xd2e138c4, 0x00000f00, 0x3afb5079, 0x898e04e5)
    requires IsW(b, 44, 0xe2ba3c2b, 0x000060c0, 0x053a37cd, 0x74458547)
    ensures IsW(b, 48, 0xda9415ed, 0x26380a16, 0x626383a1, 0x4ebf54de)
    ensures IsW(b, 52, 0x3835b44b, 0x0000f600, 0x1e84c7a3, 0x98e04d98)
    ensures IsW(b, 56, 0x651d16a0, 0x62658ca1, 0x458544d6, 0x44584cb7)
    ensures IsW(b, 60, 0x7ba06619, 0x6380aea2, 0x0ae55269, 0x627b49a1)
  {
    hide S.Mix, S.W;
    Sha1Mixes3();
    FourWords(b, 48, 0xda9415ed, 0x26380a16, 0x626383a1, 0x4ebf54de);
    FourWords(b, 52, 0x3835b44b, 0x0000f600, 0x1e84c7a3, 0x98e04d98);
    FourWords(b, 56, 0x651d16a0, 0x62658ca1, 0x458544d6, 0x44584cb7);
    FourWords(b, 60, 0x7ba06619, 0x6380aea2, 0x0ae55269, 0x627b49a1);
  }

  lemma Sha1Mixes4()
    ensures S.Mix(0x6380aea2, 0x651d16a0, 0x626383a1, 0xda9415ed) == 0x7cd45c9d
    ensures S.Mix(0x0ae55269, 0x62658ca1, 0x4ebf54de, 0x26380a16) == 0x000f0000
    ensures S.Mix(0x627b49a1, 0x458544d6, 0x3835b44b, 0x626383a1) == 0xfb50753a
    ensures S.Mix(0x7cd45c9d, 0x44584cb7, 0x0000f600, 0x4ebf54de) == 0xec6765e8
    ensures S.Mix(0x000f0000, 0x7ba06619, 0x1e84c7a3, 0x3835b44b) == 0xba3c2be2
    ensures S.Mix(0xfb50753a, 0x6380aea2, 0x98e04d98, 0x0000f600) == 0x0060c000
    ensures S.Mix(0xec6765e8, 0x0ae55269, 0x651d16a0, 0x1e84c7a3) == 0x3a37cd05
    ensures S.Mix(0xba3c2be2, 0x627b49a1, 0x62658ca1, 0x98e04d98) == 0x458546f4
    ensures S.Mix(0x0060c000, 0x7cd45c9d, 0x458544d6, 0x651d16a0) == 0xb8599dd6
    ensures S.Mix(0x3a37cd05, 0x000f0000, 0x44584cb7, 0x62658ca1) == 0x380a1a26
    ensures S.Mix(0x458546f4, 0xfb50753a, 0x7ba06619, 0x458544d6) == 0x01e02203
    ensures S.Mix(0xb8599dd6, 0xec6765e8, 0x6380aea2, 0x44584cb7) == 0xe7cc3456
    ensures S.Mix(0x380a1a26, 0xba3c2be2, 0x0ae55269, 0x7ba06619) == 0xe6e60b69
    ensures S.Mix(0x01e02203, 0x0060c000, 0x627b49a1, 0x6380aea2) == 0x00f60a00
    ensures S.Mix(0xe7cc3456, 0x3a37cd05, 0x7cd45c9d, 0x0ae55269) == 0x5795ef4f
    ensures S.Mix(0xe6e60b69, 0x458546f4, 0x000f0000, 0x627b49a1) == 0x822e0879
  {
  }

  lemma Sha1Words4(b: seq<byte>)
    requires |b| == 64
    requires IsW(b, 48, 0xda9415ed, 0x26380a16, 0x626383a1, 0x4ebf54de)
    requires IsW(b, 52, 0x3835b44b, 0x0000f600, 0x1e84c7a3, 0x98e04d98)
    requires IsW(b, 56, 0x651d16a0, 0x62658ca1, 0x458544d6, 0x44584cb7)
    requires IsW(b, 60, 0x7ba06619, 0x6380aea2, 0x0ae55269, 0x627b49a1)
    ensures IsW(b, 64, 0x7cd45c9d, 0x000f0000, 0xfb50753a, 0xec6765e8)
    ensures IsW(b, 68, 0xba3c2be2, 0x0060c000, 0x3a37cd05, 0x458546f4)
    ensures IsW(b, 72, 0xb8599dd6, 0x380a1a26, 0x01e02203, 0xe7cc3456)
    ensures IsW(b, 76, 0xe6e60b69, 0x00f60a00, 0x5795ef4f, 0x822e0879)
  {
    hide S.Mix, S.W;
    Sha1Mixes4();
    FourWords(b, 64, 0x7cd45c9d, 0x000f0000, 0xfb50753a, 0xec6765e8);
    FourWords(b, 68, 0xba3c2be2, 0x0060c000, 0x3a37cd05, 0x458546f4);
    FourWords(b, 72, 0xb8599dd6, 0x380a1a26, 0x01e02203, 0xe7cc3456);
    FourWords(b, 76, 0xe6e60b69, 0x00f60a00, 0x5795ef4f, 0x822e0879);
  }

  /** Four steps, given what each of them computes. */
  lemma FourSha1Steps(t: nat, b: seq<byte>, v: word, w: word, x: word, y: word, c1: word, c2: word, c3: word, c4: word)
    requires |b| == 64
    requires var q := S.Steps(t, Initial(), b);
             && TempAt(t, b, q.a, q.b, q.c, q.d, q.e) == v && RotateLeft(q.b, 30) == c1
             && TempAt(t + 1, b, v, q.a, c1, q.c, q.d) == w && RotateLeft(q.a, 30) == c2
             && TempAt(t + 2, b, w, v, c2, c1, q.c) == x && RotateLeft(v, 30) == c3
             && TempAt(t + 3, b, x, w, c3, c2, c1) == y && RotateLeft(w, 30) == c4
    ensures S.Steps(t + 4, Initial(), b) == Registers(y, x, c4, c3, c2)
  {
    hide S.Temp, S.F, S.K, S.W, S.Steps, RotateLeft, Initial;
    S.StepsAt(t + 1, Initial(), b);
    S.StepsAt(t + 2, Initial(), b);
    S.StepsAt(t + 3, Initial(), b);
    S.StepsAt(t + 4, Initial(), b);
  }

  lemma EachOf(b: seq<byte>, t: nat, w: word, x: word, y: word, z: word)
    requires |b| == 64 && IsW(b, t, w, x, y, z)
    ensures S.W(b, t) == w && S.W(b, t + 1) == x && S.W(b, t + 2) == y && S.W(b, t + 3) == z
  {
    hide S.W;
  }

  function TempAt(t: nat, b: seq<byte>, q: word, r: word, s: word, u: word, e: word): word
    requires |b| == 64
  {
    S.Temp(q, S.F(t, r, s, u), e, S.W(b, t), S.K(t))
  }

  /** What the steps of this round compute, in the terms of RFC 3174. */
  lemma IsSha1Round1(b: seq<byte>)
    requires |b| == 64
    ensures forall t: nat, q, r, s, u, e | 0 <= t < 20 ::
              TempAt(t, b, q, r, s, u, e) == S.Temp(q, S.Choose(r, s, u), e, S.W(b, t), 0x5A827999)
  {
    hide S.Temp, S.W;
  }

  lemma Sha1Operations1()
    ensures S.Temp(0x67452301, S.Choose(0xefcdab89, 0x98badcfe, 0x10325476), 0xc3d2e1f0, 0x61626380, 0x5A827999) == 0x0116fc33
    ensures S.Temp(0x0116fc33, S.Choose(0x67452301, 0x7bf36ae2, 0x98badcfe), 0x10325476, 0, 0x5A827999) == 0x8990536d
    ensures S.Temp(0x8990536d, S.Choose(0x0116fc33, 0x59d148c0, 0x7bf36ae2), 0x98badcfe, 0, 0x5A827999) == 0xa1390f08
    ensures S.Temp(0xa1390f08, S.Choose(0x8990536d, 0xc045bf0c, 0x59d148c0), 0x7bf36ae2, 0, 0x5A827999) == 0xcdd8e11b
    ensures S.Temp(0xcdd8e11b, S.Choose(0xa1390f08, 0x626414db, 0xc045bf0c), 0x59d148c0, 0, 0x5A827999) == 0xcfd499de
    ensures S.Temp(0xcfd499de, S.Choose(0xcdd8e11b, 0x284e43c2, 0x626414db), 0xc045bf0c, 0, 0x5A827999) == 0x3fc7ca40
    ensures S.Temp(0x3fc7ca40, S.Choose(0xcfd499de, 0xf3763846, 0x284e43c2), 0x626414db, 0, 0x5A827999) == 0x993e30c1
    ensures S.Temp(0x993e30c1, S.Choose(0x3fc7ca40, 0xb3f52677, 0xf3763846), 0x284e43c2, 0, 0x5A827999) == 0x9e8c07d4
    ensures S.Temp(0x9e8c07d4, S.Choose(0x993e30c1, 0x0ff1f290, 0xb3f52677), 0xf3763846, 0, 0x5A827999) == 0x4b6ae328
    ensures S.Temp(0x4b6ae328, S.Choose(0x9e8c07d4, 0x664f8c30, 0x0ff1f290), 0xb3f52677, 0, 0x5A827999) == 0x8351f929
    ensures S.Temp(0x8351f929, S.Choose(0x4b6ae328, 0x27a301f5, 0x664f8c30), 0x0ff1f290, 0, 0x5A827999) == 0xfbda9e89
    ensures S.Temp(0xfbda9e89, S.Choose(0x8351f929, 0x12dab8ca, 0x27a301f5), 0x664f8c30, 0, 0x5A827999) == 0x63188fe4
    ensures S.Temp(0x63188fe4, S.Choose(0xfbda9e89, 0x60d47e4a, 0x12dab8ca), 0x27a301f5, 0, 0x5A827999) == 0x4607b664
    ensures S.Temp(0x4607b664, S.Choose(0x63188fe4, 0x7ef6a7a2, 0x60d47e4a), 0x12dab8ca, 0, 0x5A827999) == 0x9128f695
    ensures S.Temp(0x9128f695, S.Choose(0x4607b664, 0x18c623f9, 0x7ef6a7a2), 0x60d47e4a, 0, 0x5A827999) == 0x196bee77
    ensures S.Temp(0x196bee77, S.Choose(0x9128f695, 0x1181ed99, 0x18c623f9), 0x7ef6a7a2, 0x18, 0x5A827999) == 0x20bdd62f
    ensures S.Temp(0x20bdd62f, S.Choose(0x196bee77, 0x644a3da5, 0x1181ed99), 0x18c623f9, 0xc2c4c700, 0x5A827999) == 0x4e925823
    ensures S.Temp(0x4e925823, S.Choose(0x20bdd62f, 0xc65afb9d, 0x644a3da5), 0x1181ed99, 0, 0x5A827999) == 0x82aa6728
    ensures S.Temp(0x82aa6728, S.Choose(0x4e925823, 0xc82f758b, 0xc65afb9d), 0x644a3da5, 0x00000030, 0x5A827999) == 0xdc64901d
    ensures S.Temp(0xdc64901d, S.Choose(0x82aa6728, 0xd3a49608, 0xc82f758b), 0xc65afb9d, 0x85898e01, 0x5A827999) == 0xfd9e1d7d
  {
  }

  lemma Sha1Turns1()
    ensures RotateLeft(0xefcdab89, 30) == 0x7bf36ae2 && RotateLeft(0x67452301, 30) == 0x59d148c0
    ensures RotateLeft(0x0116fc33, 30) == 0xc045bf0c && RotateLeft(0x8990536d, 30) == 0x626414db
    ensures RotateLeft(0xa1390f08, 30) == 0x284e43c2 && RotateLeft(0xcdd8e11b, 30) == 0xf3763846
    ensures RotateLeft(0xcfd499de, 30) == 0xb3f52677 && RotateLeft(0x3fc7ca40, 30) == 0x0ff1f290
    ensures RotateLeft(0x993e30c1, 30) == 0x664f8c30 && RotateLeft(0x9e8c07d4, 30) == 0x27a301f5
    ensures RotateLeft(0x4b6ae328, 30) == 0x12dab8ca && RotateLeft(0x8351f929, 30) == 0x60d47e4a
    ensures RotateLeft(0xfbda9e89, 30) == 0x7ef6a7a2 && RotateLeft(0x63188fe4, 30) == 0x18c623f9
    ensures RotateLeft(0x4607b664, 30) == 0x1181ed99 && RotateLeft(0x9128f695, 30) == 0x644a3da5
    ensures RotateLeft(0x196bee77, 30) == 0xc65afb9d && RotateLeft(0x20bdd62f, 30) == 0xc82f758b
    ensures RotateLeft(0x4e925823, 30) == 0xd3a49608 && RotateLeft(0x82aa6728, 30) == 0x20aa99ca
  {
  }

  lemma Sha1Start(t: nat, b: seq<byte>)
    requires t == 0 && |b| == 64 && S.Steps(t, Initial(), b) ==
             Registers(0x67452301, 0xefcdab89, 0x98badcfe, 0x10325476, 0xc3d2e1f0)
    requires IsW(b, t, 0x61626380, 0, 0, 0)
    ensures S.Steps(4, Initial(), b) ==
            Registers(0xcdd8e11b, 0xa1390f08, 0x626414db, 0xc045bf0c, 0x59d148c0)
  {
    hide *;
    IsSha1Round1(b);
    Sha1Operations1();
    Sha1Turns1();
    EachOf(b, t, 0x61626380, 0, 0, 0);
    FourSha1Steps(t, b, 0x0116fc33, 0x8990536d, 0xa1390f08, 0xcdd8e11b,
                  0x7bf36ae2, 0x59d148c0, 0xc045bf0c, 0x626414db);
  }

  lemma Sha1Round1(b: seq<byte>)
    requires |b| == 64 && S.Steps(4, Initial(), b) ==
             Registers(0xcdd8e11b, 0xa1390f08, 0x626414db, 0xc045bf0c, 0x59d148c0)
    requires IsW(b, 4, 0, 0, 0, 0)
    requires IsW(b, 8, 0, 0, 0, 0)
    requires IsW(b, 12, 0, 0, 0, 0x18)
    requires IsW(b, 16, 0xc2c4c700, 0, 0x00000030, 0x85898e01)
    ensures S.Steps(20, Initial(), b) ==
            Registers(0xfd9e1d7d, 0xdc64901d, 0x20aa99ca, 0xd3a49608, 0xc82f758b)
  {
    hide *;
    IsSha1Round1(b);
    Sha1Operations1();
    Sha1Turns1();
    EachOf(b, 4, 0, 0, 0, 0);
    FourSha1Steps(4, b, 0xcfd499de, 0x3fc7ca40, 0x993e30c1, 0x9e8c07d4,
                  0x284e43c2, 0xf3763846, 0xb3f52677, 0x0ff1f290);
    EachOf(b, 8, 0, 0, 0, 0);
    FourSha1Steps(8, b, 0x4b6ae328, 0x8351f929, 0xfbda9e89, 0x63188fe4,
                  0x664f8c30, 0x27a301f5, 0x12dab8ca, 0x60d47e4a);
    EachOf(b, 12, 0, 0, 0, 0x18);
    FourSha1Steps(12, b, 0x4607b664, 0x9128f695, 0x196bee77, 0x20bdd62f,
                  0x7ef6a7a2, 0x18c623f9, 0x1181ed99, 0x644a3da5);
    EachOf(b, 16, 0xc2c4c700, 0, 0x00000030, 0x85898e01);
    FourSha1Steps(16, b, 0x4e925823, 0x82aa6728, 0xdc64901d, 0xfd9e1d7d,
                  0xc65afb9d, 0xc82f758b, 0xd3a49608, 0x20aa99ca);
  }

  /** What the steps of this round compute, in the terms of RFC 3174. */
  lemma IsSha1Round2(b: seq<byte>)
    requires |b| == 64
    ensures forall t: nat, q, r, s, u, e | 20 <= t < 40 ::
              TempAt(t, b, q, r, s, u, e) == S.Temp(q, S.Parity(r, s, u), e, S.W(b, t), 0x6ED9EBA1)
  {
    hide S.Temp, S.W;
  }

  lemma Sha1Operations2()
    ensures S.Temp(0xfd9e1d7d, S.Parity(0xdc64901d, 0x20aa99ca, 0xd3a49608), 0xc82f758b, 0, 0x6ED9EBA1) == 0x1a37b0ca
    ensures S.Temp(0x1a37b0ca, S.Parity(0xfd9e1d7d, 0x77192407, 0x20aa99ca), 0xd3a49608, 0x00000060, 0x6ED9EBA1) == 0x33a23bfc
    ensures S.Temp(0x33a23bfc, S.Parity(0x1a37b0ca, 0x7f67875f, 0x77192407), 0x20aa99ca, 0x0b131c03, 0x6ED9EBA1) == 0x21283486
    ensures S.Temp(0x21283486, S.Parity(0x33a23bfc, 0x868dec32, 0x7f67875f), 0x77192407, 0x00000030, 0x6ED9EBA1) == 0xd541f12d
    ensures S.Temp(0xd541f12d, S.Parity(0x21283486, 0x0ce88eff, 0x868dec32), 0x7f67875f, 0x85898ec1, 0x6ED9EBA1) == 0xc7567dc6
    ensures S.Temp(0xc7567dc6, S.Parity(0xd541f12d, 0x884a0d21, 0x0ce88eff), 0x868dec32, 0x16263806, 0x6ED9EBA1) == 0x48413ba4
    ensures S.Temp(0x48413ba4, S.Parity(0xc7567dc6, 0x75507c4b, 0x884a0d21), 0x0ce88eff, 0, 0x6ED9EBA1) == 0xbe35fbd5
    ensures S.Temp(0xbe35fbd5, S.Parity(0x48413ba4, 0xb1d59f71, 0x75507c4b), 0x884a0d21, 0x00000180, 0x6ED9EBA1) == 0x4aa84d97
    ensures S.Temp(0x4aa84d97, S.Parity(0xbe35fbd5, 0x12104ee9, 0xb1d59f71), 0x75507c4b, 0x2c4c700c, 0x6ED9EBA1) == 0x8370b52e
    ensures S.Temp(0x8370b52e, S.Parity(0x4aa84d97, 0x6f8d7ef5, 0x12104ee9), 0xb1d59f71, 0x000000f0, 0x6ED9EBA1) == 0xc5fbaf5d
    ensures S.Temp(0xc5fbaf5d, S.Parity(0x8370b52e, 0xd2aa1365, 0x6f8d7ef5), 0x12104ee9, 0x93afb507, 0x6ED9EBA1) == 0x1267b407
    ensures S.Temp(0x1267b407, S.Parity(0xc5fbaf5d, 0xa0dc2d4b, 0xd2aa1365), 0x6f8d7ef5, 0x5898e048, 0x6ED9EBA1) == 0x3b845d33
    ensures S.Temp(0x3b845d33, S.Parity(0x1267b407, 0x717eebd7, 0xa0dc2d4b), 0xd2aa1365, 0x8e9a9202, 0x6ED9EBA1) == 0x046faa0a
    ensures S.Temp(0x046faa0a, S.Parity(0x3b845d33, 0xc499ed01, 0x717eebd7), 0xa0dc2d4b, 0x00000600, 0x6ED9EBA1) == 0x2c0ebc11
    ensures S.Temp(0x2c0ebc11, S.Parity(0x046faa0a, 0xcee1174c, 0xc499ed01), 0x717eebd7, 0xb131c0f0, 0x6ED9EBA1) == 0x21796ad4
    ensures S.Temp(0x21796ad4, S.Parity(0x2c0ebc11, 0x811bea82, 0xcee1174c), 0xc499ed01, 0x16263bc6, 0x6ED9EBA1) == 0xdcbbb0cb
    ensures S.Temp(0xdcbbb0cb, S.Parity(0x21796ad4, 0x4b03af04, 0x811bea82), 0xcee1174c, 0x4ebed41e, 0x6ED9EBA1) == 0x0f511fd8
    ensures S.Temp(0x0f511fd8, S.Parity(0xdcbbb0cb, 0x085e5ab5, 0x4b03af04), 0x811bea82, 0x626380a1, 0x6ED9EBA1) == 0xdc63973f
    ensures S.Temp(0xdc63973f, S.Parity(0x0f511fd8, 0xf72eec32, 0x085e5ab5), 0x4b03af04, 0x16263806, 0x6ED9EBA1) == 0x4c986405
    ensures S.Temp(0x4c986405, S.Parity(0xdc63973f, 0x03d447f6, 0xf72eec32), 0x085e5ab5, 0x000018c0, 0x6ED9EBA1) == 0x32de1cba
  {
  }

  lemma Sha1Turns2()
    ensures RotateLeft(0xdc64901d, 30) == 0x77192407 && RotateLeft(0xfd9e1d7d, 30) == 0x7f67875f
    ensures RotateLeft(0x1a37b0ca, 30) == 0x868dec32 && RotateLeft(0x33a23bfc, 30) == 0x0ce88eff
    ensures RotateLeft(0x21283486, 30) == 0x884a0d21 && RotateLeft(0xd541f12d, 30) == 0x75507c4b
    ensures RotateLeft(0xc7567dc6, 30) == 0xb1d59f71 && RotateLeft(0x48413ba4, 30) == 0x12104ee9
    ensures RotateLeft(0xbe35fbd5, 30) == 0x6f8d7ef5 && RotateLeft(0x4aa84d97, 30) == 0xd2aa1365
    ensures RotateLeft(0x8370b52e, 30) == 0xa0dc2d4b && RotateLeft(0xc5fbaf5d, 30) == 0x717eebd7
    ensures RotateLeft(0x1267b407, 30) == 0xc499ed01 && RotateLeft(0x3b845d33, 30) == 0xcee1174c
    ensures RotateLeft(0x046faa0a, 30) == 0x811bea82 && RotateLeft(0x2c0ebc11, 30) == 0x4b03af04
    ensures RotateLeft(0x21796ad4, 30) == 0x085e5ab5 && RotateLeft(0xdcbbb0cb, 30) == 0xf72eec32
    ensures RotateLeft(0x0f511fd8, 30) == 0x03d447f6 && RotateLeft(0xdc63973f, 30) == 0xf718e5cf
  {
  }

  lemma Sha1Round2(b: seq<byte>)
    requires |b| == 64 && S.Steps(20, Initial(), b) ==
             Registers(0xfd9e1d7d, 0xdc64901d, 0x20aa99ca, 0xd3a49608, 0xc82f758b)
    requires IsW(b, 20, 0, 0x00000060, 0x0b131c03, 0x00000030)
    requires IsW(b, 24, 0x85898ec1, 0x16263806, 0, 0x00000180)
    requires IsW(b, 28, 0x2c4c700c, 0x000000f0, 0x93afb507, 0x5898e048)
    requires IsW(b, 32, 0x8e9a9202, 0x00000600, 0xb131c0f0, 0x16263bc6)
    requires IsW(b, 36, 0x4ebed41e, 0x626380a1, 0x16263806, 0x000018c0)
    ensures S.Steps(40, Initial(), b) ==
            Registers(0x32de1cba, 0x4c986405, 0xf718e5cf, 0x03d447f6, 0xf72eec32)
  {
    hide *;
    IsSha1Round2(b);
    Sha1Operations2();
    Sha1Turns2();
    EachOf(b, 20, 0, 0x00000060, 0x0b131c03, 0x00000030);
    FourSha1Steps(20, b, 0x1a37b0ca, 0x33a23bfc, 0x21283486, 0xd541f12d,
                  0x77192407, 0x7f67875f, 0x868dec32, 0x0ce88eff);
    EachOf(b, 24, 0x85898ec1, 0x16263806, 0, 0x00000180);
    FourSha1Steps(24, b, 0xc7567dc6, 0x48413ba4, 0xbe35fbd5, 0x4aa84d97,
                  0x884a0d21, 0x75507c4b, 0xb1d59f71, 0x12104ee9);
    EachOf(b, 28, 0x2c4c700c, 0x000000f0, 0x93afb507, 0x5898e048);
    FourSha1Steps(28, b, 0x8370b52e, 0xc5fbaf5d, 0x1267b407, 0x3b845d33,
                  0x6f8d7ef5, 0xd2aa1365, 0xa0dc2d4b, 0x717eebd7);
    EachOf(b, 32, 0x8e9a9202, 0x00000600, 0xb131c0f0, 0x16263bc6);
    FourSha1Steps(32, b, 0x046faa0a, 0x2c0ebc11, 0x21796ad4, 0xdcbbb0cb,
                  0xc499ed01, 0xcee1174c, 0x811bea82, 0x4b03af04);
    EachOf(b, 36, 0x4ebed41e, 0x626380a1, 0x16263806, 0x000018c0);
    FourSha1Steps(36, b, 0x0f511fd8, 0xdc63973f, 0x4c986405, 0x32de1cba,
                  0x085e5ab5, 0xf72eec32, 0x03d447f6, 0xf718e5cf);
  }

  /** What the steps of this round compute, in the terms of RFC 3174. */
  lemma IsSha1Round3(b: seq<byte>)
    requires |b| == 64
    ensures forall t: nat, q, r, s, u, e | 40 <= t < 60 ::
              TempAt(t, b, q, r, s, u, e) == S.Temp(q, S.Majority(r, s, u), e, S.W(b, t), 0x8F1BBCDC)
  {
    hide S.Temp, S.W;
  }

  lemma Sha1Operations3()
    ensures S.Temp(0x32de1cba, S.Majority(0x4c986405, 0xf718e5cf, 0x03d447f6), 0xf72eec32, 0xd2e138c4, 0x8F1BBCDC) == 0xfc87dedf
    ensures S.Temp(0xfc87dedf, S.Majority(0x32de1cba, 0x53261901, 0xf718e5cf), 0x03d447f6, 0x00000f00, 0x8F1BBCDC) == 0x970a0d5c
    ensures S.Temp(0x970a0d5c, S.Majority(0xfc87dedf, 0x8cb7872e, 0x53261901), 0xf718e5cf, 0x3afb5079, 0x8F1BBCDC) == 0x7f193dc5
    ensures S.Temp(0x7f193dc5, S.Majority(0x970a0d5c, 0xff21f7b7, 0x8cb7872e), 0x53261901, 0x898e04e5, 0x8F1BBCDC) == 0xee1b1aaf
    ensures S.Temp(0xee1b1aaf, S.Majority(0x7f193dc5, 0x25c28357, 0xff21f7b7), 0x8cb7872e, 0xe2ba3c2b, 0x8F1BBCDC) == 0x40f28e09
    ensures S.Temp(0x40f28e09, S.Majority(0xee1b1aaf, 0x5fc64f71, 0x25c28357), 0xff21f7b7, 0x000060c0, 0x8F1BBCDC) == 0x1c51e1f2
    ensures S.Temp(0x1c51e1f2, S.Majority(0x40f28e09, 0xfb86c6ab, 0x5fc64f71), 0x25c28357, 0x053a37cd, 0x8F1BBCDC) == 0xa01b846c
    ensures S.Temp(0xa01b846c, S.Majority(0x1c51e1f2, 0x503ca382, 0xfb86c6ab), 0x5fc64f71, 0x74458547, 0x8F1BBCDC) == 0xbead02ca
    ensures S.Temp(0xbead02ca, S.Majority(0xa01b846c, 0x8714787c, 0x503ca382), 0xfb86c6ab, 0xda9415ed, 0x8F1BBCDC) == 0xbaf39337
    ensures S.Temp(0xbaf39337, S.Majority(0xbead02ca, 0x2806e11b, 0x8714787c), 0x503ca382, 0x26380a16, 0x8F1BBCDC) == 0x120731c5
    ensures S.Temp(0x120731c5, S.Majority(0xbaf39337, 0xafab40b2, 0x2806e11b), 0x8714787c, 0x626383a1, 0x8F1BBCDC) == 0x641db2ce
    ensures S.Temp(0x641db2ce, S.Majority(0x120731c5, 0xeebce4cd, 0xafab40b2), 0x2806e11b, 0x4ebf54de, 0x8F1BBCDC) == 0x3847ad66
    ensures S.Temp(0x3847ad66, S.Majority(0x641db2ce, 0x4481cc71, 0xeebce4cd), 0xafab40b2, 0x3835b44b, 0x8F1BBCDC) == 0xe490436d
    ensures S.Temp(0xe490436d, S.Majority(0x3847ad66, 0x99076cb3, 0x4481cc71), 0xeebce4cd, 0x0000f600, 0x8F1BBCDC) == 0x27e9f1d8
    ensures S.Temp(0x27e9f1d8, S.Majority(0xe490436d, 0x8e11eb59, 0x99076cb3), 0x4481cc71, 0x1e84c7a3, 0x8F1BBCDC) == 0x7b71f76d
    ensures S.Temp(0x7b71f76d, S.Majority(0x27e9f1d8, 0x792410db, 0x8e11eb59), 0x99076cb3, 0x98e04d98, 0x8F1BBCDC) == 0x5e6456af
    ensures S.Temp(0x5e6456af, S.Majority(0x7b71f76d, 0x09fa7c76, 0x792410db), 0x8e11eb59, 0x651d16a0, 0x8F1BBCDC) == 0xc846093f
    ensures S.Temp(0xc846093f, S.Majority(0x5e6456af, 0x5edc7ddb, 0x09fa7c76), 0x792410db, 0x62658ca1, 0x8F1BBCDC) == 0xd262ff50
    ensures S.Temp(0xd262ff50, S.Majority(0xc846093f, 0xd79915ab, 0x5edc7ddb), 0x09fa7c76, 0x458544d6, 0x8F1BBCDC) == 0x09d785fd
    ensures S.Temp(0x09d785fd, S.Majority(0xd262ff50, 0xf211824f, 0xd79915ab), 0x5edc7ddb, 0x44584cb7, 0x8F1BBCDC) == 0x3f52de5a
  {
  }

  lemma Sha1Turns3()
    ensures RotateLeft(0x4c986405, 30) == 0x53261901 && RotateLeft(0x32de1cba, 30) == 0x8cb7872e
    ensures RotateLeft(0xfc87dedf, 30) == 0xff21f7b7 && RotateLeft(0x970a0d5c, 30) == 0x25c28357
    ensures RotateLeft(0x7f193dc5, 30) == 0x5fc64f71 && RotateLeft(0xee1b1aaf, 30) == 0xfb86c6ab
    ensures RotateLeft(0x40f28e09, 30) == 0x503ca382 && RotateLeft(0x1c51e1f2, 30) == 0x8714787c
    ensures RotateLeft(0xa01b846c, 30) == 0x2806e11b && RotateLeft(0xbead02ca, 30) == 0xafab40b2
    ensures RotateLeft(0xbaf39337, 30) == 0xeebce4cd && RotateLeft(0x120731c5, 30) == 0x4481cc71
    ensures RotateLeft(0x641db2ce, 30) == 0x99076cb3 && RotateLeft(0x3847ad66, 30) == 0x8e11eb59
    ensures RotateLeft(0xe490436d, 30) == 0x792410db && RotateLeft(0x27e9f1d8, 30) == 0x09fa7c76
    ensures RotateLeft(0x7b71f76d, 30) == 0x5edc7ddb && RotateLeft(0x5e6456af, 30) == 0xd79915ab
    ensures RotateLeft(0xc846093f, 30) == 0xf211824f && RotateLeft(0xd262ff50, 30) == 0x3498bfd4
  {
  }

  lemma Sha1Round3(b: seq<byte>)
    requires |b| == 64 && S.Steps(40, Initial(), b) ==
             Registers(0x32de1cba, 0x4c986405, 0xf718e5cf, 0x03d447f6, 0xf72eec32)
    requires IsW(b, 40, 0xd2e138c4, 0x00000f00, 0x3afb5079, 0x898e04e5)
    requires IsW(b, 44, 0xe2ba3c2b, 0x000060c0, 0x053a37cd, 0x74458547)
    requires IsW(b, 48, 0xda9415ed, 0x26380a16, 0x626383a1, 0x4ebf54de)
    requires IsW(b, 52, 0x3835b44b, 0x0000f600, 0x1e84c7a3, 0x98e04d98)
    requires IsW(b, 56, 0x651d16a0, 0x62658ca1, 0x458544d6, 0x44584cb7)
    ensures S.Steps(60, Initial(), b) ==
            Registers(0x3f52de5a, 0x09d785fd, 0x3498bfd4, 0xf211824f, 0xd79915ab)
  {
    hide *;
    IsSha1Round3(b);
    Sha1Operations3();
    Sha1Turns3();
    EachOf(b, 40, 0xd2e138c4, 0x00000f00, 0x3afb5079, 0x898e04e5);
    FourSha1Steps(40, b, 0xfc87dedf, 0x970a0d5c, 0x7f193dc5, 0xee1b1aaf,
                  0x53261901, 0x8cb7872e, 0xff21f7b7, 0x25c28357);
    EachOf(b, 44, 0xe2ba3c2b, 0x000060c0, 0x053a37cd, 0x74458547);
    FourSha1Steps(44, b, 0x40f28e09, 0x1c51e1f2, 0xa01b846c, 0xbead02ca,
                  0x5fc64f71, 0xfb86c6ab, 0x503ca382, 0x8714787c);
    EachOf(b, 48, 0xda9415ed, 0x26380a16, 0x626383a1, 0x4ebf54de);
    FourSha1Steps(48, b, 0xbaf39337, 0x120731c5, 0x641db2ce, 0x3847ad66,
                  0x2806e11b, 0xafab40b2, 0xeebce4cd, 0x4481cc71);
    EachOf(b, 52, 0x3835b44b, 0x0000f600, 0x1e84c7a3, 0x98e04d98);
    FourSha1Steps(52, b, 0xe490436d, 0x27e9f1d8, 0x7b71f76d, 0x5e6456af,
                  0x99076cb3, 0x8e11eb59, 0x792410db, 0x09fa7c76);
    EachOf(b, 56, 0x651d16a0, 0x62658ca1, 0x458544d6, 0x44584cb7);
    FourSha1Steps(56, b, 0xc846093f, 0xd262ff50, 0x09d785fd, 0x3f52de5a,
                  0x5edc7ddb, 0xd79915ab, 0xf211824f, 0x3498bfd4);
  }

  /** What the steps of this round compute, in the terms of RFC 3174. */
  lemma IsSha1Round4(b: seq<byte>)
    requires |b| == 64
    ensures forall t: nat, q, r, s, u, e | 60 <= t < 80 ::
              TempAt(t, b, q, r, s, u, e) == S.Temp(q, S.Parity(r, s, u), e, S.W(b, t), 0xCA62C1D6)
  {
    hide S.Temp, S.W;
  }

  lemma Sha1Operations4()
    ensures S.Temp(0x3f52de5a, S.Parity(0x09d785fd, 0x3498bfd4, 0xf211824f), 0xd79915ab, 0x7ba06619, 0xCA62C1D6) == 0xd756c147
    ensures S.Temp(0xd756c147, S.Parity(0x3f52de5a, 0x4275e17f, 0x3498bfd4), 0xf211824f, 0x6380aea2, 0xCA62C1D6) == 0x548c9cb2
    ensures S.Temp(0x548c9cb2, S.Parity(0xd756c147, 0x8fd4b796, 0x4275e17f), 0x3498bfd4, 0x0ae55269, 0xCA62C1D6) == 0xb66c020b
    ensures S.Temp(0xb66c020b, S.Parity(0x548c9cb2, 0xf5d5b051, 0x8fd4b796), 0x4275e17f, 0x627b49a1, 0xCA62C1D6) == 0x6b61c9e1
    ensures S.Temp(0x6b61c9e1, S.Parity(0xb66c020b, 0x9523272c, 0xf5d5b051), 0x8fd4b796, 0x7cd45c9d, 0xCA62C1D6) == 0x19dfa7ac
    ensures S.Temp(0x19dfa7ac, S.Parity(0x6b61c9e1, 0xed9b0082, 0x9523272c), 0xf5d5b051, 0x000f0000, 0xCA62C1D6) == 0x101655f9
    ensures S.Temp(0x101655f9, S.Parity(0x19dfa7ac, 0x5ad87278, 0xed9b0082), 0x9523272c, 0xfb50753a, 0xCA62C1D6) == 0x0c3df2b4
    ensures S.Temp(0x0c3df2b4, S.Parity(0x101655f9, 0x0677e9eb, 0x5ad87278), 0xed9b0082, 0xec6765e8, 0xCA62C1D6) == 0x78dd4d2b
    ensures S.Temp(0x78dd4d2b, S.Parity(0x0c3df2b4, 0x4405957e, 0x0677e9eb), 0x5ad87278, 0xba3c2be2, 0xCA62C1D6) == 0x497093c0
    ensures S.Temp(0x497093c0, S.Parity(0x78dd4d2b, 0x030f7cad, 0x4405957e), 0x0677e9eb, 0x0060c000, 0xCA62C1D6) == 0x3f2588c2
    ensures S.Temp(0x3f2588c2, S.Parity(0x497093c0, 0xde37534a, 0x030f7cad), 0x4405957e, 0x3a37cd05, 0xCA62C1D6) == 0xc199f8c7
    ensures S.Temp(0xc199f8c7, S.Parity(0x3f2588c2, 0x125c24f0, 0xde37534a), 0x030f7cad, 0x458546f4, 0xCA62C1D6) == 0x39859de7
    ensures S.Temp(0x39859de7, S.Parity(0xc199f8c7, 0x8fc96230, 0x125c24f0), 0xde37534a, 0xb8599dd6, 0xCA62C1D6) == 0xedb42de4
    ensures S.Temp(0xedb42de4, S.Parity(0x39859de7, 0xf0667e31, 0x8fc96230), 0x125c24f0, 0x380a1a26, 0xCA62C1D6) == 0x11793f6f
    ensures S.Temp(0x11793f6f, S.Parity(0xedb42de4, 0xce616779, 0xf0667e31), 0x8fc96230, 0x01e02203, 0xCA62C1D6) == 0x5ee76897
    ensures S.Temp(0x5ee76897, S.Parity(0x11793f6f, 0x3b6d0b79, 0xce616779), 0xf0667e31, 0xe7cc3456, 0xCA62C1D6) == 0x63f7dab7
    ensures S.Temp(0x63f7dab7, S.Parity(0x5ee76897, 0xc45e4fdb, 0x3b6d0b79), 0xce616779, 0xe6e60b69, 0xCA62C1D6) == 0xa079b7d9
    ensures S.Temp(0xa079b7d9, S.Parity(0x63f7dab7, 0xd7b9da25, 0xc45e4fdb), 0x3b6d0b79, 0x00f60a00, 0xCA62C1D6) == 0x860d21cc
    ensures S.Temp(0x860d21cc, S.Parity(0xa079b7d9, 0xd8fdf6ad, 0xd7b9da25), 0xc45e4fdb, 0x5795ef4f, 0xCA62C1D6) == 0x5738d5e1
    ensures S.Temp(0x5738d5e1, S.Parity(0x860d21cc, 0x681e6df6, 0xd8fdf6ad), 0xd7b9da25, 0x822e0879, 0xCA62C1D6) == 0x42541b35
  {
  }

  lemma Sha1Turns4()
    ensures RotateLeft(0x09d785fd, 30) == 0x4275e17f && RotateLeft(0x3f52de5a, 30) == 0x8fd4b796
    ensures RotateLeft(0xd756c147, 30) == 0xf5d5b051 && RotateLeft(0x548c9cb2, 30) == 0x9523272c
    ensures RotateLeft(0xb66c020b, 30) == 0xed9b0082 && RotateLeft(0x6b61c9e1, 30) == 0x5ad87278
    ensures RotateLeft(0x19dfa7ac, 30) == 0x0677e9eb && RotateLeft(0x101655f9, 30) == 0x4405957e
    ensures RotateLeft(0x0c3df2b4, 30) == 0x030f7cad && RotateLeft(0x78dd4d2b, 30) == 0xde37534a
    ensures RotateLeft(0x497093c0, 30) == 0x125c24f0 && RotateLeft(0x3f2588c2, 30) == 0x8fc96230
    ensures RotateLeft(0xc199f8c7, 30) == 0xf0667e31 && RotateLeft(0x39859de7, 30) == 0xce616779
    ensures RotateLeft(0xedb42de4, 30) == 0x3b6d0b79 && RotateLeft(0x11793f6f, 30) == 0xc45e4fdb
    ensures RotateLeft(0x5ee76897, 30) == 0xd7b9da25 && RotateLeft(0x63f7dab7, 30) == 0xd8fdf6ad
    ensures RotateLeft(0xa079b7d9, 30) == 0x681e6df6 && RotateLeft(0x860d21cc, 30) == 0x21834873
  {
  }

  lemma Sha1Round4(b: seq<byte>)
    requires |b| == 64 && S.Steps(60, Initial(), b) ==
             Registers(0x3f52de5a, 0x09d785fd, 0x3498bfd4, 0xf211824f, 0xd79915ab)
    requires IsW(b, 60, 0x7ba06619, 0x6380aea2, 0x0ae55269, 0x627b49a1)
    requires IsW(b, 64, 0x7cd45c9d, 0x000f0000, 0xfb50753a, 0xec6765e8)
    requires IsW(b, 68, 0xba3c2be2, 0x0060c000, 0x3a37cd05, 0x458546f4)
    requires IsW(b, 72, 0xb8599dd6, 0x380a1a26, 0x01e02203, 0xe7cc3456)
    requires IsW(b, 76, 0xe6e60b69, 0x00f60a00, 0x5795ef4f, 0x822e0879)
    ensures S.Steps(80, Initial(), b) ==
            Registers(0x42541b35, 0x5738d5e1, 0x21834873, 0x681e6df6, 0xd8fdf6ad)
  {
    hide *;
    IsSha1Round4(b);
    Sha1Operations4();
    Sha1Turns4();
    EachOf(b, 60, 0x7ba06619, 0x6380aea2, 0x0ae55269, 0x627b49a1);
    FourSha1Steps(60, b, 0xd756c147, 0x548c9cb2, 0xb66c020b, 0x6b61c9e1,
                  0x4275e17f, 0x8fd4b796, 0xf5d5b051, 0x9523272c);
    EachOf(b, 64, 0x7cd45c9d, 0x000f0000, 0xfb50753a, 0xec6765e8);
    FourSha1Steps(64, b, 0x19dfa7ac, 0x101655f9, 0x0c3df2b4, 0x78dd4d2b,
                  0xed9b0082, 0x5ad87278, 0x0677e9eb, 0x4405957e);
    EachOf(b, 68, 0xba3c2be2, 0x0060c000, 0x3a37cd05, 0x458546f4);
    FourSha1Steps(68, b, 0x497093c0, 0x3f2588c2, 0xc199f8c7, 0x39859de7,
                  0x030f7cad, 0xde37534a, 0x125c24f0, 0x8fc96230);
    EachOf(b, 72, 0xb8599dd6, 0x380a1a26, 0x01e02203, 0xe7cc3456);
    FourSha1Steps(72, b, 0xedb42de4, 0x11793f6f, 0x5ee76897, 0x63f7dab7,
                  0xf0667e31, 0xce616779, 0x3b6d0b79, 0xc45e4fdb);
    EachOf(b, 76, 0xe6e60b69, 0x00f60a00, 0x5795ef4f, 0x822e0879);
    FourSha1Steps(76, b, 0xa079b7d9, 0x860d21cc, 0x5738d5e1, 0x42541b35,
                  0xd7b9da25, 0xd8fdf6ad, 0x681e6df6, 0x21834873);
  }

  lemma Sha1OfBlock()
    ensures Compress(SHA1, Initial(), Block(SHA1)) ==
            Registers(0xa9993e36, 0x4706816a, 0xba3e2571, 0x7850c26c, 0x9cd0d89d)
  {
    hide S.Steps, S.W, Block;
    var b := Block(SHA1);
    Sha1Words();
    hide IsW;
    Sha1Words1(b);
    Sha1Words2(b);
    Sha1Words3(b);
    Sha1Words4(b);
    S.StepsAt(0, Initial(), b);
    Sha1Start(0, b);
    Sha1Round1(b);
    Sha1Round2(b);
    Sha1Round3(b);
    Sha1Round4(b);
  }

  /** Section 7.3 of RFC 3174. */
  lemma Sha1OfAbc()
    ensures Hash(SHA1, [0x61, 0x62, 0x63]) ==
            [0xa9, 0x99, 0x3e, 0x36, 0x47, 0x06, 0x81, 0x6a, 0xba, 0x3e,
             0x25, 0x71, 0x78, 0x50, 0xc2, 0x6c, 0x9c, 0xd0, 0xd8, 0x9d]
  {
    HashOfBlock(SHA1);
    Sha1OfBlock();
    hide Compress, Hash;
  }
}
