/**
 The MD5 block function: the four unrolled rounds of MD5ProcessBlock compute the
 64 steps that section 3.4 of RFC 1321 defines by a table.
 */
module Md5Block {
  import opened Words

  // ----- RFC 1321 -----

  function F(x: word, y: word, z: word): word { (x & y) | (!x & z) }

  function G(x: word, y: word, z: word): word { (x & z) | (y & !z) }

  function H(x: word, y: word, z: word): word { x ^ y ^ z }

  function I(x: word, y: word, z: word): word { y ^ (x | !z) }

  /** The function, the word of the block, the shift and the constant of each step. */
  function RoundFunction(i: nat, x: word, y: word, z: word): word {
    if i < 16 then F(x, y, z)
    else if i < 32 then G(x, y, z)
    else if i < 48 then H(x, y, z)
    else I(x, y, z)
  }

  function WordIndex(i: nat): (k: nat)
    ensures k < 16
  {
    if i < 16 then i
    else if i < 32 then (5 * i + 1) % 16
    else if i < 48 then (3 * i + 5) % 16
    else (7 * i) % 16
  }

  function Shift(i: nat): (s: nat)
    ensures s <= 32
  {
    if i < 16 then (match i % 4 case 0 => 7 case 1 => 12 case 2 => 17 case _ => 22)
    else if i < 32 then (match i % 4 case 0 => 5 case 1 => 9 case 2 => 14 case _ => 20)
    else if i < 48 then (match i % 4 case 0 => 4 case 1 => 11 case 2 => 16 case _ => 23)
    else (match i % 4 case 0 => 6 case 1 => 10 case 2 => 15 case _ => 21)
  }

  /** T[i + 1]: the integer part of 4294967296 times abs(sin(i + 1)). */
  function Sine(i: nat): word {
    if i < 16 then Sine1(i)
    else if i < 32 then Sine2(i)
    else if i < 48 then Sine3(i)
    else Sine4(i)
  }

  function Sine1(i: nat): word {
    match i
    case 0 => 0xd76aa478 case 1 => 0xe8c7b756 case 2 => 0x242070db case 3 => 0xc1bdceee
    case 4 => 0xf57c0faf case 5 => 0x4787c62a case 6 => 0xa8304613 case 7 => 0xfd469501
    case 8 => 0x698098d8 case 9 => 0x8b44f7af case 10 => 0xffff5bb1 case 11 => 0x895cd7be
    case 12 => 0x6b901122 case 13 => 0xfd987193 case 14 => 0xa679438e case _ => 0x49b40821
  }

  function Sine2(i: nat): word {
    match i
    case 16 => 0xf61e2562 case 17 => 0xc040b340 case 18 => 0x265e5a51 case 19 => 0xe9b6c7aa
    case 20 => 0xd62f105d case 21 => 0x02441453 case 22 => 0xd8a1e681 case 23 => 0xe7d3fbc8
    case 24 => 0x21e1cde6 case 25 => 0xc33707d6 case 26 => 0xf4d50d87 case 27 => 0x455a14ed
    case 28 => 0xa9e3e905 case 29 => 0xfcefa3f8 case 30 => 0x676f02d9 case _ => 0x8d2a4c8a
  }

  function Sine3(i: nat): word {
    match i
    case 32 => 0xfffa3942 case 33 => 0x8771f681 case 34 => 0x6d9d6122 case 35 => 0xfde5380c
    case 36 => 0xa4beea44 case 37 => 0x4bdecfa9 case 38 => 0xf6bb4b60 case 39 => 0xbebfbc70
    case 40 => 0x289b7ec6 case 41 => 0xeaa127fa case 42 => 0xd4ef3085 case 43 => 0x04881d05
    case 44 => 0xd9d4d039 case 45 => 0xe6db99e5 case 46 => 0x1fa27cf8 case _ => 0xc4ac5665
  }

  function Sine4(i: nat): word {
    match i
    case 48 => 0xf4292244 case 49 => 0x432aff97 case 50 => 0xab9423a7 case 51 => 0xfc93a039
    case 52 => 0x655b59c3 case 53 => 0x8f0ccc92 case 54 => 0xffeff47d case 55 => 0x85845dd1
    case 56 => 0x6fa87e4f case 57 => 0xfe2ce6e0 case 58 => 0xa3014314 case 59 => 0x4e0811a1
    case 60 => 0xf7537e82 case 61 => 0xbd3af235 case 62 => 0x2ad7d2bb case _ => 0xeb86d391
  }

  /** b + ((a + f + x + t) <<< s): OP and OP_fn, given the value of the round function. */
  function Op(f: word, a: word, b: word, s: nat, t: word, x: word): word
    requires s <= 32
  {
    RotateLeft(a + f + x + t, s) + b
  }

  datatype Quad = Quad(a: word, b: word, c: word, d: word)

  /** [abcd k s i]: a = b + ((a + f(b, c, d) + X[k] + T[i]) <<< s), with the registers then taken in the order dabc. */
  function Step(i: nat, q: Quad, x: seq<word>): Quad
    requires i < 64 && |x| == 16
  {
    Quad(q.d, Op(RoundFunction(i, q.b, q.c, q.d), q.a, q.b, Shift(i), Sine(i), x[WordIndex(i)]), q.b, q.c)
  }

  function Steps(n: nat, q: Quad, x: seq<word>): Quad
    requires n <= 64 && |x| == 16
  {
    if n == 0 then q else Step(n - 1, Steps(n - 1, q, x), x)
  }

  function BlockWords(block: seq<byte>): seq<word>
    requires |block| == 64
  {
    seq(16, i requires 0 <= i < 16 => LittleEndian(block[4 * i..4 * i + 4]))
  }

  function Plus(r: Registers, q: Quad): Registers {
    Registers(q.a + r.a, q.b + r.b, q.c + r.c, q.d + r.d, r.e)
  }

  /** The effect of one block on the registers. */
  function Compress(r: Registers, block: seq<byte>): Registers
    requires |block| == 64
  {
    Plus(r, Steps(64, Quad(r.a, r.b, r.c, r.d), BlockWords(block)))
  }

  // ----- digest.c -----

  lemma Distributes(b: word, c: word, d: word)
    ensures b & (c ^ d) == (b & c) ^ (b & d)
  {
  }

  lemma Masks(b: word, d: word)
    ensures d ^ (b & d) == !b & d
  {
  }

  lemma Regroups(x: word, y: word, z: word)
    ensures x ^ (y ^ z) == y ^ (x ^ z)
  {
  }

  lemma Disjoint(b: word, x: word, y: word)
    ensures (b & x) ^ (!b & y) == (b & x) | (!b & y)
  {
  }

  /** The optimised form of the first round function. */
  lemma Selects(b: word, c: word, d: word)
    ensures d ^ (b & (c ^ d)) == F(b, c, d)
  {
    Distributes(b, c, d);
    Regroups(d, b & c, b & d);
    Masks(b, d);
    Disjoint(b, c, d);
  }

  function FF(b: word, c: word, d: word): (f: word)
    ensures f == F(b, c, d)
  {
    Selects(b, c, d);
    d ^ (b & (c ^ d))
  }

  function FG(b: word, c: word, d: word): (f: word)
    ensures f == G(b, c, d)
  {
    FF(d, b, c)
  }

  function FH(b: word, c: word, d: word): (f: word)
    ensures f == H(b, c, d)
  {
    b ^ c ^ d
  }

  function FI(b: word, c: word, d: word): (f: word)
    ensures f == I(b, c, d)
  {
    c ^ (b | !d)
  }

  /** Four steps, by name of the registers. */
  function FourSteps(i: nat, q: Quad, x: seq<word>): Quad
    requires i <= 60 && |x| == 16
  {
    var a := Op(RoundFunction(i, q.b, q.c, q.d), q.a, q.b, Shift(i), Sine(i), x[WordIndex(i)]);
    var d := Op(RoundFunction(i + 1, a, q.b, q.c), q.d, a, Shift(i + 1), Sine(i + 1), x[WordIndex(i + 1)]);
    var c := Op(RoundFunction(i + 2, d, a, q.b), q.c, d, Shift(i + 2), Sine(i + 2), x[WordIndex(i + 2)]);
    var b := Op(RoundFunction(i + 3, c, d, a), q.b, c, Shift(i + 3), Sine(i + 3), x[WordIndex(i + 3)]);
    Quad(a, b, c, d)
  }

  lemma StepsByFour(i: nat, q: Quad, x: seq<word>)
    requires i <= 60 && |x| == 16
    ensures Steps(i + 4, q, x) == FourSteps(i, Steps(i, q, x), x)
  {
    hide RoundFunction, WordIndex, Shift, Sine, Op;
    assert Steps(i + 1, q, x) == Step(i, Steps(i, q, x), x);
    assert Steps(i + 2, q, x) == Step(i + 1, Steps(i + 1, q, x), x);
    assert Steps(i + 3, q, x) == Step(i + 2, Steps(i + 2, q, x), x);
  }

  lemma WordsOfRound1()
    ensures WordIndex(0) == 0 && WordIndex(1) == 1 && WordIndex(2) == 2 && WordIndex(3) == 3
    ensures WordIndex(4) == 4 && WordIndex(5) == 5 && WordIndex(6) == 6 && WordIndex(7) == 7
    ensures WordIndex(8) == 8 && WordIndex(9) == 9 && WordIndex(10) == 10 && WordIndex(11) == 11
    ensures WordIndex(12) == 12 && WordIndex(13) == 13 && WordIndex(14) == 14 && WordIndex(15) == 15
  {
  }

  lemma ShiftsOfRound1()
    ensures Shift(0) == 7 && Shift(1) == 12 && Shift(2) == 17 && Shift(3) == 22
    ensures Shift(4) == 7 && Shift(5) == 12 && Shift(6) == 17 && Shift(7) == 22
    ensures Shift(8) == 7 && Shift(9) == 12 && Shift(10) == 17 && Shift(11) == 22
    ensures Shift(12) == 7 && Shift(13) == 12 && Shift(14) == 17 && Shift(15) == 22
  {
  }

  lemma SinesOfRound1()
    ensures Sine(0) == 0xd76aa478 && Sine(1) == 0xe8c7b756 && Sine(2) == 0x242070db && Sine(3) == 0xc1bdceee
    ensures Sine(4) == 0xf57c0faf && Sine(5) == 0x4787c62a && Sine(6) == 0xa8304613 && Sine(7) == 0xfd469501
    ensures Sine(8) == 0x698098d8 && Sine(9) == 0x8b44f7af && Sine(10) == 0xffff5bb1 && Sine(11) == 0x895cd7be
    ensures Sine(12) == 0x6b901122 && Sine(13) == 0xfd987193 && Sine(14) == 0xa679438e && Sine(15) == 0x49b40821
  {
  }

  method Round1(a: word, b: word, c: word, d: word, x: seq<word>, ghost q: Quad)
    returns (A: word, B: word, C: word, D: word)
    requires |x| == 16 && Quad(a, b, c, d) == Steps(0, q, x)
    ensures Quad(A, B, C, D) == Steps(16, q, x)
  {
    hide F, G, H, I, FF, FG, FH, FI, Op, Step, Steps, WordIndex, Shift, Sine;
    WordsOfRound1();
    ShiftsOfRound1();
    SinesOfRound1();
    A, B, C, D := a, b, c, d;
    A := Op(FF(B, C, D), A, B, 7, 0xd76aa478, x[0]);
    D := Op(FF(A, B, C), D, A, 12, 0xe8c7b756, x[1]);
    C := Op(FF(D, A, B), C, D, 17, 0x242070db, x[2]);
    B := Op(FF(C, D, A), B, C, 22, 0xc1bdceee, x[3]);
    StepsByFour(0, q, x);
    assert Steps(4, q, x) == Quad(A, B, C, D);
    A := Op(FF(B, C, D), A, B, 7, 0xf57c0faf, x[4]);
    D := Op(FF(A, B, C), D, A, 12, 0x4787c62a, x[5]);
    C := Op(FF(D, A, B), C, D, 17, 0xa8304613, x[6]);
    B := Op(FF(C, D, A), B, C, 22, 0xfd469501, x[7]);
    StepsByFour(4, q, x);
    assert Steps(8, q, x) == Quad(A, B, C, D);
    A := Op(FF(B, C, D), A, B, 7, 0x698098d8, x[8]);
    D := Op(FF(A, B, C), D, A, 12, 0x8b44f7af, x[9]);
    C := Op(FF(D, A, B), C, D, 17, 0xffff5bb1, x[10]);
    B := Op(FF(C, D, A), B, C, 22, 0x895cd7be, x[11]);
    StepsByFour(8, q, x);
    assert Steps(12, q, x) == Quad(A, B, C, D);
    A := Op(FF(B, C, D), A, B, 7, 0x6b901122, x[12]);
    D := Op(FF(A, B, C), D, A, 12, 0xfd987193, x[13]);
    C := Op(FF(D, A, B), C, D, 17, 0xa679438e, x[14]);
    B := Op(FF(C, D, A), B, C, 22, 0x49b40821, x[15]);
    StepsByFour(12, q, x);
    assert Steps(16, q, x) == Quad(A, B, C, D);
  }

  lemma WordsOfRound2()
    ensures WordIndex(16) == 1 && WordIndex(17) == 6 && WordIndex(18) == 11 && WordIndex(19) == 0
    ensures WordIndex(20) == 5 && WordIndex(21) == 10 && WordIndex(22) == 15 && WordIndex(23) == 4
    ensures WordIndex(24) == 9 && WordIndex(25) == 14 && WordIndex(26) == 3 && WordIndex(27) == 8
    ensures WordIndex(28) == 13 && WordIndex(29) == 2 && WordIndex(30) == 7 && WordIndex(31) == 12
  {
  }

  lemma ShiftsOfRound2()
    ensures Shift(16) == 5 && Shift(17) == 9 && Shift(18) == 14 && Shift(19) == 20
    ensures Shift(20) == 5 && Shift(21) == 9 && Shift(22) == 14 && Shift(23) == 20
    ensures Shift(24) == 5 && Shift(25) == 9 && Shift(26) == 14 && Shift(27) == 20
    ensures Shift(28) == 5 && Shift(29) == 9 && Shift(30) == 14 && Shift(31) == 20
  {
  }

  lemma SinesOfRound2()
    ensures Sine(16) == 0xf61e2562 && Sine(17) == 0xc040b340 && Sine(18) == 0x265e5a51 && Sine(19) == 0xe9b6c7aa
    ensures Sine(20) == 0xd62f105d && Sine(21) == 0x02441453 && Sine(22) == 0xd8a1e681 && Sine(23) == 0xe7d3fbc8
    ensures Sine(24) == 0x21e1cde6 && Sine(25) == 0xc33707d6 && Sine(26) == 0xf4d50d87 && Sine(27) == 0x455a14ed
    ensures Sine(28) == 0xa9e3e905 && Sine(29) == 0xfcefa3f8 && Sine(30) == 0x676f02d9 && Sine(31) == 0x8d2a4c8a
  {
  }

  method Round2(a: word, b: word, c: word, d: word, x: seq<word>, ghost q: Quad)
    returns (A: word, B: word, C: word, D: word)
    requires |x| == 16 && Quad(a, b, c, d) == Steps(16, q, x)
    ensures Quad(A, B, C, D) == Steps(32, q, x)
  {
    hide F, G, H, I, FF, FG, FH, FI, Op, Step, Steps, WordIndex, Shift, Sine;
    WordsOfRound2();
    ShiftsOfRound2();
    SinesOfRound2();
    A, B, C, D := a, b, c, d;
    A := Op(FG(B, C, D), A, B, 5, 0xf61e2562, x[1]);
    D := Op(FG(A, B, C), D, A, 9, 0xc040b340, x[6]);
    C := Op(FG(D, A, B), C, D, 14, 0x265e5a51, x[11]);
    B := Op(FG(C, D, A), B, C, 20, 0xe9b6c7aa, x[0]);
    StepsByFour(16, q, x);
    assert Steps(20, q, x) == Quad(A, B, C, D);
    A := Op(FG(B, C, D), A, B, 5, 0xd62f105d, x[5]);
    D := Op(FG(A, B, C), D, A, 9, 0x02441453, x[10]);
    C := Op(FG(D, A, B), C, D, 14, 0xd8a1e681, x[15]);
    B := Op(FG(C, D, A), B, C, 20, 0xe7d3fbc8, x[4]);
    StepsByFour(20, q, x);
    assert Steps(24, q, x) == Quad(A, B, C, D);
    A := Op(FG(B, C, D), A, B, 5, 0x21e1cde6, x[9]);
    D := Op(FG(A, B, C), D, A, 9, 0xc33707d6, x[14]);
    C := Op(FG(D, A, B), C, D, 14, 0xf4d50d87, x[3]);
    B := Op(FG(C, D, A), B, C, 20, 0x455a14ed, x[8]);
    StepsByFour(24, q, x);
    assert Steps(28, q, x) == Quad(A, B, C, D);
    A := Op(FG(B, C, D), A, B, 5, 0xa9e3e905, x[13]);
    D := Op(FG(A, B, C), D, A, 9, 0xfcefa3f8, x[2]);
    C := Op(FG(D, A, B), C, D, 14, 0x676f02d9, x[7]);
    B := Op(FG(C, D, A), B, C, 20, 0x8d2a4c8a, x[12]);
    StepsByFour(28, q, x);
    assert Steps(32, q, x) == Quad(A, B, C, D);
  }

  lemma WordsOfRound3()
    ensures WordIndex(32) == 5 && WordIndex(33) == 8 && WordIndex(34) == 11 && WordIndex(35) == 14
    ensures WordIndex(36) == 1 && WordIndex(37) == 4 && WordIndex(38) == 7 && WordIndex(39) == 10
    ensures WordIndex(40) == 13 && WordIndex(41) == 0 && WordIndex(42) == 3 && WordIndex(43) == 6
    ensures WordIndex(44) == 9 && WordIndex(45) == 12 && WordIndex(46) == 15 && WordIndex(47) == 2
  {
  }

  lemma ShiftsOfRound3()
    ensures Shift(32) == 4 && Shift(33) == 11 && Shift(34) == 16 && Shift(35) == 23
    ensures Shift(36) == 4 && Shift(37) == 11 && Shift(38) == 16 && Shift(39) == 23
    ensures Shift(40) == 4 && Shift(41) == 11 && Shift(42) == 16 && Shift(43) == 23
    ensures Shift(44) == 4 && Shift(45) == 11 && Shift(46) == 16 && Shift(47) == 23
  {
  }

  lemma SinesOfRound3()
    ensures Sine(32) == 0xfffa3942 && Sine(33) == 0x8771f681 && Sine(34) == 0x6d9d6122 && Sine(35) == 0xfde5380c
    ensures Sine(36) == 0xa4beea44 && Sine(37) == 0x4bdecfa9 && Sine(38) == 0xf6bb4b60 && Sine(39) == 0xbebfbc70
    ensures Sine(40) == 0x289b7ec6 && Sine(41) == 0xeaa127fa && Sine(42) == 0xd4ef3085 && Sine(43) == 0x04881d05
    ensures Sine(44) == 0xd9d4d039 && Sine(45) == 0xe6db99e5 && Sine(46) == 0x1fa27cf8 && Sine(47) == 0xc4ac5665
  {
  }

  method Round3(a: word, b: word, c: word, d: word, x: seq<word>, ghost q: Quad)
    returns (A: word, B: word, C: word, D: word)
    requires |x| == 16 && Quad(a, b, c, d) == Steps(32, q, x)
    ensures Quad(A, B, C, D) == Steps(48, q, x)
  {
    hide F, G, H, I, FF, FG, FH, FI, Op, Step, Steps, WordIndex, Shift, Sine;
    WordsOfRound3();
    ShiftsOfRound3();
    SinesOfRound3();
    A, B, C, D := a, b, c, d;
    A := Op(FH(B, C, D), A, B, 4, 0xfffa3942, x[5]);
    D := Op(FH(A, B, C), D, A, 11, 0x8771f681, x[8]);
    C := Op(FH(D, A, B), C, D, 16, 0x6d9d6122, x[11]);
    B := Op(FH(C, D, A), B, C, 23, 0xfde5380c, x[14]);
    StepsByFour(32, q, x);
    assert Steps(36, q, x) == Quad(A, B, C, D);
    A := Op(FH(B, C, D), A, B, 4, 0xa4beea44, x[1]);
    D := Op(FH(A, B, C), D, A, 11, 0x4bdecfa9, x[4]);
    C := Op(FH(D, A, B), C, D, 16, 0xf6bb4b60, x[7]);
    B := Op(FH(C, D, A), B, C, 23, 0xbebfbc70, x[10]);
    StepsByFour(36, q, x);
    assert Steps(40, q, x) == Quad(A, B, C, D);
    A := Op(FH(B, C, D), A, B, 4, 0x289b7ec6, x[13]);
    D := Op(FH(A, B, C), D, A, 11, 0xeaa127fa, x[0]);
    C := Op(FH(D, A, B), C, D, 16, 0xd4ef3085, x[3]);
    B := Op(FH(C, D, A), B, C, 23, 0x04881d05, x[6]);
    StepsByFour(40, q, x);
    assert Steps(44, q, x) == Quad(A, B, C, D);
    A := Op(FH(B, C, D), A, B, 4, 0xd9d4d039, x[9]);
    D := Op(FH(A, B, C), D, A, 11, 0xe6db99e5, x[12]);
    C := Op(FH(D, A, B), C, D, 16, 0x1fa27cf8, x[15]);
    B := Op(FH(C, D, A), B, C, 23, 0xc4ac5665, x[2]);
    StepsByFour(44, q, x);
    assert Steps(48, q, x) == Quad(A, B, C, D);
  }

  lemma WordsOfRound4()
    ensures WordIndex(48) == 0 && WordIndex(49) == 7 && WordIndex(50) == 14 && WordIndex(51) == 5
    ensures WordIndex(52) == 12 && WordIndex(53) == 3 && WordIndex(54) == 10 && WordIndex(55) == 1
    ensures WordIndex(56) == 8 && WordIndex(57) == 15 && WordIndex(58) == 6 && WordIndex(59) == 13
    ensures WordIndex(60) == 4 && WordIndex(61) == 11 && WordIndex(62) == 2 && WordIndex(63) == 9
  {
  }

  lemma ShiftsOfRound4()
    ensures Shift(48) == 6 && Shift(49) == 10 && Shift(50) == 15 && Shift(51) == 21
    ensures Shift(52) == 6 && Shift(53) == 10 && Shift(54) == 15 && Shift(55) == 21
    ensures Shift(56) == 6 && Shift(57) == 10 && Shift(58) == 15 && Shift(59) == 21
    ensures Shift(60) == 6 && Shift(61) == 10 && Shift(62) == 15 && Shift(63) == 21
  {
  }

  lemma SinesOfRound4()
    ensures Sine(48) == 0xf4292244 && Sine(49) == 0x432aff97 && Sine(50) == 0xab9423a7 && Sine(51) == 0xfc93a039
    ensures Sine(52) == 0x655b59c3 && Sine(53) == 0x8f0ccc92 && Sine(54) == 0xffeff47d && Sine(55) == 0x85845dd1
    ensures Sine(56) == 0x6fa87e4f && Sine(57) == 0xfe2ce6e0 && Sine(58) == 0xa3014314 && Sine(59) == 0x4e0811a1
    ensures Sine(60) == 0xf7537e82 && Sine(61) == 0xbd3af235 && Sine(62) == 0x2ad7d2bb && Sine(63) == 0xeb86d391
  {
  }

  method Round4(a: word, b: word, c: word, d: word, x: seq<word>, ghost q: Quad)
    returns (A: word, B: word, C: word, D: word)
    requires |x| == 16 && Quad(a, b, c, d) == Steps(48, q, x)
    ensures Quad(A, B, C, D) == Steps(64, q, x)
  {
    hide F, G, H, I, FF, FG, FH, FI, Op, Step, Steps, WordIndex, Shift, Sine;
    WordsOfRound4();
    ShiftsOfRound4();
    SinesOfRound4();
    A, B, C, D := a, b, c, d;
    A := Op(FI(B, C, D), A, B, 6, 0xf4292244, x[0]);
    D := Op(FI(A, B, C), D, A, 10, 0x432aff97, x[7]);
    C := Op(FI(D, A, B), C, D, 15, 0xab9423a7, x[14]);
    B := Op(FI(C, D, A), B, C, 21, 0xfc93a039, x[5]);
    StepsByFour(48, q, x);
    assert Steps(52, q, x) == Quad(A, B, C, D);
    A := Op(FI(B, C, D), A, B, 6, 0x655b59c3, x[12]);
    D := Op(FI(A, B, C), D, A, 10, 0x8f0ccc92, x[3]);
    C := Op(FI(D, A, B), C, D, 15, 0xffeff47d, x[10]);
    B := Op(FI(C, D, A), B, C, 21, 0x85845dd1, x[1]);
    StepsByFour(52, q, x);
    assert Steps(56, q, x) == Quad(A, B, C, D);
    A := Op(FI(B, C, D), A, B, 6, 0x6fa87e4f, x[8]);
    D := Op(FI(A, B, C), D, A, 10, 0xfe2ce6e0, x[15]);
    C := Op(FI(D, A, B), C, D, 15, 0xa3014314, x[6]);
    B := Op(FI(C, D, A), B, C, 21, 0x4e0811a1, x[13]);
    StepsByFour(56, q, x);
    assert Steps(60, q, x) == Quad(A, B, C, D);
    A := Op(FI(B, C, D), A, B, 6, 0xf7537e82, x[4]);
    D := Op(FI(A, B, C), D, A, 10, 0xbd3af235, x[11]);
    C := Op(FI(D, A, B), C, D, 15, 0x2ad7d2bb, x[2]);
    B := Op(FI(C, D, A), B, C, 21, 0xeb86d391, x[9]);
    StepsByFour(60, q, x);
    assert Steps(64, q, x) == Quad(A, B, C, D);
  }

  /** One pass of the loop of MD5ProcessBlock. */
  method ProcessBlock(r: Registers, block: seq<byte>) returns (r': Registers)
    requires |block| == 64
    ensures r' == Compress(r, block)
  {
    hide Steps, Step, Plus, LittleEndian;
    var x := BlockWords(block);
    ghost var q := Quad(r.a, r.b, r.c, r.d);
    NoSteps(q, x);
    var A, B, C, D := Round1(r.a, r.b, r.c, r.d, x, q);
    A, B, C, D := Round2(A, B, C, D, x, q);
    A, B, C, D := Round3(A, B, C, D, x, q);
    A, B, C, D := Round4(A, B, C, D, x, q);
    r' := Plus(r, Quad(A, B, C, D));
  }

  lemma NoSteps(q: Quad, x: seq<word>)
    requires |x| == 16
    ensures Steps(0, q, x) == q
  {
  }
}
