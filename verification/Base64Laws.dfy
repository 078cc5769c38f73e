/** The encoding of section 4 of RFC 4648 character by character, and the examples of its section 10. */
module Base64Laws {
  import opened Words
  import opened Base64Spec

  const UPPER_CASE: string := "ABCDEFGHIJKLMNOPQRSTUVWXYZ"
  const LOWER_CASE: string := "abcdefghijklmnopqrstuvwxyz"
  const DIGITS: string := "0123456789"

  /** Table 1 of RFC 4648. */
  const ALPHABET: string := UPPER_CASE + LOWER_CASE + DIGITS + "+/"

  // ----- The alphabet -----

  lemma UpperCase(v: byte)
    requires v < 26
    ensures |UPPER_CASE| == 26 && UPPER_CASE[v] == 'A' + v as char
  {
  }

  lemma LowerCase(v: byte)
    requires v < 26
    ensures |LOWER_CASE| == 26 && LOWER_CASE[v] == 'a' + v as char
  {
  }

  lemma Digits(v: byte)
    requires v < 10
    ensures |DIGITS| == 10 && DIGITS[v] == '0' + v as char
  {
  }

  lemma Joined(a: string, b: string, c: string, d: string, i: nat)
    requires i < |a| + |b| + |c| + |d|
    ensures (a + b + c + d)[i] ==
            if i < |a| then a[i]
            else if i < |a| + |b| then b[i - |a|]
            else if i < |a| + |b| + |c| then c[i - |a| - |b|]
            else d[i - |a| - |b| - |c|]
  {
  }

  lemma AlphabetSize()
    ensures |ALPHABET| == 64 && |UPPER_CASE| == 26 && |LOWER_CASE| == 26 && |DIGITS| == 10 && |"+/"| == 2
  {
  }

  /** The character at this position of the table. */
  function Letter(v: byte): char
    requires v < 64
  {
    AlphabetSize();
    ALPHABET[v]
  }

  /** The characters are those of the table, in order. */
  lemma CharIs(v: byte)
    requires v < 64
    ensures Char(v) == Letter(v)
  {
    AlphabetSize();
    var a, b, c, d := UPPER_CASE, LOWER_CASE, DIGITS, "+/";
    assert ALPHABET == a + b + c + d;
    assert d[0] == '+' && d[1] == '/';
    if v < 26 {
      UpperCase(v);
    } else if v < 52 {
      LowerCase(v - 26);
    } else if v < 62 {
      Digits(v - 52);
    }
    hide UPPER_CASE, LOWER_CASE, DIGITS, ALPHABET;
    Joined(a, b, c, d, v as int);
  }

  // ----- Encoding -----

  lemma FirstSextets(a: byte, b: byte, c: byte)
    ensures Sextet(Group(a, b, c), 0) == a >> 2
    ensures Sextet(Group(a, b, c), 1) == ((a & 3) << 4) | (b >> 4)
  {
  }

  lemma LastSextets(a: byte, b: byte, c: byte)
    ensures Sextet(Group(a, b, c), 2) == ((b & 15) << 2) | (c >> 6)
    ensures Sextet(Group(a, b, c), 3) == c & 63
  {
  }

  lemma SmallSextets(a: byte, b: byte, c: byte)
    ensures a >> 2 < 64 && ((a & 3) << 4) | (b >> 4) < 64 && ((b & 15) << 2) | (c >> 6) < 64 && c & 63 < 64
  {
  }

  /** The four characters of three bytes. */
  lemma CharsAre(a: byte, b: byte, c: byte)
    ensures a >> 2 < 64 && ((a & 3) << 4) | (b >> 4) < 64 && ((b & 15) << 2) | (c >> 6) < 64 && c & 63 < 64
    ensures Chars(Group(a, b, c)) ==
            [Letter(a >> 2), Letter(((a & 3) << 4) | (b >> 4)), Letter(((b & 15) << 2) | (c >> 6)), Letter(c & 63)]
  {
    hide Sextet, Group, Char, Letter;
    SmallSextets(a, b, c);
    FirstSextets(a, b, c);
    LastSextets(a, b, c);
    CharIs(a >> 2);
    CharIs(((a & 3) << 4) | (b >> 4));
    CharIs(((b & 15) << 2) | (c >> 6));
    CharIs(c & 63);
  }

  lemma {:induction false} GroupAt(s: seq<byte>, n: nat, g: nat)
    requires 3 * n <= |s| && g < n
    ensures EncodeGroups(s, n)[4 * g..4 * g + 4] == Chars(Group(s[3 * g], s[3 * g + 1], s[3 * g + 2]))
  {
    hide Chars, Group;
    if g < n - 1 {
      GroupAt(s, n - 1, g);
      assert EncodeGroups(s, n)[4 * g..4 * g + 4] == EncodeGroups(s, n - 1)[4 * g..4 * g + 4];
    }
  }

  /** The byte at position i, and zero behind the end. */
  function ByteAt(s: seq<byte>, i: nat): byte {
    if i < |s| then s[i] else 0
  }

  lemma LastLength(s: seq<byte>)
    requires |s| < 3
    ensures |EncodeLast(s)| == if s == [] then 0 else 4
  {
    hide Chars, Group;
  }

  /** Every group of at most three bytes is encoded as four characters. */
  lemma EncodedLength(s: seq<byte>)
    ensures |Encode(s)| == (|s| + 2) / 3 * 4
  {
    LastLength(s[|s| / 3 * 3..]);
    hide EncodeGroups, EncodeLast;
  }

  /** The characters of the last group, with its padding. */
  lemma LastAre(s: seq<byte>)
    requires 0 < |s| < 3
    ensures var cs := Chars(Group(s[0], ByteAt(s, 1), 0));
            EncodeLast(s) == [cs[0], cs[1], if |s| == 2 then cs[2] else '=', '=']
  {
    hide Chars, Group;
  }

  /**
   The four characters of the group that begins at 3 * g: six bits each, and '='
   for those that have no bit of the string.
   */
  lemma EncodedAt(s: seq<byte>, g: nat)
    requires 3 * g < |s|
    ensures 4 * g + 4 <= |Encode(s)|
    ensures var a, b, c := s[3 * g], ByteAt(s, 3 * g + 1), ByteAt(s, 3 * g + 2);
            && a >> 2 < 64 && ((a & 3) << 4) | (b >> 4) < 64 && ((b & 15) << 2) | (c >> 6) < 64 && c & 63 < 64
            && Encode(s)[4 * g] == Letter(a >> 2)
            && Encode(s)[4 * g + 1] == Letter(((a & 3) << 4) | (b >> 4))
            && Encode(s)[4 * g + 2] == (if 3 * g + 1 < |s| then Letter(((b & 15) << 2) | (c >> 6)) else '=')
            && Encode(s)[4 * g + 3] == (if 3 * g + 2 < |s| then Letter(c & 63) else '=')
  {
    var a, b, c := s[3 * g], ByteAt(s, 3 * g + 1), ByteAt(s, 3 * g + 2);
    hide *;
    FourAt(s, g);
    CharsAre(a, b, c);
    var four := Chars(Group(a, b, c));
    assert four[0] == Letter(a >> 2) && four[1] == Letter(((a & 3) << 4) | (b >> 4));
    assert four[2] == Letter(((b & 15) << 2) | (c >> 6)) && four[3] == Letter(c & 63);
  }

  lemma FourAt(s: seq<byte>, g: nat)
    requires 3 * g < |s|
    ensures 4 * g + 4 <= |Encode(s)|
    ensures var four := Chars(Group(s[3 * g], ByteAt(s, 3 * g + 1), ByteAt(s, 3 * g + 2)));
            && Encode(s)[4 * g] == four[0]
            && Encode(s)[4 * g + 1] == four[1]
            && Encode(s)[4 * g + 2] == (if 3 * g + 1 < |s| then four[2] else '=')
            && Encode(s)[4 * g + 3] == (if 3 * g + 2 < |s| then four[3] else '=')
  {
    hide Chars, Group, EncodeGroups, EncodeLast;
    EncodedLength(s);
    var n := |s| / 3;
    if g < n {
      GroupAt(s, n, g);
      FourOf(EncodeGroups(s, n), 4 * g, Chars(Group(s[3 * g], s[3 * g + 1], s[3 * g + 2])));
    } else {
      LastAre(s[n * 3..]);
    }
  }

  lemma FourOf(e: string, i: nat, four: string)
    requires i + 4 <= |e| && |four| == 4 && e[i..i + 4] == four
    ensures e[i] == four[0] && e[i + 1] == four[1] && e[i + 2] == four[2] && e[i + 3] == four[3]
  {
    var part := e[i..i + 4];
    assert e[i] == part[0] && e[i + 1] == part[1] && e[i + 2] == part[2] && e[i + 3] == part[3];
  }

  lemma LetterIsBase64(v: byte)
    requires v < 64
    ensures IsBase64(Letter(v))
  {
    CharIs(v);
    CharIsBase64(v);
    hide IsBase64, Letter, Char;
  }

  /**
   Four characters for every three bytes.  Those that have at least one of the
   bits, six to a character, are of the alphabet, and the others are '='.
   */
  lemma EncodingShape(s: seq<byte>)
    ensures |Encode(s)| == (|s| + 2) / 3 * 4
    ensures forall i | 0 <= i < |Encode(s)| :: if 6 * i < 8 * |s| then IsBase64(Encode(s)[i]) else Encode(s)[i] == '='
  {
    hide Encode, IsBase64;
    EncodedLength(s);
    forall i | 0 <= i < |Encode(s)|
      ensures if 6 * i < 8 * |s| then IsBase64(Encode(s)[i]) else Encode(s)[i] == '='
    {
      ShapeAt(s, i / 4, i % 4);
    }
  }

  lemma ShapeAt(s: seq<byte>, g: nat, j: nat)
    requires 3 * g < |s| && j < 4
    ensures 4 * g + 4 <= |Encode(s)|
    ensures if 6 * (4 * g + j) < 8 * |s| then IsBase64(Encode(s)[4 * g + j]) else Encode(s)[4 * g + j] == '='
  {
    hide Encode, IsBase64, Letter;
    EncodedAt(s, g);
    var a, b, c := s[3 * g], ByteAt(s, 3 * g + 1), ByteAt(s, 3 * g + 2);
    LetterIsBase64(a >> 2);
    LetterIsBase64(((a & 3) << 4) | (b >> 4));
    LetterIsBase64(((b & 15) << 2) | (c >> 6));
    LetterIsBase64(c & 63);
    assert j == 0 || j == 1 || j == 2 || j == 3;
  }

  // ----- Decoding -----

  /** The value of a character is its position in the table. */
  lemma ValueIs(c: char)
    requires IsBase64(c)
    ensures Letter(Value(c)) == c
  {
    hide Letter, Value, Char, IsBase64;
    CharIs(Value(c));
    CharOfValue(c);
  }

  lemma CharOfValue(c: char)
    requires IsBase64(c)
    ensures Char(Value(c)) == c
  {
    var n := Index(c);
    assert n as byte as int == n;
    hide Index;
    CharOfIndex(c);
  }

  lemma CharOfIndex(c: char)
    requires IsBase64(c)
    ensures var n := Index(c);
            c == if n < 26 then 'A' + n as char
                 else if n < 52 then 'a' + (n - 26) as char
                 else if n < 62 then '0' + (n - 52) as char
                 else if n == 62 then '+'
                 else '/'
  {
  }

  /** The value of the character at position i, and zero behind the end. */
  function ValueAt(p: string, i: nat): byte
    requires AllBase64(p)
  {
    if i < |p| then Value(p[i]) else 0
  }

  lemma OctetsAre(w: byte, x: byte, y: byte, z: byte)
    requires w < 64 && x < 64 && y < 64 && z < 64
    ensures Octet(GroupOfSextets(w, x, y, z), 0) == (w << 2) | (x >> 4)
    ensures Octet(GroupOfSextets(w, x, y, z), 1) == (x << 4) | (y >> 2)
    ensures Octet(GroupOfSextets(w, x, y, z), 2) == (y << 6) | z
  {
  }

  lemma BytesAre(w: char, x: char, y: char, z: char)
    requires IsBase64(w) && IsBase64(x) && IsBase64(y) && IsBase64(z)
    ensures Bytes(w, x, y, z) ==
            [(Value(w) << 2) | (Value(x) >> 4), (Value(x) << 4) | (Value(y) >> 2), (Value(y) << 6) | Value(z)]
  {
    OctetsAre(Value(w), Value(x), Value(y), Value(z));
    hide Octet, GroupOfSextets, IsBase64, Value;
  }

  lemma {:induction false} DecodedGroup(s: string, n: nat, g: nat)
    requires AllBase64(s) && 4 * n <= |s| && g < n
    ensures DecodeGroups(s, n)[3 * g..3 * g + 3] == Bytes(s[4 * g], s[4 * g + 1], s[4 * g + 2], s[4 * g + 3])
  {
    hide Bytes, IsBase64;
    if g < n - 1 {
      DecodedGroup(s, n - 1, g);
      assert DecodeGroups(s, n)[3 * g..3 * g + 3] == DecodeGroups(s, n - 1)[3 * g..3 * g + 3];
    }
  }

  /** Of k characters that are left over, the last of which has no byte of its own, k - 1 bytes are made. */
  lemma DecodedLength(s: string)
    ensures var n := |Prefix(s)|; |Decode(s)| == n / 4 * 3 + (if n % 4 == 0 then 0 else n % 4 - 1)
  {
    hide Bytes, DecodeGroups, Prefix;
  }

  lemma ThreeOf(d: seq<byte>, i: nat, three: seq<byte>)
    requires i + 3 <= |d| && |three| == 3 && d[i..i + 3] == three
    ensures d[i] == three[0] && d[i + 1] == three[1] && d[i + 2] == three[2]
  {
    var part := d[i..i + 3];
    assert d[i] == part[0] && d[i + 1] == part[1] && d[i + 2] == part[2];
  }

  lemma PrefixIsBase64(s: string)
    ensures AllBase64(Prefix(s))
  {
    hide IsBase64;
  }

  /** The bytes that begin at 3 * g: eight bits each of the values of the characters before the first other one. */
  lemma DecodedAt(s: string, g: nat)
    requires 4 * g + 1 < |Prefix(s)|
    ensures AllBase64(Prefix(s))
    ensures var p := Prefix(s);
            var w, x, y, z := ValueAt(p, 4 * g), ValueAt(p, 4 * g + 1), ValueAt(p, 4 * g + 2), ValueAt(p, 4 * g + 3);
            && 3 * g < |Decode(s)| && Decode(s)[3 * g] == (w << 2) | (x >> 4)
            && (4 * g + 2 < |p| ==> 3 * g + 1 < |Decode(s)| && Decode(s)[3 * g + 1] == (x << 4) | (y >> 2))
            && (4 * g + 3 < |p| ==> 3 * g + 2 < |Decode(s)| && Decode(s)[3 * g + 2] == (y << 6) | z)
  {
    hide Bytes, IsBase64, Prefix, DecodeGroups, DecodeLast, Value;
    PrefixIsBase64(s);
    DecodedLength(s);
    var p := Prefix(s);
    var n := |p| / 4;
    if g < n {
      DecodedGroup(p, n, g);
      ThreeOf(DecodeGroups(p, n), 3 * g, Bytes(p[4 * g], p[4 * g + 1], p[4 * g + 2], p[4 * g + 3]));
      BytesAre(p[4 * g], p[4 * g + 1], p[4 * g + 2], p[4 * g + 3]);
    } else {
      LastBytes(p[n * 4..]);
    }
  }

  lemma LastBytes(t: string)
    requires AllBase64(t) && 2 <= |t| < 4
    ensures DecodeLast(t) == [(Value(t[0]) << 2) | (Value(t[1]) >> 4)]
                             + if |t| == 3 then [(Value(t[1]) << 4) | (Value(t[2]) >> 2)] else []
  {
    hide Bytes, Value, IsBase64;
    ZeroChar();
    BytesAre(t[0], t[1], if |t| == 3 then t[2] else 'A', 'A');
  }

  // ----- Section 10 of RFC 4648 -----

  lemma ShortExamples()
    ensures Encode([]) == ""
    ensures Encode([0x66]) == "Zg=="
    ensures Encode([0x66, 0x6f]) == "Zm8="
    ensures Encode([0x66, 0x6f, 0x6f]) == "Zm9v"
  {
  }

  lemma LongExamples()
    ensures Encode([0x66, 0x6f, 0x6f, 0x62]) == "Zm9vYg=="
    ensures Encode([0x66, 0x6f, 0x6f, 0x62, 0x61]) == "Zm9vYmE="
    ensures Encode([0x66, 0x6f, 0x6f, 0x62, 0x61, 0x72]) == "Zm9vYmFy"
  {
  }
}
