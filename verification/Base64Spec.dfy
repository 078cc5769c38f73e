/** The base64 encoding of section 4 of RFC 4648. */
module Base64Spec {
  import opened Words

  /** Table 1: the character for a 6-bit value. */
  function Char(v: byte): (c: char)
    requires v < 64
  {
    var n := v as int;
    if n < 26 then 'A' + n as char
    else if n < 52 then 'a' + (n - 26) as char
    else if n < 62 then '0' + (n - 52) as char
    else if n == 62 then '+'
    else '/'
  }

  predicate IsBase64(c: char) {
    'A' <= c <= 'Z' || 'a' <= c <= 'z' || '0' <= c <= '9' || c == '+' || c == '/'
  }

  /** The 6-bit value of a character. */
  function Index(c: char): (n: nat)
    requires IsBase64(c)
    ensures n < 64
  {
    if 'A' <= c <= 'Z' then c as int - 'A' as int
    else if 'a' <= c <= 'z' then c as int - 'a' as int + 26
    else if '0' <= c <= '9' then c as int - '0' as int + 52
    else if c == '+' then 62
    else 63
  }

  function Value(c: char): (v: byte)
    requires IsBase64(c)
    ensures v < 64
  {
    Index(c) as byte
  }

  lemma CharIsBase64(v: byte)
    requires v < 64
    ensures IsBase64(Char(v)) && Char(v) != '='
    ensures Value(Char(v)) == v
  {
  }

  /** A 24-bit group from three bytes, and its four 6-bit values. */
  function Group(a: byte, b: byte, c: byte): bv24 {
    ((a as bv24) << 16) | ((b as bv24) << 8) | (c as bv24)
  }

  function Sextet(g: bv24, k: nat): (v: byte)
    requires k < 4
    ensures v < 64
  {
    match k
    case 0 => ((g >> 18) & 0x3f) as byte
    case 1 => ((g >> 12) & 0x3f) as byte
    case 2 => ((g >> 6) & 0x3f) as byte
    case _ => (g & 0x3f) as byte
  }

  function Octet(g: bv24, k: nat): byte
    requires k < 3
  {
    match k
    case 0 => ((g >> 16) & 0xff) as byte
    case 1 => ((g >> 8) & 0xff) as byte
    case _ => (g & 0xff) as byte
  }

  function GroupOfSextets(w: byte, x: byte, y: byte, z: byte): bv24 {
    ((w as bv24) << 18) | ((x as bv24) << 12) | ((y as bv24) << 6) | (z as bv24)
  }

  lemma SextetsOfGroup(g: bv24)
    ensures GroupOfSextets(Sextet(g, 0), Sextet(g, 1), Sextet(g, 2), Sextet(g, 3)) == g
  {
  }

  lemma OctetsOfGroup(a: byte, b: byte, c: byte)
    ensures Octet(Group(a, b, c), 0) == a && Octet(Group(a, b, c), 1) == b && Octet(Group(a, b, c), 2) == c
  {
  }

  // ----- Encoding -----

  function Chars(g: bv24): (s: string)
    ensures |s| == 4
  {
    [Char(Sextet(g, 0)), Char(Sextet(g, 1)), Char(Sextet(g, 2)), Char(Sextet(g, 3))]
  }

  /** The first n groups of three bytes. */
  function EncodeGroups(s: seq<byte>, n: nat): (e: string)
    requires 3 * n <= |s|
    ensures |e| == 4 * n
  {
    if n == 0 then "" else EncodeGroups(s, n - 1) + Chars(Group(s[3 * n - 3], s[3 * n - 2], s[3 * n - 1]))
  }

  /** The last one or two bytes, padded. */
  function EncodeLast(s: seq<byte>): string
    requires |s| < 3
  {
    if s == [] then ""
    else if |s| == 1 then Chars(Group(s[0], 0, 0))[..2] + "=="
    else Chars(Group(s[0], s[1], 0))[..3] + "="
  }

  function Encode(s: seq<byte>): string {
    EncodeGroups(s, |s| / 3) + EncodeLast(s[|s| / 3 * 3..])
  }

  // ----- Decoding -----

  /** The characters before the first one that is not in the alphabet. */
  function Prefix(s: string): (p: string)
    ensures p <= s && forall c <- p :: IsBase64(c)
    ensures |p| < |s| ==> !IsBase64(s[|p|])
  {
    if s == "" || !IsBase64(s[0]) then ""
    else
      var p := Prefix(s[1..]);
      assert s == [s[0]] + s[1..];
      [s[0]] + p
  }

  predicate AllBase64(s: string) {
    forall i | 0 <= i < |s| :: IsBase64(s[i])
  }

  function Bytes(w: char, x: char, y: char, z: char): (b: seq<byte>)
    requires IsBase64(w) && IsBase64(x) && IsBase64(y) && IsBase64(z)
    ensures |b| == 3
  {
    var g := GroupOfSextets(Value(w), Value(x), Value(y), Value(z));
    [Octet(g, 0), Octet(g, 1), Octet(g, 2)]
  }

  /** The first n groups of four characters. */
  function DecodeGroups(s: string, n: nat): (d: seq<byte>)
    requires AllBase64(s) && 4 * n <= |s|
    ensures |d| == 3 * n
  {
    if n == 0 then [] else DecodeGroups(s, n - 1) + Bytes(s[4 * n - 4], s[4 * n - 3], s[4 * n - 2], s[4 * n - 1])
  }

  /** The last characters; k of them hold k - 1 bytes. */
  function DecodeLast(s: string): seq<byte>
    requires AllBase64(s) && |s| < 4
  {
    if |s| < 2 then []
    else if |s| == 2 then Bytes(s[0], s[1], 'A', 'A')[..1]
    else Bytes(s[0], s[1], s[2], 'A')[..2]
  }

  function Decode(s: string): seq<byte> {
    var p := Prefix(s);
    DecodeGroups(p, |p| / 4) + DecodeLast(p[|p| / 4 * 4..])
  }

  // ----- Round trip -----

  lemma DecodeChars(a: byte, b: byte, c: byte)
    ensures var s := Chars(Group(a, b, c)); AllBase64(s) && Bytes(s[0], s[1], s[2], s[3]) == [a, b, c]
  {
    var g := Group(a, b, c);
    CharIsBase64(Sextet(g, 0));
    CharIsBase64(Sextet(g, 1));
    CharIsBase64(Sextet(g, 2));
    CharIsBase64(Sextet(g, 3));
    SextetsOfGroup(g);
    OctetsOfGroup(a, b, c);
    hide *;
  }

  lemma {:induction false} PrefixIs(p: string, rest: string)
    requires AllBase64(p) && (rest == "" || !IsBase64(rest[0]))
    ensures Prefix(p + rest) == p
  {
    hide IsBase64;
    if p == "" {
      assert p + rest == rest;
    } else {
      assert (p + rest)[1..] == p[1..] + rest;
      PrefixIs(p[1..], rest);
    }
  }

  lemma {:induction false} DecodeGroupsOfPrefix(s: string, t: string, n: nat)
    requires AllBase64(t) && s <= t && 4 * n <= |s|
    ensures AllBase64(s) && DecodeGroups(s, n) == DecodeGroups(t, n)
  {
    hide Bytes, IsBase64;
    assert forall i | 0 <= i < |s| :: s[i] == t[i];
    if 0 < n { DecodeGroupsOfPrefix(s, t, n - 1); }
  }

  lemma {:induction false} GroupsRoundTrip(s: seq<byte>, n: nat)
    requires 3 * n <= |s|
    ensures AllBase64(EncodeGroups(s, n)) && DecodeGroups(EncodeGroups(s, n), n) == s[..3 * n]
  {
    hide Chars, Group, Bytes, IsBase64;
    if 0 < n {
      GroupsRoundTrip(s, n - 1);
      var before, e := EncodeGroups(s, n - 1), EncodeGroups(s, n);
      DecodeChars(s[3 * n - 3], s[3 * n - 2], s[3 * n - 1]);
      AllOf(before, Chars(Group(s[3 * n - 3], s[3 * n - 2], s[3 * n - 1])));
      DecodeGroupsOfPrefix(before, e, n - 1);
      assert s[..3 * n] == s[..3 * (n - 1)] + [s[3 * n - 3], s[3 * n - 2], s[3 * n - 1]];
    }
  }

  lemma AllOf(s: string, t: string)
    requires AllBase64(s) && AllBase64(t)
    ensures AllBase64(s + t)
  {
  }

  /** The characters of the last group before the padding. */
  function LastChars(s: seq<byte>): (c: string)
    requires |s| < 3
    ensures |c| == if s == [] then 0 else |s| + 1
  {
    if s == [] then ""
    else if |s| == 1 then Chars(Group(s[0], 0, 0))[..2]
    else Chars(Group(s[0], s[1], 0))[..3]
  }

  lemma LastRoundTrip(s: seq<byte>)
    requires |s| < 3
    ensures AllBase64(LastChars(s)) && DecodeLast(LastChars(s)) == s
    ensures exists pad: string :: EncodeLast(s) == LastChars(s) + pad && (pad == "" || !IsBase64(pad[0]))
  {
    hide Chars, Group, Bytes, IsBase64;
    ZeroChar();
    if s == [] {
      assert EncodeLast(s) == LastChars(s) + "";
    } else if |s| == 1 {
      LastOne(s[0]);
      assert EncodeLast(s) == LastChars(s) + "==" && s == [s[0]];
    } else {
      LastTwo(s[0], s[1]);
      assert EncodeLast(s) == LastChars(s) + "=" && s == [s[0], s[1]];
    }
  }

  lemma ZeroChar()
    ensures Value('A') == 0 && !IsBase64('=') && IsBase64('A') && Char(0) == 'A'
  {
  }

  lemma ZeroSextets(a: byte, b: byte)
    ensures Sextet(Group(a, b, 0), 3) == 0
  {
  }

  lemma ZeroSextet(a: byte)
    ensures Sextet(Group(a, 0, 0), 2) == 0
  {
  }

  lemma LastOne(a: byte)
    ensures var s := Chars(Group(a, 0, 0));
            IsBase64(s[0]) && IsBase64(s[1]) && Bytes(s[0], s[1], 'A', 'A')[..1] == [a] && !IsBase64('=')
  {
    DecodeChars(a, 0, 0);
    ZeroChar();
    ZeroSextets(a, 0);
    ZeroSextet(a);
    hide Char, Sextet, Group, Bytes, IsBase64;
  }

  lemma LastTwo(a: byte, b: byte)
    ensures var s := Chars(Group(a, b, 0));
            IsBase64(s[0]) && IsBase64(s[1]) && IsBase64(s[2])
            && Bytes(s[0], s[1], s[2], 'A')[..2] == [a, b] && !IsBase64('=')
  {
    DecodeChars(a, b, 0);
    ZeroChar();
    ZeroSextets(a, b);
    hide Char, Sextet, Group, Bytes, IsBase64;
  }

  /** Every byte string is the decoding of its encoding. */
  lemma RoundTrip(s: seq<byte>)
    ensures Decode(Encode(s)) == s
    ensures |Prefix(Encode(s))| % 4 == if |s| % 3 == 0 then 0 else |s| % 3 + 1
  {
    hide IsBase64, AllBase64, EncodeGroups, DecodeGroups, EncodeLast, LastChars, DecodeLast, Prefix;
    var n := |s| / 3;
    var last := s[n * 3..];
    GroupsRoundTrip(s, n);
    LastRoundTrip(last);
    var pad: string :| EncodeLast(last) == LastChars(last) + pad && (pad == "" || !IsBase64(pad[0]));
    var body := EncodeGroups(s, n);
    var p := body + LastChars(last);
    AllOf(body, LastChars(last));
    assert Encode(s) == p + pad;
    PrefixIs(p, pad);
    assert |body| == 4 * n && |p| / 4 == n && p[n * 4..] == LastChars(last);
    DecodeGroupsOfPrefix(body, p, n);
    assert s == s[..3 * n] + last;
  }
}
