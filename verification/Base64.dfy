/**
 EncodeBase64 and DecodeBase64 of src/base64.c: groups are converted in a build
 buffer of 2048 characters, which is appended to a growing result when it is
 nearly full.
 */
module Base64 {
  import opened Words
  import opened Base64Spec

  const BUFFER_SIZE: nat := 2048

  // ----- Tables and groups -----

  /** toBase64. */
  function ToBase64(v: int): char {
    match v
    case 0 => 'A' case 1 => 'B' case 2 => 'C' case 3 => 'D' case 4 => 'E' case 5 => 'F' case 6 => 'G' case 7 => 'H'
    case 8 => 'I' case 9 => 'J' case 10 => 'K' case 11 => 'L' case 12 => 'M' case 13 => 'N' case 14 => 'O' case 15 => 'P'
    case 16 => 'Q' case 17 => 'R' case 18 => 'S' case 19 => 'T' case 20 => 'U' case 21 => 'V' case 22 => 'W' case 23 => 'X'
    case 24 => 'Y' case 25 => 'Z' case 26 => 'a' case 27 => 'b' case 28 => 'c' case 29 => 'd' case 30 => 'e' case 31 => 'f'
    case 32 => 'g' case 33 => 'h' case 34 => 'i' case 35 => 'j' case 36 => 'k' case 37 => 'l' case 38 => 'm' case 39 => 'n'
    case 40 => 'o' case 41 => 'p' case 42 => 'q' case 43 => 'r' case 44 => 's' case 45 => 't' case 46 => 'u' case 47 => 'v'
    case 48 => 'w' case 49 => 'x' case 50 => 'y' case 51 => 'z' case 52 => '0' case 53 => '1' case 54 => '2' case 55 => '3'
    case 56 => '4' case 57 => '5' case 58 => '6' case 59 => '7' case 60 => '8' case 61 => '9' case 62 => '+' case 63 => '/'
    case _ => '\0'
  }

  /** fromBase64_idx43. */
  function FromBase64(i: int): nat {
    match i
    case 0 => 62 case 4 => 63 case 5 => 52 case 6 => 53 case 7 => 54 case 8 => 55 case 9 => 56 case 10 => 57
    case 11 => 58 case 12 => 59 case 13 => 60 case 14 => 61 case 22 => 0 case 23 => 1 case 24 => 2 case 25 => 3
    case 26 => 4 case 27 => 5 case 28 => 6 case 29 => 7 case 30 => 8 case 31 => 9 case 32 => 10 case 33 => 11
    case 34 => 12 case 35 => 13 case 36 => 14 case 37 => 15 case 38 => 16 case 39 => 17 case 40 => 18 case 41 => 19
    case 42 => 20 case 43 => 21 case 44 => 22 case 45 => 23 case 46 => 24 case 47 => 25 case 54 => 26 case 55 => 27
    case 56 => 28 case 57 => 29 case 58 => 30 case 59 => 31 case 60 => 32 case 61 => 33 case 62 => 34 case 63 => 35
    case 64 => 36 case 65 => 37 case 66 => 38 case 67 => 39 case 68 => 40 case 69 => 41 case 70 => 42 case 71 => 43
    case 72 => 44 case 73 => 45 case 74 => 46 case 75 => 47 case 76 => 48 case 77 => 49 case 78 => 50 case 79 => 51
    case _ => 0
  }

  lemma ToBase64Is(v: byte)
    requires v < 64
    ensures ToBase64(v as int) == Char(v)
  {
  }

  lemma FromBase64Is(c: char)
    requires IsBase64(c)
    ensures FromBase64(c as int - 43) == Index(c)
  {
  }

  /** Expand 3 bytes into 4 values. */
  function Expand(a: byte, b: byte, c: byte): (v: seq<byte>)
    ensures |v| == 4
  {
    [ (a & 0xfc) >> 2, ((a & 0x03) << 4) | ((b & 0xf0) >> 4), ((b & 0x0f) << 2) | ((c & 0xc0) >> 6), c & 0x3f ]
  }

  lemma Expand0(a: byte, b: byte, c: byte)
    ensures (a & 0xfc) >> 2 == Sextet(Group(a, b, c), 0)
  {
  }

  lemma Expand1(a: byte, b: byte, c: byte)
    ensures ((a & 0x03) << 4) | ((b & 0xf0) >> 4) == Sextet(Group(a, b, c), 1)
  {
  }

  lemma Expand2(a: byte, b: byte, c: byte)
    ensures ((b & 0x0f) << 2) | ((c & 0xc0) >> 6) == Sextet(Group(a, b, c), 2)
  {
  }

  lemma Expand3(a: byte, b: byte, c: byte)
    ensures c & 0x3f == Sextet(Group(a, b, c), 3)
  {
  }

  lemma ExpandIs(a: byte, b: byte, c: byte)
    ensures var g := Group(a, b, c);
            Expand(a, b, c) == [Sextet(g, 0), Sextet(g, 1), Sextet(g, 2), Sextet(g, 3)]
  {
    Expand0(a, b, c);
    Expand1(a, b, c);
    Expand2(a, b, c);
    Expand3(a, b, c);
    hide Sextet, Group;
  }

  /** Compact 4 values into 3 bytes. */
  function Compact(w: byte, x: byte, y: byte, z: byte): (v: seq<byte>)
    ensures |v| == 3
  {
    [ (w << 2) | ((x & 0x30) >> 4), ((x & 0x0f) << 4) | ((y & 0x3c) >> 2), ((y & 0x03) << 6) | z ]
  }

  lemma Compact0(w: byte, x: byte, y: byte, z: byte)
    requires w < 64 && x < 64 && y < 64 && z < 64
    ensures (w << 2) | ((x & 0x30) >> 4) == Octet(GroupOfSextets(w, x, y, z), 0)
  {
  }

  lemma Compact1(w: byte, x: byte, y: byte, z: byte)
    requires w < 64 && x < 64 && y < 64 && z < 64
    ensures ((x & 0x0f) << 4) | ((y & 0x3c) >> 2) == Octet(GroupOfSextets(w, x, y, z), 1)
  {
  }

  lemma Compact2(w: byte, x: byte, y: byte, z: byte)
    requires w < 64 && x < 64 && y < 64 && z < 64
    ensures ((y & 0x03) << 6) | z == Octet(GroupOfSextets(w, x, y, z), 2)
  {
  }

  lemma CompactIs(w: byte, x: byte, y: byte, z: byte)
    requires w < 64 && x < 64 && y < 64 && z < 64
    ensures var g := GroupOfSextets(w, x, y, z); Compact(w, x, y, z) == [Octet(g, 0), Octet(g, 1), Octet(g, 2)]
  {
    Compact0(w, x, y, z);
    Compact1(w, x, y, z);
    Compact2(w, x, y, z);
    hide Octet, GroupOfSextets;
  }

  // ----- Encoding -----

  /** Convert the first n values of a group to characters, behind the first `at` in the build buffer. */
  method PutChars(a: byte, b: byte, c: byte, build: array<char>, at: nat, n: nat)
    requires n <= 4 && at + n <= build.Length
    modifies build
    ensures build[..at + n] == old(build[..at]) + Chars(Group(a, b, c))[..n]
  {
    hide ToBase64, Char, Sextet, Group, Expand;
    var values := Expand(a, b, c);
    ExpandIs(a, b, c);
    var chars := Chars(Group(a, b, c));
    var i := 0;
    while i < n
      invariant i <= n
      invariant build[..at + i] == old(build[..at]) + chars[..i]
    {
      ToBase64Is(values[i]);
      build[at + i] := ToBase64(values[i] as int);
      assert build[..at + i + 1] == build[..at + i] + [chars[i]];
      i := i + 1;
    }
  }

  /** Process the remaining entries: clear the last one or two bytes, convert, and pad. */
  method EncodeRest(pending: array<byte>, n: nat, build: array<char>, at: nat) returns (end: nat)
    requires pending.Length == 3 && 0 < n < 3 && at + 4 <= build.Length
    modifies pending, build
    ensures end == at + 4 && build[..end] == old(build[..at]) + EncodeLast(old(pending[..n]))
  {
    hide Chars, Group;
    ghost var last, before := pending[..n], build[..at];
    var i := n;
    while i < 3
      invariant n <= i <= 3
      invariant pending[..n] == last
      invariant forall j | n <= j < i :: pending[j] == 0
      modifies pending
    {
      pending[i] := 0;
      i := i + 1;
    }
    assert pending[0] == last[0] && (n == 2 ==> pending[1] == last[1]);
    PutChars(pending[0], pending[1], pending[2], build, at, n + 1);
    end := at + n + 1;
    ghost var chars := build[..end];
    assert pending[2] == 0 && (n == 1 ==> pending[1] == 0);
    assert chars == before + Chars(Group(last[0], if n == 2 then last[1] else 0, 0))[..n + 1];
    i := n + 1;
    while i < 4
      invariant n + 1 <= i <= 4 && end == at + i
      invariant build[..end] == chars + Equals(i - n - 1)
    {
      build[end] := '=';
      end := end + 1;
      i := i + 1;
    }
    assert EncodeLast(last) == Chars(Group(last[0], if n == 2 then last[1] else 0, 0))[..n + 1] + Equals(3 - n);
  }

  function Equals(n: nat): (s: string)
    ensures |s| == n
  {
    seq(n, _ => '=')
  }

  /** The characters of whole build buffers: a buffer is emitted when it holds 511 groups of three bytes. */
  const GROUPS_PER_FLUSH: nat := 511

  /** The state of the loop: k groups have been converted, the last of them are still in the build buffer. */
  ghost predicate Encoding(source: seq<byte>, k: nat, result: string, built: string, allocCount: nat)
    requires 3 * k <= |source|
  {
    && 1 <= allocCount
    && |result| == 2044 * (allocCount - 1)
    && |built| == 4 * (k - GROUPS_PER_FLUSH * (allocCount - 1))
    && result + built == EncodeGroups(source, k)
  }

  /** A full buffer is moved to the result and begun anew. */
  method Flush(ghost source: seq<byte>, ghost k: nat, result: string, build: array<char>, buildIdx: nat, allocCount: nat)
    returns (result': string, buildIdx': nat, allocCount': nat)
    requires build.Length == BUFFER_SIZE && buildIdx <= BUFFER_SIZE - 4 && 3 * k <= |source|
    requires Encoding(source, k, result, build[..buildIdx], allocCount)
    ensures buildIdx' < BUFFER_SIZE - 6
    ensures Encoding(source, k, result', build[..buildIdx'], allocCount')
  {
    hide EncodeGroups;
    result', buildIdx', allocCount' := result, buildIdx, allocCount;
    if buildIdx >= BUFFER_SIZE - 6 {
      assert |result| + buildIdx + 1 <= allocCount * BUFFER_SIZE;
      result' := result + build[..buildIdx];
      allocCount' := allocCount + 1;
      buildIdx' := 0;
      assert result' + build[..0] == result';
    }
  }

  method EncodeBase64(source: seq<byte>) returns (toReturn: string)
    ensures |source| % 3 != 0 ==> toReturn == Encode(source)
    ensures |source| % 3 == 0 ==> toReturn == Encode(source[..1533 * (|source| / 1533)])
  {
    hide Encode, EncodeGroups, EncodeLast, Chars, Group;
    var pending := new byte[3];
    var a3Idx := 0;
    var build := new char[BUFFER_SIZE];
    var buildIdx: nat := 0;
    var result := "";
    var allocCount: nat := 1;
    var ch := 0;
    ghost var k := 0;
    NoGroups(source);
    while ch < |source|
      invariant ch == 3 * k + a3Idx <= |source| && a3Idx < 3
      invariant pending[..a3Idx] == source[3 * k..ch]
      invariant buildIdx < BUFFER_SIZE - 6 && Encoding(source, k, result, build[..buildIdx], allocCount)
    {
      pending[a3Idx] := source[ch];
      a3Idx := a3Idx + 1;
      ch := ch + 1;
      assert pending[..a3Idx] == source[3 * k..ch];
      if a3Idx == 3 {
        FitsGroup(source, k, result, build[..buildIdx], allocCount);
        PutGroup(pending, source[3 * k..ch], build, buildIdx);
        buildIdx := buildIdx + 4;
        k := k + 1;
        result, buildIdx, allocCount := Flush(source, k, result, build, buildIdx, allocCount);
        a3Idx := 0;
      }
    }
    if a3Idx > 0 {
      EncodeIs(source, k);
      assert pending[..a3Idx] == source[3 * k..];
      buildIdx := EncodeRest(pending, a3Idx, build, buildIdx);
      assert |result| + buildIdx + 1 <= allocCount * BUFFER_SIZE;
      result := result + build[..buildIdx];
    } else {
      OnlyFlushed(source, k, result, build[..buildIdx], allocCount);
    }
    toReturn := result;
  }

  lemma FitsGroup(source: seq<byte>, k: nat, result: string, built: string, allocCount: nat)
    requires 3 * k + 3 <= |source| && |built| < BUFFER_SIZE - 6 && Encoding(source, k, result, built, allocCount)
    ensures |built| + 4 <= BUFFER_SIZE - 4
    ensures Encoding(source, k + 1, result, built + Chars(Group(source[3 * k], source[3 * k + 1], source[3 * k + 2])), allocCount)
  {
    OneMoreGroup(source, k);
    hide EncodeGroups, Chars, Group;
  }

  /** Without a remainder, what is in the build buffer at the end is lost. */
  lemma OnlyFlushed(source: seq<byte>, k: nat, result: string, built: string, allocCount: nat)
    requires |source| == 3 * k && |built| < BUFFER_SIZE - 6 && Encoding(source, k, result, built, allocCount)
    ensures result == Encode(source[..1533 * (|source| / 1533)])
  {
    var f := allocCount - 1;
    Flushes(|source|, k, f);
    WholeGroups(source, f);
    GroupsGrow(source, GROUPS_PER_FLUSH * f, k);
    assert result == EncodeGroups(source, k)[..4 * (GROUPS_PER_FLUSH * f)];
    hide Encode, EncodeGroups;
  }

  lemma {:induction false} GroupsGrow(source: seq<byte>, j: nat, k: nat)
    requires j <= k && 3 * k <= |source|
    ensures EncodeGroups(source, k)[..4 * j] == EncodeGroups(source, j)
  {
    hide Chars, Group;
    if j < k { GroupsGrow(source, j, k - 1); }
  }

  method PutGroup(pending: array<byte>, ghost group: seq<byte>, build: array<char>, at: nat)
    requires pending.Length == 3 && pending[..3] == group && at + 4 <= build.Length
    modifies build
    ensures build[..at + 4] == old(build[..at]) + Chars(Group(group[0], group[1], group[2]))
  {
    hide Chars, Group;
    PutChars(pending[0], pending[1], pending[2], build, at, 4);
  }

  lemma {:induction false} GroupsOfPrefix(source: seq<byte>, n: nat, k: nat)
    requires 3 * k <= n <= |source|
    ensures EncodeGroups(source, k) == EncodeGroups(source[..n], k)
  {
    hide Chars, Group;
    if 0 < k { GroupsOfPrefix(source, n, k - 1); }
  }

  /** Whole groups have no padding. */
  lemma WholeGroups(source: seq<byte>, flushes: nat)
    requires 1533 * flushes <= |source|
    ensures EncodeGroups(source, GROUPS_PER_FLUSH * flushes) == Encode(source[..1533 * flushes])
  {
    var s, k := source[..1533 * flushes], GROUPS_PER_FLUSH * flushes;
    assert |s| == 3 * k && |s| / 3 == k && s[3 * k..] == [];
    assert EncodeLast([]) == "";
    hide EncodeGroups, Encode, EncodeLast;
    GroupsOfPrefix(source, |s|, k);
    EncodeIs(s, k);
  }

  lemma Flushes(n: nat, k: nat, f: nat)
    requires n == 3 * k && 0 <= k - GROUPS_PER_FLUSH * f < GROUPS_PER_FLUSH
    ensures f == n / 1533
  {
  }

  lemma EncodeIs(source: seq<byte>, k: nat)
    requires k == |source| / 3
    ensures Encode(source) == EncodeGroups(source, k) + EncodeLast(source[3 * k..])
  {
    hide EncodeGroups, EncodeLast;
  }

  lemma NoGroups(source: seq<byte>)
    ensures EncodeGroups(source, 0) == ""
  {
  }

  lemma OneMoreGroup(source: seq<byte>, k: nat)
    requires 3 * k + 3 <= |source|
    ensures EncodeGroups(source, k + 1) ==
            EncodeGroups(source, k) + Chars(Group(source[3 * k], source[3 * k + 1], source[3 * k + 2]))
  {
  }

  // ----- Decoding -----

  /** The 2043 bytes of a full build buffer come from 681 groups of four characters. */
  const GROUPS_PER_BLOCK: nat := 681

  /** The groups that have been converted are in the result up to blockBegin, and then in the build buffer. */
  ghost predicate Decoding(p: string, k: nat, stored: seq<byte>, built: seq<byte>, allocCount: nat)
    requires AllBase64(p) && 4 * k <= |p|
  {
    && 1 <= allocCount
    && |stored| == 2043 * (allocCount - 1)
    && |built| == 3 * (k - GROUPS_PER_BLOCK * (allocCount - 1))
    && stored + built == DecodeGroups(p, k)
  }

  /** Replace the first n character codes by their values, and the others by zero. */
  method Convert(four: array<int>, n: nat, ghost chars: string)
    requires four.Length == 4 && n <= 4 && |chars| == n && AllBase64(chars)
    requires forall j | 0 <= j < n :: four[j] == chars[j] as int
    modifies four
    ensures forall j | 0 <= j < 4 :: four[j] == if j < n then Index(chars[j]) else 0
  {
    hide FromBase64, Index, IsBase64;
    var i := 0;
    while i < n
      invariant i <= n
      invariant forall j | 0 <= j < n :: four[j] == if j < i then Index(chars[j]) else chars[j] as int
    {
      FromBase64Is(chars[i]);
      four[i] := FromBase64(four[i] - 43);
      i := i + 1;
    }
    while i < 4
      invariant n <= i <= 4
      invariant forall j | 0 <= j < i :: four[j] == if j < n then Index(chars[j]) else 0
    {
      four[i] := 0;
      i := i + 1;
    }
  }

  /** The character for a missing value is A. */
  function Padded(chars: string): (p: string)
    requires |chars| <= 4
    ensures |p| == 4
  {
    chars + ['A', 'A', 'A', 'A'][|chars|..]
  }

  lemma PaddedValues(chars: string)
    requires |chars| <= 4 && AllBase64(chars)
    ensures AllBase64(Padded(chars))
    ensures forall j | 0 <= j < 4 :: Index(Padded(chars)[j]) == if j < |chars| then Index(chars[j]) else 0
  {
  }

  lemma CompactValues(w: char, x: char, y: char, z: char)
    requires IsBase64(w) && IsBase64(x) && IsBase64(y) && IsBase64(z)
    ensures Compact(Index(w) as byte, Index(x) as byte, Index(y) as byte, Index(z) as byte) == Bytes(w, x, y, z)
  {
    CompactIs(Value(w), Value(x), Value(y), Value(z));
    hide Compact, Octet, GroupOfSextets, Index, IsBase64;
  }

  method CompactGroup(four: array<int>, n: nat, ghost chars: string) returns (three: seq<byte>)
    requires four.Length == 4 && n <= 4 && |chars| == n && AllBase64(chars)
    requires forall j | 0 <= j < n :: four[j] == chars[j] as int
    modifies four
    ensures var p := Padded(chars); AllBase64(p) && three == Bytes(p[0], p[1], p[2], p[3])
  {
    hide Compact, Bytes, Index, IsBase64, Padded;
    Convert(four, n, chars);
    PaddedValues(chars);
    ghost var p := Padded(chars);
    CompactValues(p[0], p[1], p[2], p[3]);
    assert four[0] == Index(p[0]) && four[1] == Index(p[1]) && four[2] == Index(p[2]) && four[3] == Index(p[3]);
    three := Compact(four[0] as byte, four[1] as byte, four[2] as byte, four[3] as byte);
  }

  method PutBytes(three: seq<byte>, build: array<byte>, at: nat, take: nat)
    requires take <= |three| && at + take <= build.Length
    modifies build
    ensures build[..at + take] == old(build[..at]) + three[..take]
  {
    var i := 0;
    while i < take
      invariant i <= take
      invariant build[..at + i] == old(build[..at]) + three[..i]
    {
      build[at + i] := three[i];
      assert build[..at + i + 1] == build[..at + i] + [three[i]];
      i := i + 1;
    }
  }

  /** A full buffer is copied into the result, which grows by one block. */
  method Store(ghost p: string, ghost k: nat, result: array<byte>, build: array<byte>,
               blockBegin: nat, buildIdx: nat, allocCount: nat)
    returns (result': array<byte>, blockBegin': nat, buildIdx': nat, allocCount': nat)
    requires build.Length == BUFFER_SIZE && buildIdx <= BUFFER_SIZE - 3 && AllBase64(p) && 4 * k <= |p|
    requires result != build && result.Length == allocCount * BUFFER_SIZE && blockBegin <= result.Length
    requires Decoding(p, k, result[..blockBegin], build[..buildIdx], allocCount)
    modifies result
    ensures result' == result || fresh(result')
    ensures result'.Length == allocCount' * BUFFER_SIZE && blockBegin' <= result'.Length && buildIdx' < BUFFER_SIZE - 5
    ensures Decoding(p, k, result'[..blockBegin'], build[..buildIdx'], allocCount')
    ensures blockBegin' + buildIdx' == blockBegin + buildIdx
  {
    hide DecodeGroups;
    result', blockBegin', buildIdx', allocCount' := result, blockBegin, buildIdx, allocCount;
    if buildIdx >= BUFFER_SIZE - 5 {
      CopyTo(result, blockBegin, build, buildIdx);
      result' := Extended(result);
      allocCount' := allocCount + 1;
      blockBegin' := blockBegin + buildIdx;
      buildIdx' := 0;
      assert result'[..blockBegin'] == result[..blockBegin'];
      assert result'[..blockBegin'] + build[..0] == result'[..blockBegin'];
    }
  }

  /** memcpy of the first n bytes of a buffer to an offset of another. */
  method CopyTo(dest: array<byte>, at: nat, src: array<byte>, n: nat)
    requires dest != src && at + n <= dest.Length && n <= src.Length
    modifies dest
    ensures dest[..at + n] == old(dest[..at]) + src[..n]
  {
    var i := 0;
    while i < n
      invariant i <= n
      invariant dest[..at + i] == old(dest[..at]) + src[..i]
    {
      dest[at + i] := src[i];
      assert dest[..at + i + 1] == dest[..at + i] + [src[i]];
      i := i + 1;
    }
  }

  /** realloc to one more block; the new bytes are not initialised. */
  method Extended(a: array<byte>) returns (b: array<byte>)
    ensures fresh(b) && b.Length == a.Length + BUFFER_SIZE && b[..a.Length] == a[..]
  {
    b := new byte[a.Length + BUFFER_SIZE];
    CopyTo(b, 0, a, a.Length);
  }

  /**
   The length is always that of the decoded characters before the first one
   that is not in the alphabet.  When they end with an incomplete group, so are
   the bytes; otherwise the bytes are, as far as whole blocks were stored, and
   the rest of the returned memory is not initialised.
   */
  method DecodeBase64(source: string) returns (toReturn: seq<byte>, length: nat)
    ensures |toReturn| == length == |Decode(source)|
    ensures |Prefix(source)| % 4 != 0 ==> toReturn == Decode(source)
    ensures |Prefix(source)| % 4 == 0 ==>
              toReturn[..2043 * (length / 2043)] == Decode(source)[..2043 * (length / 2043)]
  {
    hide Decode, DecodeGroups, DecodeLast, Decoding, Bytes, Padded, IsBase64, Prefix;
    var four := new int[4];
    var a4Idx: nat := 0;
    var build := new byte[BUFFER_SIZE];
    var buildIdx: nat := 0;
    var result := new byte[BUFFER_SIZE];
    var allocCount: nat, blockBegin: nat := 1, 0;
    var sourceIdx := 0;
    ghost var k: nat := 0;
    StartDecoding(result[..0], build[..0]);
    while sourceIdx < |source| && source[sourceIdx] != '=' && IsBase64(source[sourceIdx])
      invariant sourceIdx == 4 * k + a4Idx <= |source| && a4Idx < 4 && AllBase64(source[..sourceIdx])
      invariant forall j | 0 <= j < a4Idx :: four[j] == source[4 * k + j] as int
      invariant fresh(result) && result != build && result.Length == allocCount * BUFFER_SIZE && blockBegin <= result.Length
      invariant buildIdx < BUFFER_SIZE - 5
      invariant Decoding(source[..sourceIdx], k, result[..blockBegin], build[..buildIdx], allocCount)
    {
      four[a4Idx] := source[sourceIdx] as int;
      a4Idx := a4Idx + 1;
      sourceIdx := sourceIdx + 1;
      DecodingGoesOn(source, sourceIdx, k, result[..blockBegin], build[..buildIdx], allocCount);
      if a4Idx == 4 {
        ghost var stored, built := result[..blockBegin], build[..buildIdx];
        ghost var p := source[..sourceIdx];
        var three := CompactGroup(four, 4, p[4 * k..]);
        OneMoreBytes(p, k, stored, built, allocCount);
        PutBytes(three, build, buildIdx, 3);
        buildIdx := buildIdx + 3;
        k := k + 1;
        assert three[..3] == three && result[..blockBegin] == stored && build[..buildIdx] == built + three;
        result, blockBegin, buildIdx, allocCount := Store(p, k, result, build, blockBegin, buildIdx, allocCount);
        a4Idx := 0;
      }
    }
    ghost var p := source[..sourceIdx];
    PrefixEnds(source, sourceIdx);
    DecodeIs(source, p, k);
    toReturn := DecodeRest(four, a4Idx, result, blockBegin, build, buildIdx, p, k, allocCount);
    length := |toReturn|;
  }

  /** Process the remaining characters, and copy the decoded bytes out of the result. */
  method DecodeRest(four: array<int>, n: nat, result: array<byte>, blockBegin: nat, build: array<byte>, buildIdx: nat,
                    ghost p: string, ghost k: nat, ghost allocCount: nat)
    returns (decoded: seq<byte>)
    requires four.Length == 4 && n < 4 && four as object != build as object && four as object != result as object
    requires AllBase64(p) && |p| == 4 * k + n && forall j | 0 <= j < n :: four[j] == p[4 * k + j] as int
    requires result != build && buildIdx < BUFFER_SIZE - 5 && build.Length == BUFFER_SIZE
    requires result.Length == allocCount * BUFFER_SIZE && blockBegin <= result.Length
    requires Decoding(p, k, result[..blockBegin], build[..buildIdx], allocCount)
    modifies four, build, result
    ensures var d := DecodeGroups(p, k) + DecodeLast(p[4 * k..]);
            && |decoded| == |d|
            && (n != 0 ==> decoded == d)
            && (n == 0 ==> decoded[..2043 * (|d| / 2043)] == d[..2043 * (|d| / 2043)])
  {
    hide DecodeGroups, DecodeLast, Bytes, IsBase64;
    ghost var stored, built := result[..blockBegin], build[..buildIdx];
    if n != 0 {
      var three := CompactGroup(four, n, p[4 * k..]);
      IncompleteEnd(p, k, n, stored, built, allocCount, three);
      PutBytes(three, build, buildIdx, n - 1);
      CopyTo(result, blockBegin, build, buildIdx + n - 1);
      decoded := result[..blockBegin + buildIdx + n - 1];
      assert decoded == stored + (built + three[..n - 1]);
    } else {
      CompleteEnd(p, k, stored, built, allocCount);
      decoded := result[..blockBegin + buildIdx];
      assert decoded[..blockBegin] == stored;
    }
  }

  lemma IncompleteEnd(p: string, k: nat, n: nat, stored: seq<byte>, built: seq<byte>, allocCount: nat, three: seq<byte>)
    requires AllBase64(p) && |p| == 4 * k + n && 0 < n < 4 && Decoding(p, k, stored, built, allocCount)
    requires var q := Padded(p[4 * k..]); AllBase64(q) && three == Bytes(q[0], q[1], q[2], q[3])
    ensures |DecodeLast(p[4 * k..])| == n - 1 && |p| % 4 != 0
    ensures DecodeGroups(p, k) + DecodeLast(p[4 * k..]) == stored + (built + three[..n - 1])
  {
    hide Bytes, IsBase64, DecodeGroups;
    assert DecodeLast(p[4 * k..]) == three[..n - 1];
  }

  lemma CompleteEnd(p: string, k: nat, stored: seq<byte>, built: seq<byte>, allocCount: nat)
    requires AllBase64(p) && |p| == 4 * k && |built| < 2043 && Decoding(p, k, stored, built, allocCount)
    ensures DecodeGroups(p, k) + DecodeLast(p[4 * k..]) == stored + built
    ensures 2043 * (|stored + built| / 2043) == |stored|
  {
    hide IsBase64, DecodeGroups;
  }

  lemma StartDecoding(stored: seq<byte>, built: seq<byte>)
    requires stored == [] && built == []
    ensures Decoding("", 0, stored, built, 1)
  {
  }

  lemma DecodingGoesOn(source: string, n: nat, k: nat, stored: seq<byte>, built: seq<byte>, allocCount: nat)
    requires 0 < n <= |source| && 4 * k < n && AllBase64(source[..n - 1]) && IsBase64(source[n - 1])
    requires Decoding(source[..n - 1], k, stored, built, allocCount)
    ensures AllBase64(source[..n]) && Decoding(source[..n], k, stored, built, allocCount)
  {
    hide IsBase64;
    DecodeGroupsOfPrefix(source[..n - 1], source[..n], k);
    hide DecodeGroups;
  }

  lemma OneMoreBytes(p: string, k: nat, stored: seq<byte>, built: seq<byte>, allocCount: nat)
    requires AllBase64(p) && |p| == 4 * k + 4 && Decoding(p, k, stored, built, allocCount)
    ensures Padded(p[4 * k..]) == p[4 * k..]
    ensures var q := p[4 * k..];
            Decoding(p, k + 1, stored, built + Bytes(q[0], q[1], q[2], q[3]), allocCount)
  {
    hide Bytes, IsBase64;
    assert DecodeGroups(p, k + 1) == DecodeGroups(p, k) + Bytes(p[4 * k], p[4 * k + 1], p[4 * k + 2], p[4 * k + 3]);
    hide DecodeGroups;
  }

  lemma PrefixEnds(source: string, n: nat)
    requires n <= |source| && AllBase64(source[..n])
    requires n < |source| ==> source[n] == '=' || !IsBase64(source[n])
    ensures Prefix(source) == source[..n]
  {
    ZeroChar();
    hide IsBase64;
    PrefixIs(source[..n], source[n..]);
    assert source[..n] + source[n..] == source;
  }

  lemma DecodeIs(source: string, p: string, k: nat)
    requires p == Prefix(source) && AllBase64(p) && k == |p| / 4
    ensures Decode(source) == DecodeGroups(p, k) + DecodeLast(p[4 * k..])
  {
    hide DecodeGroups, DecodeLast;
  }

  // ----- Round trip -----

  /**
   What the two functions give back together: every byte string whose length is
   not a multiple of three; of the others, what the whole build buffers hold.
   */
  method EncodeAndDecode(source: seq<byte>) returns (decoded: seq<byte>, length: nat)
    ensures |decoded| == length
    ensures |source| % 3 != 0 ==> decoded == source
    ensures |source| % 3 == 0 ==>
              && length == 1533 * (|source| / 1533)
              && decoded[..2043 * (length / 2043)] == source[..2043 * (length / 2043)]
    ensures length == |source| <==> |source| % 3 != 0 || |source| % 1533 == 0
  {
    hide Encode, Decode, Prefix;
    var encoded := EncodeBase64(source);
    decoded, length := DecodeBase64(encoded);
    if |source| % 3 != 0 {
      RoundTrip(source);
    } else {
      RoundTrip(source[..1533 * (|source| / 1533)]);
      assert decoded[..2043 * (length / 2043)] == source[..1533 * (|source| / 1533)][..2043 * (length / 2043)];
    }
  }
}
