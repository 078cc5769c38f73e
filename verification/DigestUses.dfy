/** Digests of buffers, of streams and of keyed messages: DigestBuffer, DigestStream and HMAC of src/digest.c. */
module DigestUses {
  import opened Words
  import opened DigestSpec
  import opened Digest
  import Base64Spec
  import Base64

  datatype Encoding = Hex | Base64Text | Binary

  datatype Encoded = Text(text: string) | Bytes(bytes: seq<byte>)

  // ----- Encodings of a digest -----

  function HexDigit(n: nat): char
    requires n < 16
  {
    if n < 10 then '0' + n as char else 'a' + (n - 10) as char
  }

  /** Two lower-case hexadecimal digits for each byte. */
  function HexText(b: seq<byte>): (s: string)
    ensures |s| == 2 * |b|
  {
    if b == [] then ""
    else
      var n := b[|b| - 1] as nat;
      HexText(b[..|b| - 1]) + [HexDigit(n / 16), HexDigit(n % 16)]
  }

  /** The digits that stand for the byte at position i. */
  lemma {:induction false} HexTextAt(b: seq<byte>, i: nat)
    requires i < |b|
    ensures HexText(b)[2 * i] == "0123456789abcdef"[b[i] as int / 16]
    ensures HexText(b)[2 * i + 1] == "0123456789abcdef"[b[i] as int % 16]
  {
    DigitIs(b[i] as int / 16);
    DigitIs(b[i] as int % 16);
    hide HexDigit;
    if i < |b| - 1 { HexTextAt(b[..|b| - 1], i); }
  }

  lemma DigitIs(n: nat)
    requires n < 16
    ensures HexDigit(n) == "0123456789abcdef"[n]
  {
  }

  function EncodedDigest(d: seq<byte>, e: Encoding): Encoded {
    match e
    case Hex => Text(HexText(d))
    case Base64Text => Text(Base64Spec.Encode(d))
    case Binary => Bytes(d)
  }

  method BinDigestToHexDigest(binary: seq<byte>) returns (digest: string)
    ensures digest == HexText(binary)
  {
    digest := "";
    var i := 0;
    while i < |binary|
      invariant i <= |binary| && digest == HexText(binary[..i])
    {
      var n := binary[i] as nat;
      digest := digest + [HexDigit(n / 16), HexDigit(n % 16)];
      assert binary[..i + 1][..i] == binary[..i];
      i := i + 1;
    }
    assert binary[..i] == binary;
  }

  method EncodeDigest(resblock: seq<byte>, encoding: Encoding) returns (digest: Encoded)
    requires |resblock| == 16 || |resblock| == 20
    ensures digest == EncodedDigest(resblock, encoding)
  {
    hide Base64Spec.Encode, HexText;
    match encoding
    case Hex =>
      var text := BinDigestToHexDigest(resblock);
      digest := Text(text);
    case Base64Text =>
      var text := Base64.EncodeBase64(resblock);
      digest := Text(text);
    case Binary =>
      digest := Bytes(resblock);
  }

  /** The state is between calls of the functions for this digest. */
  ghost predicate Ready(state: DigestState, h: HashFunction)
    reads state, state.buffer
  {
    if h.MD5? then state.Md5State() else state.Sha1State()
  }

  method Start(h: HashFunction) returns (state: DigestState)
    ensures fresh(state) && fresh(state.buffer) && Ready(state, h) && state.buflen == 0 && state.message == []
  {
    state := new DigestState();
  }

  /** The end of both digests, for a state that has taken the whole message. */
  method Finish(state: DigestState, h: HashFunction) returns (resblock: seq<byte>)
    requires Ready(state, h)
    modifies state, state.buffer
    ensures h.MD5? || 8 * |old(state.message)| < TWO64 ==> resblock == Hash(h, old(state.message))
    ensures |resblock| == if h.MD5? then 16 else 20
  {
    hide Hash, Output;
    if h.MD5? {
      resblock := state.MD5FlushState();
    } else {
      var ok := state.SHA1Result();
      resblock := Output(SHA1, state.regs);
    }
  }

  method Take(state: DigestState, h: HashFunction, data: seq<byte>)
    requires Ready(state, h) && |data| < TWO32
    modifies state, state.buffer
    ensures Ready(state, h) && state.message == old(state.message) + data
  {
    if h.MD5? { state.MD5ProcessContinuous(data); } else { state.SHA1Input(data); }
  }

  // ----- Buffers -----

  method DigestBuffer(buffer: seq<byte>, h: HashFunction, encoding: Encoding) returns (digest: Encoded)
    requires |buffer| < TWO32
    ensures digest == EncodedDigest(Hash(h, buffer), encoding)
  {
    hide Ready, Hash, EncodedDigest;
    var state := Start(h);
    Take(state, h, buffer);
    assert state.message == buffer;
    var resblock := Finish(state, h);
    digest := EncodeDigest(resblock, encoding);
  }

  function Concat(pieces: seq<seq<byte>>): seq<byte> {
    if pieces == [] then [] else Concat(pieces[..|pieces| - 1]) + pieces[|pieces| - 1]
  }

  /** However a message is cut into pieces, the incremental calls give the digest of the whole message. */
  method DigestPieces(pieces: seq<seq<byte>>, h: HashFunction) returns (digest: seq<byte>)
    requires forall i | 0 <= i < |pieces| :: |pieces[i]| < TWO32
    ensures h.MD5? || 8 * |Concat(pieces)| < TWO64 ==> digest == Hash(h, Concat(pieces))
  {
    hide Ready, Hash;
    var state := Start(h);
    var i := 0;
    while i < |pieces|
      invariant i <= |pieces| && fresh(state) && fresh(state.buffer)
      invariant Ready(state, h)
      invariant state.message == Concat(pieces[..i])
    {
      Take(state, h, pieces[i]);
      assert pieces[..i + 1][..i] == pieces[..i];
      i := i + 1;
    }
    assert pieces[..i] == pieces;
    digest := Finish(state, h);
  }

  // ----- Streams -----

  /** A file that is read from its start.  Reads may be short and may fail. */
  class Stream {
    const data: seq<byte>
    var pos: nat
    var failed: bool

    ghost predicate Valid()
      reads this
    {
      pos <= |data|
    }

    constructor (content: seq<byte>)
      ensures Valid() && data == content && pos == 0 && !failed
    {
      data, pos, failed := content, 0, false;
    }

    /** fread: nothing is read only at the end of the file or after an error. */
    method Read(size: nat) returns (bytes: seq<byte>)
      requires Valid() && 0 < size
      modifies this
      ensures Valid() && old(pos) <= pos && bytes == data[old(pos)..pos] && |bytes| <= size
      ensures bytes == [] ==> pos == |data| || failed
    {
      var n: nat := 0;
      if pos < |data| && !failed {
        n :| 0 < n <= size && pos + n <= |data|;
        if * {
          n, failed := 0, true;
        }
      }
      bytes := data[pos..pos + n];
      pos := pos + n;
    }
  }

  const BLOCKSIZE: nat := 4096

  /** Read a block, taking care of partial reads; last is what the last read returned. */
  method ReadBlock(stream: Stream) returns (block: seq<byte>, last: seq<byte>)
    requires stream.Valid()
    modifies stream
    ensures stream.Valid() && old(stream.pos) <= stream.pos && block == stream.data[old(stream.pos)..stream.pos]
    ensures |block| <= BLOCKSIZE
    ensures last != [] ==> |block| == BLOCKSIZE
    ensures last == [] ==> stream.pos == |stream.data| || stream.failed
  {
    ghost var start := stream.pos;
    block := [];
    var again := true;
    last := [];
    while again
      invariant stream.Valid() && start <= stream.pos && block == stream.data[start..stream.pos]
      invariant |block| <= BLOCKSIZE && (again ==> |block| < BLOCKSIZE)
      invariant !again ==> (last != [] ==> |block| == BLOCKSIZE)
      invariant !again ==> (last == [] ==> stream.pos == |stream.data| || stream.failed)
      decreases |stream.data| - stream.pos, again
    {
      last := stream.Read(BLOCKSIZE - |block|);
      block := block + last;
      again := |block| < BLOCKSIZE && last != [];
    }
  }

  /** Process a full block: MD5 without the staging buffer, SHA-1 as any other input. */
  method TakeBlock(state: DigestState, h: HashFunction, block: seq<byte>)
    requires Ready(state, h) && (h.MD5? ==> state.buflen == 0)
    requires |block| == BLOCKSIZE
    modifies state, state.buffer
    ensures Ready(state, h) && (h.MD5? ==> state.buflen == 0)
    ensures state.message == old(state.message) + block
  {
    if h.MD5? {
      BlockIsWhole(block);
      TakeWholeBlocks(state, block);
    } else {
      state.SHA1Input(block);
    }
  }

  method TakeWholeBlocks(state: DigestState, block: seq<byte>)
    requires state.Md5State() && state.buflen == 0 && IsWhole(|block|) && |block| < TWO32
    modifies state, state.buffer
    ensures state.Md5State() && state.buflen == 0 && state.message == old(state.message) + block
  {
    hide DigestState.Folded, DigestState.Counts, IsWhole;
    assert state.message == state.done by { assert state.buffer[..0] == []; }
    state.MD5ProcessBlock(block, |state.done|);
    state.message := state.message + block;
    assert state.buffer[..0] == [];
  }

  lemma BlockIsWhole(block: seq<byte>)
    requires |block| == BLOCKSIZE
    ensures IsWhole(|block|)
  {
  }

  /** Whatever the reads return, the digest of a stream is that of its content, unless a read fails. */
  method DigestStream(stream: Stream, h: HashFunction, encoding: Encoding) returns (status: int, digest: Encoded)
    requires stream.Valid() && stream.pos == 0
    modifies stream
    ensures status == 0 || (status == 1 && stream.failed)
    ensures status == 0 && (h.MD5? || 8 * |stream.data| < TWO64) ==>
              digest == EncodedDigest(Hash(h, stream.data), encoding)
  {
    hide Ready, Hash, EncodedDigest;
    digest := Bytes([]);
    var state := Start(h);
    var block, last := [], [];
    while true
      invariant stream.Valid() && fresh(state) && fresh(state.buffer)
      invariant Ready(state, h) && (h.MD5? ==> state.buflen == 0)
      invariant state.message == stream.data[..stream.pos]
      decreases |stream.data| - stream.pos
    {
      block, last := ReadBlock(stream);
      if last == [] && stream.failed {
        return 1, digest;
      }
      if last == [] {
        break;
      }
      TakeBlock(state, h, block);
    }
    if |block| > 0 {
      Take(state, h, block);
    }
    assert state.message == stream.data;
    var resblock := Finish(state, h);
    digest := EncodeDigest(resblock, encoding);
    status := 0;
  }

  // ----- HMAC -----

  /** strncpy to a buffer of 64 bytes: the key, and zeros. */
  method CopyKey(key: seq<byte>, workKey: array<byte>)
    requires |key| < 64 == workKey.Length
    modifies workKey
    ensures workKey[..] == key + Zeros(64 - |key|)
  {
    for i := 0 to 64
      invariant forall j | 0 <= j < i :: workKey[j] == if j < |key| then key[j] else 0
    {
      workKey[i] := if i < |key| then key[i] else 0;
    }
  }

  method Strlen(s: array<byte>) returns (n: nat)
    requires 0 in s[..]
    ensures n < s.Length && s[n] == 0 && forall i | 0 <= i < n :: s[i] != 0
  {
    n := 0;
    while s[n] != 0
      invariant n < s.Length && forall i | 0 <= i < n :: s[i] != 0
      decreases s.Length - n
    {
      n := n + 1;
    }
  }

  method XorMemory(src: seq<byte>, ch: byte) returns (dest: seq<byte>)
    ensures dest == Xor(src, ch)
  {
    dest := [];
    for i := 0 to |src|
      invariant |dest| == i && forall j | 0 <= j < i :: dest[j] == src[j] ^ ch
    {
      dest := dest + [src[i] ^ ch];
    }
  }

  /** The key as a block: zero-padded once by strncpy, and again from the first zero byte on. */
  method KeyBlock(key: seq<byte>) returns (block: seq<byte>)
    requires |key| < 64 && 0 !in key
    ensures block == key + Zeros(64 - |key|)
  {
    var workKey := new byte[64];
    CopyKey(key, workKey);
    assert workKey[..][|key|] == 0;
    assert forall i | 0 <= i < |key| :: workKey[..][i] in key;
    var n := Strlen(workKey);
    assert n == |key|;
    var padding := 64 - n;
    if padding > 0 {
      for i := 64 - padding to 64
        invariant workKey[..] == key + Zeros(64 - |key|)
      {
        workKey[i] := 0;
      }
    }
    block := workKey[..];
  }

  /** A digest of two pieces. */
  method DigestPair(first: seq<byte>, second: seq<byte>, h: HashFunction) returns (digest: seq<byte>)
    requires |first| <= 64 && |second| < TWO32
    ensures digest == Hash(h, first + second)
  {
    hide Ready, Hash;
    var state := Start(h);
    Take(state, h, first);
    Take(state, h, second);
    assert state.message == first + second;
    digest := Finish(state, h);
  }

  /** HMAC, for keys without zero bytes that are shorter than a block. */
  method HMAC(message: seq<byte>, key: seq<byte>, h: HashFunction, encoding: Encoding) returns (signature: Encoded)
    requires |message| < 0x8000_0000 && |key| < 64 && 0 !in key
    ensures signature == EncodedDigest(Hmac(h, key, message), encoding)
  {
    hide Hash, EncodedDigest;
    var workKey := KeyBlock(key);
    var outerXor := XorMemory(workKey, 0x5c);
    var innerXor := XorMemory(workKey, 0x36);
    var pass1 := DigestPair(innerXor, message, h);
    var pass2 := DigestPair(outerXor, pass1, h);
    signature := EncodeDigest(pass2, encoding);
  }

  /** HMAC with the two blocks that the key makes: padded with zeros, and every byte combined with 0x36 or 0x5c. */
  lemma HmacIs(h: HashFunction, key: seq<byte>, m: seq<byte>, inner: seq<byte>, outer: seq<byte>)
    requires |key| <= 64 && |inner| == |outer| == 64
    requires forall i | 0 <= i < 64 :: inner[i] == (if i < |key| then key[i] else 0) ^ 0x36
    requires forall i | 0 <= i < 64 :: outer[i] == (if i < |key| then key[i] else 0) ^ 0x5c
    ensures Hmac(h, key, m) == Hash(h, outer + Hash(h, inner + m))
  {
    hide Hash;
    var k := key + Zeros(64 - |key|);
    assert inner == Xor(k, 0x36) && outer == Xor(k, 0x5c);
  }
}
