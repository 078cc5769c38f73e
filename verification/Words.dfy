/** Bytes and 32-bit words as digest.c uses them. */
module Words {
  type byte = bv8
  type word = bv32

  /** ROTATE and SHA1CircularShift. */
  function RotateLeft(w: word, s: nat): word
    requires s <= 32
  {
    (w << s) | (w >> (32 - s))
  }

  /** Four bytes as a word, the least significant byte first. */
  function LittleEndian(b: seq<byte>): word
    requires |b| == 4
  {
    (b[0] as word) | ((b[1] as word) << 8) | ((b[2] as word) << 16) | ((b[3] as word) << 24)
  }

  /** Four bytes as a word, the most significant byte first. */
  function BigEndian(b: seq<byte>): word
    requires |b| == 4
  {
    ((b[0] as word) << 24) | ((b[1] as word) << 16) | ((b[2] as word) << 8) | (b[3] as word)
  }

  function LittleEndianBytes(w: word): seq<byte> {
    [ (w & 0xff) as byte, ((w >> 8) & 0xff) as byte, ((w >> 16) & 0xff) as byte, ((w >> 24) & 0xff) as byte ]
  }

  function BigEndianBytes(w: word): seq<byte> {
    [ ((w >> 24) & 0xff) as byte, ((w >> 16) & 0xff) as byte, ((w >> 8) & 0xff) as byte, (w & 0xff) as byte ]
  }

  /** The registers of both digests; MD5 leaves E alone. */
  datatype Registers = Registers(a: word, b: word, c: word, d: word, e: word)

  /** The initial values of section 3.3 of RFC 1321 and section 6.1 of RFC 3174. */
  function Initial(): Registers {
    Registers(0x67452301, 0xefcdab89, 0x98badcfe, 0x10325476, 0xc3d2e1f0)
  }
}
