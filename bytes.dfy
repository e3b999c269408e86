/**
 * Byte-level vocabulary: octets, 16-bit ports and 32-bit words, and the
 * big-endian ("network order", `!` in Python's struct module) conversions
 * between them that the SOCKS5 server uses.
 */
module Bytes {

  /** An octet of a message. */
  type Byte = b: int | 0 <= b < 0x100

  /** A TCP port: an unsigned 16-bit integer. */
  type Port = p: int | 0 <= p < 0x1_0000

  /** An unsigned 32-bit integer, the `I` of a struct format. */
  type Word32 = w: int | 0 <= w < 0x1_0000_0000

  /** Two octets read as a big-endian unsigned 16-bit integer (`unpack("!H", ...)`). */
  function BigEndian16(hi: Byte, lo: Byte): (p: Port)
    ensures p / 0x100 == hi && p % 0x100 == lo
  {
    hi * 0x100 + lo
  }

  /** A port written as two big-endian octets (`pack("!H", p)`). */
  function PortBytes(p: Port): (s: seq<Byte>)
    ensures |s| == 2 && BigEndian16(s[0], s[1]) == p
  {
    [p / 0x100, p % 0x100]
  }

  /** Four octets read as a big-endian unsigned 32-bit integer (`unpack("!I", ...)`). */
  function BigEndian32(s: seq<Byte>): (w: Word32)
    requires |s| == 4
    ensures w == (s[0] as int) * 0x100_0000 + (s[1] as int) * 0x1_0000 + (s[2] as int) * 0x100 + s[3]
  {
    var hi: int := (s[0] as int) * 0x100 + s[1];
    var mid: int := hi * 0x100 + s[2];
    mid * 0x100 + s[3]
  }

  /** A 32-bit word written as four big-endian octets (`pack("!I", w)`). */
  function Word32Bytes(w: Word32): (s: seq<Byte>)
    ensures |s| == 4 && BigEndian32(s) == w
  {
    var q1 := w / 0x100;
    var q2 := q1 / 0x100;
    var q3 := q2 / 0x100;
    [q3, q2 % 0x100, q1 % 0x100, w % 0x100]
  }

  /** Reading two octets as a port and writing the port back gives the octets. */
  lemma PortBytesOfBigEndian16(hi: Byte, lo: Byte)
    ensures PortBytes(BigEndian16(hi, lo)) == [hi, lo]
  {
  }

  /** Reading four octets as a word and writing the word back gives the octets. */
  lemma Word32BytesOfBigEndian32(s: seq<Byte>)
    requires |s| == 4
    ensures Word32Bytes(BigEndian32(s)) == s
  {
    var hi: int := (s[0] as int) * 0x100 + s[1];
    var mid: int := hi * 0x100 + s[2];
    var w: int := mid * 0x100 + s[3];
    assert w / 0x100 == mid && w % 0x100 == s[3];
    assert mid / 0x100 == hi && mid % 0x100 == s[2];
    assert hi / 0x100 == s[0] && hi % 0x100 == s[1];
  }
}
