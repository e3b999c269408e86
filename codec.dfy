/**
 * The byte formats of the SOCKS5 server (socks5/server.py): the CONNECT
 * request and its address field (RFC 1928, sections 4 and 5) as the server
 * decodes them, and the success reply (RFC 1928, section 6) as it encodes it.
 */
module Socks5Codec {
  import opened Wrappers
  import opened Bytes

  const Version: Byte := 0x05
  const CmdConnect: Byte := 0x01
  const AtypIPv4: Byte := 0x01
  const AtypDomain: Byte := 0x03
  const AtypIPv6: Byte := 0x04
  const ReplySucceeded: Byte := 0x00
  const Reserved: Byte := 0x00

  /** The target host as it appears on the wire: raw address octets or the raw domain name. */
  datatype HostAddr = IPv4(addr: seq<Byte>) | DomainName(name: seq<Byte>) | IPv6(addr: seq<Byte>)
  {
    /** The ATYP octet that tags this kind of address. */
    function AddressType(): Byte {
      match this
      case IPv4(_) => AtypIPv4
      case DomainName(_) => AtypDomain
      case IPv6(_) => AtypIPv6
    }
  }

  /** The (host, port) pair the server hands to its connect step. */
  datatype Endpoint = Endpoint(host: HostAddr, port: Port)

  /** Why a request is refused; each stands for the Python exception that escapes. */
  datatype RequestError =
    | ShortHeader         // fewer than four octets: `ver, cmd, _, atype = data[:4]` cannot unpack
    | NotConnect          // version is not 5 or command is not CONNECT: the assert fails
    | UnknownAddressType  // ATYP is not 1, 3 or 4: `nxt` is never bound
    | ShortAddress        // the length octet or the fixed-size address is missing
    | ShortPort           // fewer than two octets at `nxt`: `unpack("!H", ...)` fails

  /** A host that fits its address field: 4 or 16 octets, or a name of at most 255 octets. */
  predicate ValidHost(h: HostAddr) {
    match h
    case IPv4(a) => |a| == 4
    case DomainName(n) => |n| < 0x100
    case IPv6(a) => |a| == 16
  }

  /**
   * The address field of RFC 1928 section 5 (ATYP, address, port) as a
   * client writes it.  The server never writes this field for a request; it
   * is the reference the decoder is proved against.
   */
  function EncodeAddress(ep: Endpoint): (s: seq<Byte>)
    requires ValidHost(ep.host)
    ensures |s| >= 4 && s[0] == ep.host.AddressType() && s[|s| - 2..] == PortBytes(ep.port)
  {
    match ep.host
    case IPv4(a) => [AtypIPv4] + a + PortBytes(ep.port)
    case DomainName(n) => [AtypDomain, |n|] + n + PortBytes(ep.port)
    case IPv6(a) => [AtypIPv6] + a + PortBytes(ep.port)
  }

  /** A slice is the concatenation of its two halves at any point between its ends. */
  lemma SplitAt(s: seq<Byte>, i: nat, j: nat, k: nat)
    requires i <= j <= k <= |s|
    ensures s[i..k] == s[i..j] + s[j..k]
  {
  }

  /** The big-endian port at offset `nxt` (line 46) completing the endpoint, and the offset after it. */
  function ReadPort(data: seq<Byte>, nxt: nat, host: HostAddr): (r: Result<(Endpoint, nat), RequestError>)
    ensures r.Success? <==> nxt + 2 <= |data|
    ensures r.Failure? ==> r.error == ShortPort
    ensures r.Success? ==> (r.value.0.host == host && r.value.1 == nxt + 2
                            && PortBytes(r.value.0.port) == data[nxt..nxt + 2])
  {
    if |data| < nxt + 2 then Failure(ShortPort)
    else
      PortBytesOfBigEndian16(data[nxt], data[nxt + 1]);
      Success((Endpoint(host, BigEndian16(data[nxt], data[nxt + 1])), nxt + 2))
  }

  /**
   * The address field of a message whose ATYP octet is at offset 3, as lines
   * 39-46 read it: the endpoint and the offset just past the port.  What was
   * consumed is exactly the encoding of what was decoded.
   */
  function DecodeAddress(data: seq<Byte>): (r: Result<(Endpoint, nat), RequestError>)
    requires |data| >= 4
    ensures r.Success? ==> (ValidHost(r.value.0.host) && 3 < r.value.1 <= |data|
                            && data[3..r.value.1] == EncodeAddress(r.value.0))
  {
    var atype := data[3];
    if atype == AtypDomain then
      if |data| < 5 then Failure(ShortAddress)
      else
        var length := data[4];
        var nxt := 5 + length as int;
        // Python slicing stops silently at the end of the buffer
        var hostname := if nxt <= |data| then data[5..nxt] else data[5..];
        var r := ReadPort(data, nxt, DomainName(hostname));
        if r.Success? then
          SplitAt(data, 3, 5, nxt + 2);
          SplitAt(data, 5, nxt, nxt + 2);
          assert data[3..5] == [data[3], data[4]];
          r
        else r
    else if atype == AtypIPv4 then
      if |data| < 8 then Failure(ShortAddress)
      else
        var r := ReadPort(data, 8, IPv4(data[4..8]));
        if r.Success? then
          SplitAt(data, 3, 4, 10);
          SplitAt(data, 4, 8, 10);
          assert data[3..4] == [data[3]];
          r
        else r
    else if atype == AtypIPv6 then
      if |data| < 20 then Failure(ShortAddress)
      else
        var r := ReadPort(data, 20, IPv6(data[4..20]));
        if r.Success? then
          SplitAt(data, 3, 4, 22);
          SplitAt(data, 4, 20, 22);
          assert data[3..4] == [data[3]];
          r
        else r
    else Failure(UnknownAddressType)
  }

  /** A CONNECT request (lines 36-46): header checks first, then the address field. */
  function DecodeRequest(data: seq<Byte>): (r: Result<Endpoint, RequestError>)
    ensures r.Success? ==> (|data| >= 4 && data[0] == Version && data[1] == CmdConnect
                            && ValidHost(r.value.host))
  {
    if |data| < 4 then Failure(ShortHeader)
    else if !(data[0] == Version && data[1] == CmdConnect) then Failure(NotConnect)
    else
      match DecodeAddress(data)
      case Success((ep, _)) => Success(ep)
      case Failure(e) => Failure(e)
  }

  /**
   * The success reply of lines 66-67, `pack("!BBBBIH", 5, 0, 0, 1, host, port)`:
   * ten octets that read back as the bound address word and the bound port.
   */
  function EncodeReply(host: Word32, port: Port): (r: seq<Byte>)
    ensures |r| == 10
    ensures r[..4] == [Version, ReplySucceeded, Reserved, AtypIPv4]
    ensures BigEndian32(r[4..8]) == host && BigEndian16(r[8], r[9]) == port
  {
    [Version, ReplySucceeded, Reserved, AtypIPv4] + Word32Bytes(host) + PortBytes(port)
  }

  // ---------------------------------------------------------------------------
  // Properties of the request decoder

  /** Fewer than four octets cannot even be split into the header. */
  lemma ShortRequestRejected(data: seq<Byte>)
    requires |data| < 4
    ensures DecodeRequest(data) == Failure(ShortHeader)
  {
  }

  /** Version and command are checked before any address octet is looked at. */
  lemma VersionAndCommandCheckedFirst(data: seq<Byte>)
    requires |data| >= 4 && (data[0] != Version || data[1] != CmdConnect)
    ensures DecodeRequest(data) == Failure(NotConnect)
  {
  }

  /** An ATYP other than 1, 3 or 4 is refused. */
  lemma UnknownAddressTypeRejected(data: seq<Byte>)
    requires |data| >= 4 && data[0] == Version && data[1] == CmdConnect
    requires data[3] !in {AtypIPv4, AtypDomain, AtypIPv6}
    ensures DecodeRequest(data) == Failure(UnknownAddressType)
  {
  }

  /** Domain (ATYP 3) with no length octet: the name length cannot be read. */
  lemma DomainRequestTooShort(data: seq<Byte>)
    requires |data| == 4 && data[0] == Version && data[1] == CmdConnect && data[3] == AtypDomain
    ensures DecodeRequest(data) == Failure(ShortAddress)
  {
  }

  /** Domain (ATYP 3): the name is `data[5..5 + data[4]]`, `nxt` is `5 + data[4]`. */
  lemma DomainRequestLayout(data: seq<Byte>)
    requires |data| >= 5 && data[0] == Version && data[1] == CmdConnect && data[3] == AtypDomain
    ensures var nxt := 5 + data[4] as int;
            && (DecodeRequest(data).Success? <==> |data| >= nxt + 2)
            && (|data| >= nxt + 2 ==>
                  DecodeRequest(data) == Success(Endpoint(DomainName(data[5..nxt]), (data[nxt] as int) * 0x100 + data[nxt + 1]))
                  && DecodeAddress(data).value.1 == 4 + 1 + data[4] as int + 2)
            && (|data| < nxt + 2 ==> DecodeRequest(data) == Failure(ShortPort))
  {
  }

  /** IPv4 (ATYP 1): the address is `data[4..8]`, `nxt` is 8. */
  lemma IPv4RequestLayout(data: seq<Byte>)
    requires |data| >= 4 && data[0] == Version && data[1] == CmdConnect && data[3] == AtypIPv4
    ensures DecodeRequest(data).Success? <==> |data| >= 10
    ensures |data| >= 10 ==>
              DecodeRequest(data) == Success(Endpoint(IPv4(data[4..8]), (data[8] as int) * 0x100 + data[9]))
    ensures |data| < 8 ==> DecodeRequest(data) == Failure(ShortAddress)
    ensures 8 <= |data| < 10 ==> DecodeRequest(data) == Failure(ShortPort)
  {
  }

  /** IPv6 (ATYP 4): the address is `data[4..20]`, `nxt` is 20. */
  lemma IPv6RequestLayout(data: seq<Byte>)
    requires |data| >= 4 && data[0] == Version && data[1] == CmdConnect && data[3] == AtypIPv6
    ensures DecodeRequest(data).Success? <==> |data| >= 22
    ensures |data| >= 22 ==>
              DecodeRequest(data) == Success(Endpoint(IPv6(data[4..20]), (data[20] as int) * 0x100 + data[21]))
    ensures |data| < 20 ==> DecodeRequest(data) == Failure(ShortAddress)
    ensures 20 <= |data| < 22 ==> DecodeRequest(data) == Failure(ShortPort)
  {
  }

  /** Octets after the port are ignored: appending anything to an accepted request changes nothing. */
  lemma TrailingBytesIgnored(data: seq<Byte>, extra: seq<Byte>)
    requires DecodeRequest(data).Success?
    ensures DecodeRequest(data + extra) == DecodeRequest(data)
  {
    var longer := data + extra;
    assert longer[..|data|] == data;
    assert forall i :: 0 <= i < |data| ==> longer[i] == data[i];
    if data[3] == AtypDomain {
      var nxt := 5 + data[4] as int;
      assert longer[5..nxt] == data[5..nxt];
    } else if data[3] == AtypIPv4 {
      assert longer[4..8] == data[4..8];
    } else {
      assert longer[4..20] == data[4..20];
    }
  }

  /** The reserved octet (offset 2) is never inspected. */
  lemma ReservedByteIgnored(data: seq<Byte>, b: Byte)
    requires |data| >= 4
    ensures DecodeRequest(data[2 := b]) == DecodeRequest(data)
  {
    var changed := data[2 := b];
    assert forall i :: 0 <= i < |data| && i != 2 ==> changed[i] == data[i];
    if data[3] == AtypDomain && |data| >= 5 {
      var nxt := 5 + data[4] as int;
      assert nxt <= |data| ==> changed[5..nxt] == data[5..nxt];
      assert changed[5..] == data[5..];
    } else if data[3] == AtypIPv4 && |data| >= 8 {
      assert changed[4..8] == data[4..8];
    } else if data[3] == AtypIPv6 && |data| >= 20 {
      assert changed[4..20] == data[4..20];
    }
  }

  /** Decoding an address field written by a client gives back the endpoint and consumes exactly that field. */
  lemma {:induction false} DecodeAddressOfEncode(prefix: seq<Byte>, ep: Endpoint, rest: seq<Byte>)
    requires |prefix| == 3 && ValidHost(ep.host)
    ensures DecodeAddress(prefix + EncodeAddress(ep) + rest)
            == Success((ep, 3 + |EncodeAddress(ep)|))
  {
    var field := EncodeAddress(ep);
    var data := prefix + field + rest;
    assert data[3..3 + |field|] == field;
    assert data[3] == ep.host.AddressType();
    var end := 3 + |field|;
    assert data[end - 2..end] == PortBytes(ep.port);
    match ep.host
    case IPv4(a) =>
      assert data[4..8] == a;
    case DomainName(n) =>
      assert data[4] == |n|;
      assert data[5..5 + |n|] == n;
    case IPv6(a) =>
      assert data[4..20] == a;
  }

  /** Every well-formed CONNECT request a client can send is decoded to its endpoint, whatever follows it. */
  lemma RequestRoundTrip(reserved: Byte, ep: Endpoint, rest: seq<Byte>)
    requires ValidHost(ep.host)
    ensures DecodeRequest([Version, CmdConnect, reserved] + EncodeAddress(ep) + rest) == Success(ep)
  {
    DecodeAddressOfEncode([Version, CmdConnect, reserved], ep, rest);
  }

  // ---------------------------------------------------------------------------
  // Properties of the reply encoder

  /** Packing the integer `unpack("!I", addr)` puts the four address octets back on the wire unchanged. */
  lemma ReplyCarriesAddressOctets(addr: seq<Byte>, port: Port)
    requires |addr| == 4
    ensures EncodeReply(BigEndian32(addr), port) == [Version, ReplySucceeded, Reserved, AtypIPv4] + addr + PortBytes(port)
  {
    Word32BytesOfBigEndian32(addr);
  }

  /** The reply's tail is an IPv4 address field that the address decoder reads back. */
  lemma ReplyDecodes(host: Word32, port: Port)
    ensures DecodeAddress(EncodeReply(host, port)) == Success((Endpoint(IPv4(Word32Bytes(host)), port), 10))
  {
    var ep := Endpoint(IPv4(Word32Bytes(host)), port);
    assert EncodeReply(host, port) == [Version, ReplySucceeded, Reserved] + EncodeAddress(ep) + [];
    DecodeAddressOfEncode([Version, ReplySucceeded, Reserved], ep, []);
  }
}
