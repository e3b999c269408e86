# SOCKS5 negotiation of `socks5/server.py`, in Dafny

This project models the per-connection protocol object `Server` of a small
asyncio SOCKS5 proxy and proves properties of it. It covers three parts.

- **Byte formats** (`bytes.dfy`, `codec.dfy`). The CONNECT request of RFC 1928
  sections 4 and 5 is decoded the way the server reads it: version and command
  first, then the ATYP-tagged address field (IPv4, domain name, IPv6), then a
  big-endian port at offset `nxt`. The success reply of RFC 1928 section 6 is
  `05 00 00 01`, then the bound IPv4 address as a big-endian 32-bit word, then
  the bound port. Each Python exception that can escape (a short buffer, a
  failed `assert`, an unbound `nxt`) is a `Failure` value of its own kind. An
  RFC 1928 address-field encoder (`EncodeAddress`) is the reference the decoder
  is proved against. The server never encodes a request's address field, but
  its success reply ends with an IPv4 one (see `ReplyDecodes`).
- **State machine** (`server.dfy`). There are three states: `Init`, `Host` and
  `Data`. `Receive` says what one `data_received` call does with a chunk. A
  greeting whose first octet is 5 is answered with `05 00`; nothing else in the
  greeting is read. A request is decoded and one connect is scheduled to its
  target. Each later chunk is forwarded verbatim to the upstream.
  `Complete` says what the `connect` task does when the dial is over.
- **The `Server` class**. It holds the object's fields: the state, the octets
  written to the client, whether the client was closed, whether the upstream
  transport is set, the octets forwarded upstream, and the connects scheduled.
  Its methods are proved to change these exactly as `Receive` and `Complete`
  say. They also keep the protocol invariant `Valid`. Exactly one connect is
  scheduled per connection. A success reply is written only once the upstream
  is set. Nothing is forwarded without an upstream. The invariant does not
  say that the success reply comes before any forwarded octet, because for
  an IPv6-bound upstream the code breaks that (see "## Findings").

A consequence of the code that the model makes visible: the server treats each
received chunk as one whole protocol message. A greeting and a request that
arrive in the same chunk are handled as a greeting alone, so the request is
dropped (`GreetingAccepted` holds for any tail). A request split over two
chunks is refused (`ShortHeader`, `ShortAddress` or `ShortPort`).

A chunk that arrives in `Data` before the connect has set the upstream
transport is refused with `NoUpstream`. In the code, writing to the still-unset
`client_transport` raises an exception, so the chunk is lost.

Where the code departs from RFC 1928, the model follows the code:

- The code sends no failure reply for a bad greeting, an unsupported command,
  a bad address or a failed connect; it only closes the client, or lets the
  exception escape.
- The code never checks the reserved octet or the greeting's method list.

## Model

| member | source | states |
|---|---|---|
| `Bytes.BigEndian16` | socks5/server.py:46 | the two octets are the high and low halves of the port read back |
| `Bytes.PortBytes` | socks5/server.py:67 | the port is written as two octets that read back as the same port |
| `Bytes.BigEndian32` | socks5/server.py:66 | the word is `s[0]*2^24 + s[1]*2^16 + s[2]*2^8 + s[3]`, the big-endian value of the four octets |
| `Bytes.Word32Bytes` | socks5/server.py:67 | a 32-bit word is written as four octets that read back as the same word |
| `Bytes.PortBytesOfBigEndian16` | socks5/server.py:46 | reading a port and writing it again gives the same two octets |
| `Bytes.Word32BytesOfBigEndian32` | socks5/server.py:66-67 | `unpack("!I")` and `pack("!I")` round-trip on four octets |
| `Socks5Codec.EncodeAddress` | socks5/server.py:39-46 | reference RFC 1928 address field: starts with the host's ATYP and ends with the big-endian port |
| `Socks5Codec.ReadPort` | socks5/server.py:46 | the port read succeeds exactly when two octets exist at `nxt`; it consumes exactly them, else fails with `ShortPort` |
| `Socks5Codec.DecodeAddress` | socks5/server.py:39-46 | a decoded host fits its field, and the octets consumed from the ATYP on are exactly the encoding of the decoded endpoint |
| `Socks5Codec.DecodeRequest` | socks5/server.py:36-46 | an accepted request has version 5 and command CONNECT and a well-formed host |
| `Socks5Codec.EncodeReply` | socks5/server.py:67 | the reply is 10 octets: `05 00 00 01`, then octets that read back as the bound address word and the bound port |
| `Socks5Codec.ShortRequestRejected` | socks5/server.py:36 | fewer than four octets fail with `ShortHeader` |
| `Socks5Codec.VersionAndCommandCheckedFirst` | socks5/server.py:36-37 | a wrong version or a non-CONNECT command fails with `NotConnect` before the address is looked at |
| `Socks5Codec.UnknownAddressTypeRejected` | socks5/server.py:39-46 | an ATYP other than 1, 3 or 4 fails with `UnknownAddressType` |
| `Socks5Codec.DomainRequestTooShort` | socks5/server.py:39-40 | a domain request of exactly four octets fails with `ShortAddress`, because `data[4]` does not exist |
| `Socks5Codec.DomainRequestLayout` | socks5/server.py:39-46 | domain: accepted iff `|data| >= 5 + data[4] + 2`; then the host is `data[5..5+data[4]]`, the port is `data[nxt]*256 + data[nxt+1]`, and `1 + length + 2` octets follow the ATYP; otherwise `ShortPort` |
| `Socks5Codec.IPv4RequestLayout` | socks5/server.py:42-46 | IPv4: accepted iff `|data| >= 10`; then the host is `data[4..8]` and the port is `data[8]*256 + data[9]`; fewer than 8 octets give `ShortAddress`, and 8 or 9 give `ShortPort` |
| `Socks5Codec.IPv6RequestLayout` | socks5/server.py:44-46 | IPv6: accepted iff `|data| >= 22`; then the host is `data[4..20]` and the port is `data[20]*256 + data[21]`; fewer than 20 octets give `ShortAddress`, and 20 or 21 give `ShortPort` |
| `Socks5Codec.TrailingBytesIgnored` | socks5/server.py:46 | any octets appended to an accepted request leave the decoded target unchanged |
| `Socks5Codec.ReservedByteIgnored` | socks5/server.py:36 | the reserved octet at offset 2 never affects the result |
| `Socks5Codec.DecodeAddressOfEncode` | socks5/server.py:39-46 | decoding an encoded address field gives back the endpoint and consumes exactly the field, whatever follows |
| `Socks5Codec.RequestRoundTrip` | socks5/server.py:36-46 | every well-formed CONNECT request decodes to its endpoint |
| `Socks5Codec.ReplyCarriesAddressOctets` | socks5/server.py:65-67 | the reply built from `unpack("!I", addr)` carries the four address octets unchanged, then the port |
| `Socks5Codec.ReplyDecodes` | socks5/server.py:67 | the reply's tail is an IPv4 address field that decodes back to the bound address and port |
| `Socks5Server.Receive` | socks5/server.py:27-54 | an accepted chunk moves one state forward (and `Data` stays); only `Host` schedules a connect; only `Data` with an upstream forwards; only `Init` writes a reply |
| `Socks5Server.Complete` | socks5/server.py:56-77 | the upstream is set iff the dial succeeded; the client is closed iff the dial timed out or raised an OSError; a dial that raised anything else sets no upstream, writes nothing and leaves the client open; a reply is written iff the upstream socket is IPv4, and it is `05 00 00 01` + address + port; an IPv6 socket gets no reply and the client stays open |
| `Socks5Server.IntendedComplete` | socks5/server.py:56-77 | corrected completion: a reply is written iff the upstream is set, the client is closed iff it is not (whatever the dial raised), and every reply decodes back to the bound IPv4 or IPv6 endpoint |
| `Socks5Server.IntendedCompleteAgrees` | socks5/server.py:56-77 | the corrected completion equals the code's on every outcome except an IPv6 socket and a dial exception other than TimeoutError or OSError |
| `Socks5Server.Server.constructor` | socks5/server.py:11-21 | a new connection is in `Init` with nothing written, scheduled, forwarded or closed |
| `Socks5Server.Server.DataReceived` | socks5/server.py:27-54 | a refused chunk changes no field and returns its error; an accepted one applies `Receive`'s effect to the fields and keeps `Valid` |
| `Socks5Server.Server.Connect` | socks5/server.py:56-77 | the finished connect applies `Complete`'s effect; the state, the scheduled connects and the forwarded octets are unchanged; `Valid` is kept |
| `Socks5Server.Server.ConnectionLost` | socks5/server.py:23-25 | the client is closed and nothing else changes |
| `Socks5Server.GreetingAccepted` | socks5/server.py:29-33 | in `Init`, any chunk starting with 5 writes exactly `05 00` and moves to `Host` |
| `Socks5Server.GreetingRejected` | socks5/server.py:29-30 | in `Init`, an empty chunk or another version is refused, with `EmptyGreeting` or `WrongVersion` |
| `Socks5Server.RequestAccepted` | socks5/server.py:35-50 | in `Host`, a chunk is accepted iff it decodes; then the state is `Data`, one connect to the decoded target is scheduled and nothing is written |
| `Socks5Server.NonConnectRequestRejected` | socks5/server.py:36-37 | in `Host`, a wrong version or command fails with `NotConnect` |
| `Socks5Server.RelayForwardsVerbatim` | socks5/server.py:52-53 | in `Data` with an upstream, the chunk is forwarded unchanged and nothing else happens |
| `Socks5Server.FailedConnectClosesClient` | socks5/server.py:71-77 | a dial ending in TimeoutError or OSError writes nothing, sets no upstream and closes the client |
| `Socks5Server.RelayWithoutReply` | socks5/server.py:52-65 | after a CONNECT whose dial yields an IPv6 socket, the client has seen only `05 00`, is still open, and its next chunk is forwarded upstream |
| `Socks5Server.HungClient` | socks5/server.py:56-77 | after a CONNECT whose dial raises neither TimeoutError nor OSError, the client has seen only `05 00`, is still open, and every later chunk is refused with `NoUpstream` |
| `Socks5Server.ConnectScenario` | socks5/server.py:27-77 | greeting, CONNECT to 127.0.0.1:80 and a successful dial: the client sees `05 00` then the success reply, and the next chunk reaches the upstream verbatim |

## Findings

| source | as written | input that shows it | evidently intended | confidence | as-written member | corrected member |
|---|---|---|---|---|---|---|
| socks5/server.py:63-68 | `client_transport` is set at line 63 before `hostip, port = transport.get_extra_info("sockname")` at line 65. For an IPv6 socket the name is a 4-tuple, so the unpack raises a ValueError that neither `except` catches. The task dies with the upstream set, no reply sent and the client open. Line 53 then forwards the client's later chunks. | greeting `05 01 00`, then a CONNECT to any target whose dial gives an IPv6 socket (an IPv6 address, or a name that resolves to one first), then any chunk | every established upstream is announced with a success reply before anything is relayed; RFC 1928 section 6 allows ATYP 4 in the reply | high; not executed | `Socks5Server.RelayWithoutReply` | `Socks5Server.IntendedComplete` |
| socks5/server.py:58-77 | `connect` catches only `asyncio.TimeoutError` (line 71) and `OSError` (line 75). Any other exception from the awaited `create_connection` ends the task before line 62. No upstream is set, nothing is written and the client is not closed. The client then hangs, because there is no idle timeout. | greeting `05 01 00`, then `05 01 00 03 03 61 00 62 00 50`: the domain name `a\0b` holds a NUL octet, and resolving the raw name raises a ValueError. A name holding an octet of 0x80 or more raises a UnicodeError the same way (reasoned from asyncio's name handling) | every failed dial closes the client, as the two handlers do | medium; not executed | `Socks5Server.HungClient` | `Socks5Server.IntendedComplete` |

The `Server` class models the code, so its `Connect` uses `Complete`. `IntendedComplete` is the corrected completion. `IntendedCompleteAgrees` proves it differs from the code only in the two cases above.

## Left out

- `asyncio` scheduling, `ensure_future`, `wait_for` and `create_connection` (lines 49, 58-61) are concurrency and network I/O. The scheduled connect is recorded in `connects`, and how the dial ends is the input `ConnectOutcome`. The timeout value is stored but not used.
- `socket.inet_ntop` and `socket.inet_aton` (lines 43, 45, 66) are textual renderings of addresses. Hosts are the raw 4 or 16 address octets. The socket name of an IPv4 upstream is a pair (address, port), and that of an IPv6 upstream is a 4-tuple (address, port, flowinfo, scope id). `inet_aton` only ever sees the address of an IPv4 socket, so its OSError path is not reachable here.
- Nothing models the uncaught ValueError of line 65 beyond its effect on the fields. The event loop only logs that exception.
- What the event loop does after an exception escapes `data_received` (it closes the transport) is outside `socks5/server.py`. A refused chunk here only leaves every field unchanged and returns its error kind.
- Python's `-O` flag, which removes `assert` statements, is not modelled. Both asserts are always checked.
- Writes to the client are recorded as calls. What a transport does with a write after it was closed is not modelled.
- The constructor models `__init__` followed by `connection_made`. The `None` state between the two calls is never seen by `data_received`.
- `Socks5Server.Server.DataReceived` requires an open client, because the event loop delivers no data once the transport is closed.
- `run_proxy_server` (lines 80-98) is listener setup and the serve loop, pure I/O.
- `socks5/client.py` is the upstream protocol. It copies upstream octets to the client and closes the client on loss. It is transport plumbing, so the upstream-to-client direction of the relay is not modelled.
- `socks5.py` is the command line and logging set-up. All `logging` calls are left out too.
