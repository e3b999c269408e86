/**
 * The per-connection SOCKS5 negotiation of `Server` in socks5/server.py:
 * a three-state machine fed one received chunk at a time, and the completion
 * of the upstream connect it schedules.
 *
 * `Receive` and `Complete` say, as values, what one chunk and one finished
 * connect do; the class `Server` holds the protocol object's fields and its
 * methods are proved to change them exactly as those functions say.
 */
module Socks5Server {
  import opened Wrappers
  import opened Bytes
  import opened Socks5Codec

  /** The phases INIT, HOST and DATA (line 9). */
  datatype State = Init | Host | Data

  /** Method 0x00 of RFC 1928 section 3: no authentication required. */
  const MethodNoAuth: Byte := 0x00

  /** The method-selection message written in reply to every accepted greeting (line 31). */
  const NoAuthReply: seq<Byte> := [Version, MethodNoAuth]

  /** Why a chunk is refused; each stands for the Python exception that escapes `data_received`. */
  datatype ReceiveError =
    | EmptyGreeting                    // `data[0]` of an empty chunk
    | WrongVersion                     // the greeting's `assert data[0] == 0x05`
    | BadRequest(reason: RequestError) // the request could not be decoded
    | NoUpstream                       // `client_transport` is still None in DATA

  /**
   * What an accepted chunk does: the next state, the octets written to the
   * client, the connect scheduled (if any) and the octets forwarded upstream.
   */
  datatype Effect = Effect(next: State, reply: seq<Byte>, connect: Option<Endpoint>, forward: seq<Byte>)

  /** Position of a state in the protocol's order. */
  function Rank(s: State): nat {
    match s
    case Init => 0
    case Host => 1
    case Data => 2
  }

  /**
   * One call of `data_received` (lines 27-54) in `state`, with `upstreamSet`
   * telling whether `client_transport` has been set.  Every accepted chunk
   * moves the machine one phase forward, except in DATA, which it never leaves;
   * only a request schedules a connect, and only DATA forwards anything.
   */
  function Receive(state: State, upstreamSet: bool, data: seq<Byte>): (r: Result<Effect, ReceiveError>)
    ensures r.Success? ==> Rank(r.value.next) == if state == Data then 2 else Rank(state) + 1
    ensures r.Success? ==> (r.value.connect.Some? <==> state == Host)
    ensures r.Success? && r.value.forward != [] ==> state == Data && upstreamSet
    ensures r.Success? && r.value.reply != [] ==> state == Init
  {
    match state
    case Init =>
      if |data| == 0 then Failure(EmptyGreeting)
      else if data[0] != Version then Failure(WrongVersion)
      else Success(Effect(Host, NoAuthReply, None, []))
    case Host =>
      (match DecodeRequest(data)
       case Failure(e) => Failure(BadRequest(e))
       case Success(target) => Success(Effect(Data, [], Some(target), [])))
    case Data =>
      if !upstreamSet then Failure(NoUpstream)
      else Success(Effect(Data, [], None, data))
  }

  /** Raw IPv4 and IPv6 address octets. */
  type Addr4 = s: seq<Byte> | |s| == 4 witness [0, 0, 0, 0]
  type Addr16 = s: seq<Byte> | |s| == 16 witness [0, 0, 0, 0, 0, 0, 0, 0, 0, 0, 0, 0, 0, 0, 0, 0]

  /**
   * The local (bound) name of the upstream socket, as `get_extra_info("sockname")`
   * gives it: a pair (address, port) for an IPv4 socket, a 4-tuple
   * (address, port, flowinfo, scope id) for an IPv6 one.
   */
  datatype SockName =
    | Inet4Name(addr: Addr4, port: Port)
    | Inet6Name(addr6: Addr16, port: Port, flowInfo: Word32, scopeId: Word32)

  /** The bound endpoint a socket name denotes. */
  function BoundEndpoint(name: SockName): Endpoint {
    match name
    case Inet4Name(addr, port) => Endpoint(IPv4(addr), port)
    case Inet6Name(addr, port, _, _) => Endpoint(IPv6(addr), port)
  }

  /**
   * How the awaited `create_connection` under `wait_for` ends: with a socket,
   * with `asyncio.TimeoutError`, with an OSError, or with any other exception
   * (a ValueError or UnicodeError from resolving a domain name holding a NUL
   * or a non-ASCII octet, for one), which neither handler catches.
   */
  datatype ConnectOutcome = Established(sockname: SockName) | TimedOut | ConnectFailed | DialRaised

  /** What a finished connect does: whether it set `client_transport`, what it wrote, whether it closed the client. */
  datatype Completion = Completion(upstreamSet: bool, reply: seq<Byte>, closeClient: bool)

  /**
   * The body of `connect` (lines 56-77) once the dial is over.  The client
   * is closed exactly when the dial timed out or failed with an OSError; a
   * dial that raised anything else kills the task before line 62, leaving
   * no upstream, nothing written and the client open.  The upstream
   * transport is stored (line 63) before the socket name is unpacked, so
   * for an IPv6 socket `hostip, port = ...` (line 65) raises a ValueError
   * that neither handler catches: the task dies with the upstream set,
   * nothing written and the client left open.  Only an IPv4 socket is
   * announced, with the ten-octet reply carrying its address and port.
   */
  function Complete(outcome: ConnectOutcome): (c: Completion)
    ensures c.upstreamSet <==> outcome.Established?
    ensures c.closeClient <==> outcome.TimedOut? || outcome.ConnectFailed?
    ensures c.reply != [] <==> outcome.Established? && outcome.sockname.Inet4Name?
    ensures c.reply != [] ==>
              c.reply == [Version, ReplySucceeded, Reserved, AtypIPv4]
                           + outcome.sockname.addr + PortBytes(outcome.sockname.port)
  {
    match outcome
    case Established(Inet4Name(addr, port)) =>
      ReplyCarriesAddressOctets(addr, port);
      Completion(true, EncodeReply(BigEndian32(addr), port), false)
    case Established(Inet6Name(_, _, _, _)) => Completion(true, [], false)
    case TimedOut => Completion(false, [], true)
    case ConnectFailed => Completion(false, [], true)
    case DialRaised => Completion(false, [], false)
  }

  /**
   * The completion the code evidently intends: every established upstream is
   * announced before the relay starts, and every failed dial closes the
   * client, whatever it raised.  An IPv6 socket gets the reply of
   * RFC 1928 section 6 with ATYP 4 (`05 00 00 04`, 16 address octets, port)
   * instead of killing the task.  Every reply written reads back, through
   * the address decoder, as the bound endpoint.
   */
  function IntendedComplete(outcome: ConnectOutcome): (c: Completion)
    ensures c.upstreamSet <==> outcome.Established?
    ensures c.reply != [] <==> c.upstreamSet
    ensures c.closeClient <==> !c.upstreamSet
    ensures c.upstreamSet ==>
              |c.reply| >= 4 && c.reply[..3] == [Version, ReplySucceeded, Reserved]
              && DecodeAddress(c.reply) == Success((BoundEndpoint(outcome.sockname), |c.reply|))
  {
    match outcome
    case Established(Inet4Name(addr, port)) =>
      ReplyDecodes(BigEndian32(addr), port);
      Word32BytesOfBigEndian32(addr);
      Completion(true, EncodeReply(BigEndian32(addr), port), false)
    case Established(Inet6Name(addr, port, _, _)) =>
      var ep := Endpoint(IPv6(addr), port);
      var reply := [Version, ReplySucceeded, Reserved] + EncodeAddress(ep) + [];
      DecodeAddressOfEncode([Version, ReplySucceeded, Reserved], ep, []);
      Completion(true, reply, false)
    case TimedOut => Completion(false, [], true)
    case ConnectFailed => Completion(false, [], true)
    case DialRaised => Completion(false, [], true)
  }

  /** A client stream that holds the no-auth reply followed by a success reply. */
  predicate RepliedSuccess(toClient: seq<Byte>) {
    |toClient| == 12 && toClient[..2] == NoAuthReply
    && toClient[2..6] == [Version, ReplySucceeded, Reserved, AtypIPv4]
  }

  /**
   * One client connection (`Server` after `connection_made`).  The fields
   * record what the protocol object has done so far: its state, every octet
   * written to and whether it closed the client transport, whether the
   * upstream transport is set and every octet written to it, and the connect
   * tasks it scheduled.
   */
  class Server {
    const timeout: int
    var state: State
    var toClient: seq<Byte>
    var clientClosed: bool
    var upstreamSet: bool
    var toUpstream: seq<Byte>
    var connects: seq<Endpoint>
    var connectDone: bool

    /**
     * The protocol invariant: the client has seen nothing in INIT and exactly
     * the no-auth reply in HOST; exactly one connect is scheduled, on entry to
     * DATA; the upstream is set only in DATA, once the connect has finished; a
     * success reply is written only once the upstream is set; nothing is forwarded
     * without an upstream.  (That nothing is forwarded before the success
     * reply does NOT hold, see `RelayWithoutReply`; nor that a finished
     * connect without an upstream has closed the client, see `HungClient`.)
     */
    ghost predicate Valid()
      reads this
    {
      && (state == Init ==> toClient == [])
      && (state == Host ==> toClient == NoAuthReply)
      && (state == Data ==> toClient == NoAuthReply || (upstreamSet && RepliedSuccess(toClient)))
      && |connects| == (if state == Data then 1 else 0)
      && (connectDone ==> state == Data)
      && (upstreamSet ==> connectDone)
      && (toUpstream != [] ==> upstreamSet)
    }

    /** `__init__(timeout)` followed by `connection_made` (lines 11-21). */
    constructor (timeout: int)
      ensures Valid()
      ensures this.timeout == timeout && state == Init
      ensures toClient == [] && !clientClosed && !upstreamSet && toUpstream == []
      ensures connects == [] && !connectDone
    {
      this.timeout := timeout;
      state := Init;
      toClient := [];
      clientClosed := false;
      upstreamSet := false;
      toUpstream := [];
      connects := [];
      connectDone := false;
    }

    /**
     * `data_received` (lines 27-54).  A refused chunk changes nothing; an
     * accepted one changes the fields exactly as `Receive` says.  The event
     * loop delivers no data once the client transport is closed.
     */
    method DataReceived(data: seq<Byte>) returns (err: Option<ReceiveError>)
      requires Valid() && !clientClosed
      modifies this
      ensures Valid()
      ensures Receive(old(state), old(upstreamSet), data).Failure? ==>
                err == Some(Receive(old(state), old(upstreamSet), data).error)
                && unchanged(this)
      ensures Receive(old(state), old(upstreamSet), data).Success? ==>
                var e := Receive(old(state), old(upstreamSet), data).value;
                && err == None
                && state == e.next
                && toClient == old(toClient) + e.reply
                && connects == old(connects) + (if e.connect.Some? then [e.connect.value] else [])
                && toUpstream == old(toUpstream) + e.forward
                && clientClosed == old(clientClosed) && upstreamSet == old(upstreamSet)
                && connectDone == old(connectDone)
    {
      var r := Receive(state, upstreamSet, data);
      if r.Failure? {
        return Some(r.error);
      }
      state := r.value.next;
      toClient := toClient + r.value.reply;
      if r.value.connect.Some? {
        connects := connects + [r.value.connect.value];
      }
      toUpstream := toUpstream + r.value.forward;
      return None;
    }

    /**
     * The scheduled `connect` task (lines 56-77) finishing with `outcome`,
     * which stands for the awaited `create_connection` under `wait_for`.
     */
    method Connect(outcome: ConnectOutcome)
      requires Valid() && state == Data && !connectDone
      modifies this
      ensures Valid()
      ensures connectDone && upstreamSet == Complete(outcome).upstreamSet
      ensures toClient == old(toClient) + Complete(outcome).reply
      ensures clientClosed == (old(clientClosed) || Complete(outcome).closeClient)
      ensures state == old(state) && connects == old(connects) && toUpstream == old(toUpstream)
    {
      var done := Complete(outcome);
      connectDone := true;
      upstreamSet := done.upstreamSet;
      toClient := toClient + done.reply;
      clientClosed := clientClosed || done.closeClient;
    }

    /** `connection_lost` (lines 23-25): the client transport is closed. */
    method ConnectionLost()
      requires Valid()
      modifies this
      ensures Valid() && clientClosed
      ensures state == old(state) && toClient == old(toClient) && upstreamSet == old(upstreamSet)
      ensures toUpstream == old(toUpstream) && connects == old(connects) && connectDone == old(connectDone)
    {
      clientClosed := true;
    }
  }

  // ---------------------------------------------------------------------------
  // Properties of one received chunk

  /** INIT: a chunk starting with 0x05 is answered with exactly `05 00`; nothing else in it is read. */
  lemma GreetingAccepted(upstreamSet: bool, rest: seq<Byte>)
    ensures Receive(Init, upstreamSet, [Version] + rest) == Success(Effect(Host, [0x05, 0x00], None, []))
  {
  }

  /** INIT: an empty chunk or one with another version is refused. */
  lemma GreetingRejected(upstreamSet: bool, data: seq<Byte>)
    requires |data| == 0 || data[0] != Version
    ensures Receive(Init, upstreamSet, data).Failure?
    ensures Receive(Init, upstreamSet, data).error == if |data| == 0 then EmptyGreeting else WrongVersion
  {
  }

  /** HOST: a request is accepted exactly when it decodes; it schedules one connect to the decoded target and writes nothing. */
  lemma RequestAccepted(upstreamSet: bool, data: seq<Byte>)
    ensures Receive(Host, upstreamSet, data).Success? <==> DecodeRequest(data).Success?
    ensures DecodeRequest(data).Success? ==>
              Receive(Host, upstreamSet, data) == Success(Effect(Data, [], Some(DecodeRequest(data).value), []))
    ensures DecodeRequest(data).Failure? ==>
              Receive(Host, upstreamSet, data) == Failure(BadRequest(DecodeRequest(data).error))
  {
  }

  /** HOST: a request with another version or command is refused before its address is parsed. */
  lemma NonConnectRequestRejected(upstreamSet: bool, data: seq<Byte>)
    requires |data| >= 4 && (data[0] != Version || data[1] != CmdConnect)
    ensures Receive(Host, upstreamSet, data) == Failure(BadRequest(NotConnect))
  {
    VersionAndCommandCheckedFirst(data);
  }

  /** DATA: once the upstream is set, every chunk is forwarded unchanged and nothing else happens. */
  lemma RelayForwardsVerbatim(data: seq<Byte>)
    ensures Receive(Data, true, data) == Success(Effect(Data, [], None, data))
  {
  }

  /** A connect that times out or fails writes nothing and closes the client. */
  lemma FailedConnectClosesClient(outcome: ConnectOutcome)
    requires outcome.TimedOut? || outcome.ConnectFailed?
    ensures Complete(outcome) == Completion(false, [], true)
  {
  }

  /**
   * The run of a whole negotiation: greeting `05 01 00`, CONNECT to
   * 127.0.0.1:80, and a connect bound at `addr`:`port`.  The client sees the
   * no-auth reply and then the success reply; the upstream then receives the
   * client's next chunk verbatim.
   */
  method ConnectScenario(addr: Addr4, port: Port, payload: seq<Byte>)
    returns (toClient: seq<Byte>, target: Endpoint, toUpstream: seq<Byte>)
    ensures toClient == [0x05, 0x00] + [0x05, 0x00, 0x00, 0x01] + addr + PortBytes(port)
    ensures target == Endpoint(IPv4([127, 0, 0, 1]), 80)
    ensures toUpstream == payload
  {
    var s := new Server(30);
    GreetingAccepted(false, [0x01, 0x00]);
    var err := s.DataReceived([Version] + [0x01, 0x00]);
    assert s.state == Host && s.toClient == NoAuthReply;

    var expected := Endpoint(IPv4([127, 0, 0, 1]), 80);
    RequestRoundTrip(0x00, expected, []);
    var request := [Version, CmdConnect, 0x00] + EncodeAddress(expected) + [];
    assert PortBytes(80) == [0x00, 0x50];
    assert request == [0x05, 0x01, 0x00, 0x01, 127, 0, 0, 1, 0x00, 0x50];
    RequestAccepted(false, request);
    err := s.DataReceived(request);
    assert s.state == Data && s.connects == [expected] && s.toClient == NoAuthReply;

    s.Connect(Established(Inet4Name(addr, port)));
    assert s.upstreamSet && !s.clientClosed;

    RelayForwardsVerbatim(payload);
    err := s.DataReceived(payload);
    toClient, target, toUpstream := s.toClient, s.connects[0], s.toUpstream;
  }

  /**
   * As written, an upstream bound to an IPv6 address is never announced but
   * still relayed to: after a CONNECT and a dial that yields an IPv6 socket,
   * the client has seen only `05 00`, its connection is open, and its next
   * chunk is forwarded upstream.
   */
  method RelayWithoutReply(target: Endpoint, bound: Addr16, port: Port, flowInfo: Word32, scopeId: Word32,
                           payload: seq<Byte>)
    returns (toClient: seq<Byte>, clientClosed: bool, toUpstream: seq<Byte>)
    requires ValidHost(target.host)
    ensures toClient == [0x05, 0x00] && !clientClosed && toUpstream == payload
  {
    var s := new Server(30);
    GreetingAccepted(false, [0x01, 0x00]);
    var err := s.DataReceived([Version] + [0x01, 0x00]);
    RequestRoundTrip(0x00, target, []);
    var request := [Version, CmdConnect, 0x00] + EncodeAddress(target) + [];
    RequestAccepted(false, request);
    err := s.DataReceived(request);
    assert s.state == Data && s.toClient == NoAuthReply;
    s.Connect(Established(Inet6Name(bound, port, flowInfo, scopeId)));
    assert s.upstreamSet && !s.clientClosed && s.toClient == NoAuthReply;
    RelayForwardsVerbatim(payload);
    err := s.DataReceived(payload);
    toClient, clientClosed, toUpstream := s.toClient, s.clientClosed, s.toUpstream;
  }

  /** The intended completion differs from the code only for an IPv6 socket and an uncaught dial exception. */
  lemma IntendedCompleteAgrees(outcome: ConnectOutcome)
    requires !(outcome.Established? && outcome.sockname.Inet6Name?) && !outcome.DialRaised?
    ensures IntendedComplete(outcome) == Complete(outcome)
  {
  }

  /**
   * As written, a dial that raises neither TimeoutError nor OSError leaves
   * the client hanging: after a CONNECT to any target, the client has seen
   * only `05 00`, its connection stays open, and each later chunk is refused
   * because no upstream was ever set.
   */
  method HungClient(target: Endpoint, payload: seq<Byte>)
    returns (toClient: seq<Byte>, clientClosed: bool, err: Option<ReceiveError>)
    requires ValidHost(target.host)
    ensures toClient == [0x05, 0x00] && !clientClosed && err == Some(NoUpstream)
  {
    var s := new Server(30);
    GreetingAccepted(false, [0x01, 0x00]);
    err := s.DataReceived([Version] + [0x01, 0x00]);
    RequestRoundTrip(0x00, target, []);
    var request := [Version, CmdConnect, 0x00] + EncodeAddress(target) + [];
    RequestAccepted(false, request);
    err := s.DataReceived(request);
    assert s.state == Data && s.toClient == NoAuthReply;
    s.Connect(DialRaised);
    assert !s.upstreamSet && !s.clientClosed && s.toClient == NoAuthReply;
    err := s.DataReceived(payload);
    toClient, clientClosed := s.toClient, s.clientClosed;
  }
}
