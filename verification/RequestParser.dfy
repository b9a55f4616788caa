/** src/server/request_parser.c: requests and replies of sections 4 to 6 of RFC 1928. */
module RequestParser {
  import opened Bytes
  import opened Buffers
  import opened Incremental

  const PROTOCOL_VERSION: byte := 5
  const CONNECT: byte := 1
  const RSV: byte := 0
  const IPV4: byte := 1
  const DN: byte := 3
  const IPV6: byte := 4

  const CON_SUCCEEDED: byte := 0
  const CON_SERVER_FAILURE: byte := 1
  const CON_HOST_UNREACHABLE: byte := 4
  const CON_COMMAND_NOT_SUPPORTED: byte := 7
  const CON_ATYPE_NOT_SUPPORTED: byte := 8

  datatype State =
    | ReqVersion | ReqCmd | ReqRsv | ReqAtyp | ReqDstAddrLength | ReqDstAddr | ReqDstPort | ReqDone | ReqError

  /** `address` is the union of in_addr, in6_addr and the name; `buffer` is where its bytes gather. */
  datatype RawReq = Req(state: State, status: byte, atyp: byte, addrLen: byte, bytesRead: byte, port: nat,
                        address: Field, buffer: Field)

  predicate BeforeAddress(s: State) {
    s.ReqVersion? || s.ReqCmd? || s.ReqRsv? || s.ReqAtyp? || s.ReqDstAddrLength?
  }

  predicate Coherent(s: State, atyp: byte, bytesRead: byte) {
    && (BeforeAddress(s) ==> bytesRead == 0)
    && (s.ReqDstAddrLength? ==> atyp == DN)
    && (s.ReqDstAddr? || s.ReqDstPort? || s.ReqDone? ==> atyp in {IPV4, IPV6, DN})
  }

  type Req = p: RawReq | Coherent(p.state, p.atyp, p.bytesRead)
    witness Req(ReqVersion, 0, 0, 0, 0, 0, Zeros(), Zeros())

  /** `initialize_request_parser` leaves the address type and the arrays as they were. */
  function Init(atyp: byte, address: Field, buffer: Field): Req {
    Req(ReqVersion, CON_SERVER_FAILURE, atyp, 0, 0, 0, address, buffer)
  }

  predicate Done(p: Req) { p.state == ReqDone || p.state == ReqError }

  /** The `memcpy` out of `buffer` when the last address byte has arrived. */
  function Copied(atyp: byte, address: Field, buffer: Field, n: byte): Field {
    if atyp == DN then Store(address, 0, buffer[..n] + [0]) else Store(address, 0, buffer[..n])
  }

  function Step(p: Req, b: byte): Req {
    match p.state
    case ReqVersion => p.(state := if b == PROTOCOL_VERSION then ReqCmd else ReqError)
    case ReqCmd =>
      if b == CONNECT then p.(state := ReqRsv) else p.(state := ReqError, status := CON_COMMAND_NOT_SUPPORTED)
    case ReqRsv =>
      if b == RSV then p.(state := ReqAtyp) else p.(state := ReqError, status := CON_SERVER_FAILURE)
    case ReqAtyp =>
      if b == IPV4 then p.(atyp := b, state := ReqDstAddr, addrLen := 4)
      else if b == IPV6 then p.(atyp := b, state := ReqDstAddr, addrLen := 16)
      else if b == DN then p.(atyp := b, state := ReqDstAddrLength)
      else p.(atyp := b, state := ReqError, status := CON_ATYPE_NOT_SUPPORTED)
    case ReqDstAddrLength => p.(addrLen := b, state := ReqDstAddr)
    case ReqDstAddr =>
      var buffer := p.buffer[p.bytesRead := b];
      var n := Inc(p.bytesRead);
      if n == p.addrLen then
        p.(buffer := buffer, address := Copied(p.atyp, p.address, buffer, n), state := ReqDstPort, bytesRead := 0)
      else p.(buffer := buffer, bytesRead := n)
    case ReqDstPort =>
      if p.bytesRead == 0 then p.(bytesRead := 1, port := 256 * b)
      else p.(port := Or(p.port, b), bytesRead := 0, state := ReqDone)
    case _ => p
  }

  function Parse(p: Req, input: seq<byte>): (Req, seq<byte>) { Feed(Step, Done, p, input) }

  function Rank(p: Req): nat {
    match p.state
    case ReqVersion => 263
    case ReqCmd => 262
    case ReqRsv => 261
    case ReqAtyp => 260
    case ReqDstAddrLength => 259
    case ReqDstAddr =>
      2 + (if p.bytesRead < p.addrLen then p.addrLen - p.bytesRead else 256 - p.bytesRead + p.addrLen)
    case ReqDstPort => if p.bytesRead == 0 then 2 else 1
    case _ => 0
  }

  /** Every stream ends the parser within 263 bytes, an empty name included. */
  lemma Terminates(atyp: byte, address: Field, buffer: Field, input: seq<byte>)
    ensures |input| - |Parse(Init(atyp, address, buffer), input).1| <= 263
    ensures |input| >= 263 ==> Done(Parse(Init(atyp, address, buffer), input).0)
  {
    RankBounds(Step, Done, Rank, Init(atyp, address, buffer), input);
  }

  /** Bytes of the address field for an address type and, for names, a declared length. */
  function AddressLength(atyp: byte, n: byte): nat {
    if atyp == IPV4 then 4 else if atyp == IPV6 then 16 else FieldLength(n)
  }

  /** A CONNECT request as the parser reads it: a declared name length of 0 takes 256 bytes. */
  function Encode(atyp: byte, n: byte, address: seq<byte>, high: byte, low: byte): seq<byte> {
    [PROTOCOL_VERSION, CONNECT, RSV, atyp] + (if atyp == DN then [n] else []) + address + [high, low]
  }

  lemma ParseHeader(p: Req, atyp: byte, n: byte, rest: seq<byte>)
    requires p.state == ReqVersion && atyp in {IPV4, IPV6, DN}
    requires atyp == IPV4 ==> n == 4
    requires atyp == IPV6 ==> n == 16
    ensures var header := [PROTOCOL_VERSION, CONNECT, RSV, atyp] + (if atyp == DN then [n] else []);
            Parse(p, header + rest) == Parse(p.(atyp := atyp, state := ReqDstAddr, addrLen := n), rest)
  {
    var input := [PROTOCOL_VERSION, CONNECT, RSV, atyp] + (if atyp == DN then [n] else []) + rest;
    var p1 := Step(p, input[0]);
    var p2 := Step(p1, input[1]);
    var p3 := Step(p2, input[2]);
    var p4 := Step(p3, input[3]);
    Four(p, input);
    if atyp == DN {
      assert input[4..][1..] == rest;
      assert Parse(p4, input[4..]) == Parse(Step(p4, n), rest);
    } else {
      assert input[4..] == rest;
    }
  }

  lemma Four(p: Req, input: seq<byte>)
    requires |input| >= 4 && input[..3] == [PROTOCOL_VERSION, CONNECT, RSV] && p.state == ReqVersion
    ensures Parse(p, input) == Parse(Step(p.(state := ReqAtyp), input[3]), input[4..])
  {
    assert input[0] == input[..3][0] && input[1] == input[..3][1] && input[2] == input[..3][2];
    var p1 := Step(p, input[0]);
    var p2 := Step(p1, input[1]);
    var p3 := Step(p2, input[2]);
    assert input[1..][1..] == input[2..] && input[2..][1..] == input[3..] && input[3..][1..] == input[4..];
    assert Parse(p, input) == Parse(p1, input[1..]);
    assert Parse(p1, input[1..]) == Parse(p2, input[2..]);
    assert Parse(p2, input[2..]) == Parse(p3, input[3..]);
    assert p3 == p.(state := ReqAtyp);
  }

  /** The state after the last byte of the address. */
  function AddressRead(p: Req, bs: seq<byte>): Req
    requires p.state == ReqDstAddr && p.bytesRead + |bs| == FieldLength(p.addrLen)
  {
    var buffer := Store(p.buffer, p.bytesRead, bs);
    p.(buffer := buffer, address := Copied(p.atyp, p.address, buffer, p.addrLen), state := ReqDstPort, bytesRead := 0)
  }

  lemma AddressReadByByte(p: Req, bs: seq<byte>)
    requires p.state == ReqDstAddr
    requires p.bytesRead < FieldLength(p.addrLen) == p.bytesRead + |bs|
    ensures var p' := Step(p, bs[0]);
            && (|bs| == 1 ==> p' == AddressRead(p, bs))
            && (|bs| > 1 ==> p'.state == ReqDstAddr && p'.bytesRead == p.bytesRead + 1 && p'.addrLen == p.addrLen)
            && (|bs| > 1 ==> AddressRead(p', bs[1..]) == AddressRead(p, bs))
  {
    hide Store;
    StoreOneMore(p.buffer, p.bytesRead, bs);
    if |bs| == 1 {
      StoreNothing(p.buffer[p.bytesRead := bs[0]], p.bytesRead + 1);
      assert bs[1..] == [];
    }
  }

  lemma {:induction false} ParseAddress(p: Req, bs: seq<byte>, rest: seq<byte>)
    requires p.state == ReqDstAddr
    requires p.bytesRead < FieldLength(p.addrLen) == p.bytesRead + |bs|
    ensures Parse(p, bs + rest) == Parse(AddressRead(p, bs), rest)
    decreases |bs|
  {
    var p' := Step(p, bs[0]);
    assert (bs + rest)[0] == bs[0] && (bs + rest)[1..] == bs[1..] + rest;
    assert Parse(p, bs + rest) == Parse(p', bs[1..] + rest);
    AddressReadByByte(p, bs);
    if |bs| == 1 {
      assert bs[1..] + rest == rest;
    } else {
      ParseAddress(p', bs[1..], rest);
    }
  }

  lemma {:induction false} AddressTooShort(p: Req, input: seq<byte>)
    requires p.state == ReqDstAddr && p.bytesRead + |input| < FieldLength(p.addrLen)
    ensures Parse(p, input).0.state == ReqDstAddr
    decreases |input|
  {
    if input != [] {
      AddressTooShort(Step(p, input[0]), input[1..]);
    }
  }

  lemma ParsePort(p: Req, high: byte, low: byte, rest: seq<byte>)
    requires p.state == ReqDstPort && p.bytesRead == 0
    ensures Parse(p, [high, low] + rest) == (p.(port := 256 * high + low, state := ReqDone), rest)
  {
    var input := [high, low] + rest;
    var p1 := Step(p, high);
    var p2 := Step(p1, low);
    OrOfPortBytes(high, low);
    assert input[1..][1..] == rest;
    assert Parse(p, input) == Parse(p1, input[1..]) == Parse(p2, rest);
  }

  /** The address as the rest of the server reads it out of the union. */
  predicate Names(address: Field, atyp: byte, bs: seq<byte>) {
    |bs| <= 255 && address[..|bs|] == bs && (atyp == DN ==> address[|bs|] == 0)
  }

  /** A request is consumed exactly, and its address and port are those sent. */
  lemma Reads(p: Req, atyp: byte, n: byte, bs: seq<byte>, high: byte, low: byte, rest: seq<byte>)
    requires p.state == ReqVersion && atyp in {IPV4, IPV6, DN} && |bs| == AddressLength(atyp, n)
    ensures var r := Parse(p, Encode(atyp, n, bs, high, low) + rest);
            && r.0.state == ReqDone && r.1 == rest
            && r.0.atyp == atyp && r.0.port == 256 * high + low && r.0.status == p.status
            && Names(r.0.address, atyp, if |bs| == 256 then [] else bs)
  {
    var len: byte := if atyp == IPV4 then 4 else if atyp == IPV6 then 16 else n;
    var tail := [high, low] + rest;
    var header := [PROTOCOL_VERSION, CONNECT, RSV, atyp] + (if atyp == DN then [len] else []);
    assert Encode(atyp, n, bs, high, low) + rest == header + (bs + tail);
    ParseHeader(p, atyp, len, bs + tail);
    var q: Req := p.(atyp := atyp, state := ReqDstAddr, addrLen := len);
    ParseAddress(q, bs, tail);
    var q' := AddressRead(q, bs);
    ParsePort(q', high, low, rest);
    if |bs| < 256 {
      assert q'.buffer[..len] == bs;
      assert q'.address[..len] == bs;
    }
  }

  /** Every CONNECT of the protocol round-trips: any address, 1..255-byte name, port and trailing bytes. */
  lemma RoundTrip(p: Req, atyp: byte, bs: seq<byte>, high: byte, low: byte, rest: seq<byte>)
    requires p.state == ReqVersion
    requires (atyp == IPV4 && |bs| == 4) || (atyp == IPV6 && |bs| == 16) || (atyp == DN && 1 <= |bs| <= 255)
    ensures var r := Parse(p, Encode(atyp, |bs|, bs, high, low) + rest);
            && r.0.state == ReqDone && r.1 == rest
            && r.0.atyp == atyp && Names(r.0.address, atyp, bs) && r.0.port == 256 * high + low
  {
    Reads(p, atyp, |bs|, bs, high, low, rest);
  }

  predicate IsRequest(input: seq<byte>, atyp: byte, n: byte, bs: seq<byte>, high: byte, low: byte, rest: seq<byte>) {
    && atyp in {IPV4, IPV6, DN} && |bs| == AddressLength(atyp, n)
    && input == Encode(atyp, n, bs, high, low) + rest
  }

  /** The error status that the first four bytes already decide, or 0. */
  function HeaderError(input: seq<byte>): byte {
    if |input| >= 1 && input[0] != PROTOCOL_VERSION then CON_SERVER_FAILURE
    else if |input| >= 2 && input[1] != CONNECT then CON_COMMAND_NOT_SUPPORTED
    else if |input| >= 3 && input[2] != RSV then CON_SERVER_FAILURE
    else if |input| >= 4 && input[3] !in {IPV4, IPV6, DN} then CON_ATYPE_NOT_SUPPORTED
    else 0
  }

  /** Done exactly on a request; in error exactly on a bad header, with that header's non-zero status. */
  lemma Grammar(p: Req, input: seq<byte>)
    requires p.state == ReqVersion && p.status == CON_SERVER_FAILURE
    ensures var r := Parse(p, input);
            && (r.0.state == ReqDone <==>
                exists atyp, n, bs, high, low, rest :: IsRequest(input, atyp, n, bs, high, low, rest))
            && (r.0.state == ReqError <==> HeaderError(input) != 0)
            && (r.0.state == ReqError ==> r.0.status == HeaderError(input))
  {
    forall atyp, n, bs, high, low, rest | IsRequest(input, atyp, n, bs, high, low, rest)
      ensures Parse(p, input).0.state == ReqDone
    {
      Reads(p, atyp, n, bs, high, low, rest);
    }
    if |input| >= 4 && HeaderError(input) == 0 {
      GrammarAfterHeader(p, input);
    } else {
      BadHeader(p, input);
    }
  }

  lemma BadHeader(p: Req, input: seq<byte>)
    requires p.state == ReqVersion && p.status == CON_SERVER_FAILURE
    requires |input| < 4 || HeaderError(input) != 0
    ensures var r := Parse(p, input);
            && r.0.state != ReqDone
            && (r.0.state == ReqError <==> HeaderError(input) != 0)
            && (r.0.state == ReqError ==> r.0.status == HeaderError(input))
  {
    if input != [] {
      var p1 := Step(p, input[0]);
      assert Parse(p, input) == Parse(p1, input[1..]);
      if |input| >= 2 && input[0] == PROTOCOL_VERSION {
        var p2 := Step(p1, input[1]);
        assert input[1..][1..] == input[2..];
        assert Parse(p1, input[1..]) == Parse(p2, input[2..]);
        if |input| >= 3 && input[1] == CONNECT {
          var p3 := Step(p2, input[2]);
          assert input[2..][1..] == input[3..];
          assert Parse(p2, input[2..]) == Parse(p3, input[3..]);
          if |input| >= 4 && input[2] == RSV {
            assert input[3..][1..] == input[4..];
            assert Parse(p3, input[3..]) == Parse(Step(p3, input[3]), input[4..]);
          }
        }
      }
    }
  }

  lemma GrammarAfterHeader(p: Req, input: seq<byte>)
    requires p.state == ReqVersion && |input| >= 4 && HeaderError(input) == 0
    ensures var r := Parse(p, input);
            && (r.0.state == ReqDone ==>
                exists atyp, n, bs, high, low, rest :: IsRequest(input, atyp, n, bs, high, low, rest))
            && r.0.state != ReqError
  {
    assert input[..3] == [PROTOCOL_VERSION, CONNECT, RSV];
    var atyp := input[3];
    var q := Step(p.(state := ReqAtyp), atyp);
    Four(p, input);
    if atyp != DN {
      AddressPresent(q, input[4..]);
      if Parse(q, input[4..]).0.state == ReqDone {
        SplitRequest(input, atyp, 0, input[4..]);
      }
    } else if |input| > 4 {
      assert input[4..][1..] == input[5..];
      var q' := Step(q, input[4]);
      assert Parse(q, input[4..]) == Parse(q', input[5..]);
      AddressPresent(q', input[5..]);
      if Parse(q', input[5..]).0.state == ReqDone {
        SplitRequest(input, atyp, input[4], input[5..]);
      }
    }
  }

  lemma AddressPresent(q: Req, tail: seq<byte>)
    requires q.state == ReqDstAddr && q.bytesRead == 0
    ensures var r := Parse(q, tail);
            && (r.0.state == ReqDone ==> FieldLength(q.addrLen) + 2 <= |tail|)
            && r.0.state != ReqError
  {
    var n := FieldLength(q.addrLen);
    if n > |tail| {
      AddressTooShort(q, tail);
    } else {
      assert tail == tail[..n] + tail[n..];
      ParseAddress(q, tail[..n], tail[n..]);
      var q' := AddressRead(q, tail[..n]);
      if |tail| == n + 1 {
        assert tail[n..][1..] == [];
        assert Parse(q', tail[n..]) == Parse(Step(q', tail[n]), []);
      } else if |tail| > n + 1 {
        assert tail[n..] == [tail[n], tail[n + 1]] + tail[n + 2..];
        ParsePort(q', tail[n], tail[n + 1], tail[n + 2..]);
      }
    }
  }

  lemma SplitRequest(input: seq<byte>, atyp: byte, n: byte, tail: seq<byte>)
    requires atyp in {IPV4, IPV6, DN} && AddressLength(atyp, n) + 2 <= |tail|
    requires input == [PROTOCOL_VERSION, CONNECT, RSV, atyp] + (if atyp == DN then [n] else []) + tail
    ensures exists a, m, bs, high, low, rest :: IsRequest(input, a, m, bs, high, low, rest)
  {
    var k := AddressLength(atyp, n);
    assert tail == tail[..k] + [tail[k], tail[k + 1]] + tail[k + 2..];
    assert IsRequest(input, atyp, n, tail[..k], tail[k], tail[k + 1], tail[k + 2..]);
  }

  /** The bytes on the wire: a request of each address type, and what the first wrong byte of one is refused with. */
  lemma WireFormat(n: byte, address: seq<byte>, high: byte, low: byte, input: seq<byte>)
    ensures Encode(1, n, address, high, low) == [5, 1, 0, 1] + address + [high, low]
    ensures Encode(3, n, address, high, low) == [5, 1, 0, 3, n] + address + [high, low]
    ensures Encode(4, n, address, high, low) == [5, 1, 0, 4] + address + [high, low]
    ensures AddressLength(1, n) == 4 && AddressLength(4, n) == 16
    ensures |input| >= 1 && input[0] != 5 ==> HeaderError(input) == 1
    ensures |input| >= 2 && input[0] == 5 && input[1] != 1 ==> HeaderError(input) == 7
    ensures |input| >= 3 && input[0] == 5 && input[1] == 1 && input[2] != 0 ==> HeaderError(input) == 1
    ensures |input| >= 4 && input[..3] == [5, 1, 0] && input[3] !in {1, 3, 4} ==> HeaderError(input) == 8
    ensures |input| >= 4 && input[..3] == [5, 1, 0] && input[3] in {1, 3, 4} ==> HeaderError(input) == 0
    ensures Reply(0, Inet(address, [high, low])) == [5, 0, 0, 1] + address + [high, low]
    ensures Reply(0, Inet6(address, [high, low])) == [5, 0, 0, 4] + address + [high, low]
  {
    if |input| >= 4 && input[..3] == [5, 1, 0] {
      assert input[0] == input[..3][0] && input[1] == input[..3][1] && input[2] == input[..3][2];
    }
    assert Encode(3, n, address, high, low) == [5, 1, 0, 3, n] + address + [high, low];
    assert Reply(0, Inet(address, [high, low])) == [5, 0, 0, 1] + address + [high, low];
    assert Reply(0, Inet6(address, [high, low])) == [5, 0, 0, 4] + address + [high, low];
  }

  // ---------------------------------------------------------------- replies

  /** A `sockaddr_storage`, address and port in network order. */
  datatype SockAddr =
    | Inet(addr: seq<byte>, port: seq<byte>)
    | Inet6(addr: seq<byte>, port: seq<byte>)
    | OtherFamily
  {
    predicate Valid() {
      && (Inet? ==> |addr| == 4 && |port| == 2)
      && (Inet6? ==> |addr| == 16 && |port| == 2)
    }
  }

  const NO_ADDRESS := Inet([0, 0, 0, 0], [0, 0])

  /** The bytes that `req_generate_response` builds. */
  function Reply(status: byte, bound: SockAddr): seq<byte> {
    [PROTOCOL_VERSION, status, RSV] +
    if status == CON_SUCCEEDED && bound.Inet? then [IPV4] + bound.addr + bound.port
    else if status == CON_SUCCEEDED && bound.Inet6? then [IPV6] + bound.addr + bound.port
    else [IPV4, 0, 0, 0, 0, 0, 0]
  }

  /** What a client reads in a reply, and how many bytes it takes; the reader of section 6 of RFC 1928. */
  datatype Answer = Answer(status: byte, bound: SockAddr, length: nat) | Malformed

  function DecodeReply(bs: seq<byte>): Answer {
    if |bs| < 4 || bs[0] != PROTOCOL_VERSION || bs[2] != RSV then Malformed
    else if bs[3] == IPV4 && |bs| >= 10 then Answer(bs[1], Inet(bs[4..8], bs[8..10]), 10)
    else if bs[3] == IPV6 && |bs| >= 22 then Answer(bs[1], Inet6(bs[4..20], bs[20..22]), 22)
    else Malformed
  }

  /** A client reads back the status, and the bound address on success or zeros on failure. */
  lemma ReplyRoundTrip(status: byte, bound: SockAddr, rest: seq<byte>)
    requires bound.Valid()
    ensures DecodeReply(Reply(status, bound) + rest)
         == Answer(status, if status == CON_SUCCEEDED && !bound.OtherFamily? then bound else NO_ADDRESS,
                   |Reply(status, bound)|)
  {
    var bs := Reply(status, bound) + rest;
    if status == CON_SUCCEEDED && bound.Inet6? {
      assert bs[4..20] == bound.addr && bs[20..22] == bound.port;
    } else if status == CON_SUCCEEDED && bound.Inet? {
      assert bs[4..8] == bound.addr && bs[8..10] == bound.port;
    } else {
      assert bs[4..8] == [0, 0, 0, 0] && bs[8..10] == [0, 0];
    }
  }

  /** `bs` cut to the room that is left. */
  function Fit(b: Buf, bs: seq<byte>): seq<byte>
    requires b.Valid()
  {
    if |bs| <= b.Space() then bs else bs[..b.Space()]
  }

  /** Status 0 iff the reply fits; the buffer gains the longest prefix that does. */
  function Respond(p: Req, b: Buf, bound: SockAddr): (int, Buf)
    requires b.Valid()
  {
    var reply := Reply(p.status, bound);
    (if |reply| <= b.Space() then 0 else 1, b.Append(Fit(b, reply)))
  }

  lemma ParseByte(p: Req, input: seq<byte>, k: nat)
    requires k < |input| && !Done(p)
    ensures Parse(p, input[k..]) == Parse(Step(p, input[k]), input[k + 1..])
  {
    assert input[k..][1..] == input[k + 1..];
  }

  lemma ParseStops(p: Req, input: seq<byte>)
    requires input == [] || Done(p)
    ensures Parse(p, input) == (p, input)
  {
  }

  class Parser {
    var currentState: State
    var connectionStatus: byte
    var atyp: byte
    var addrLen: byte
    var bytesRead: byte
    var port: nat
    const address: array<byte>
    const buffer: array<byte>

    ghost predicate Valid()
      reads this
    {
      && address.Length == buffer.Length == FIELD_SIZE && address != buffer
      && Coherent(currentState, atyp, bytesRead)
    }

    ghost function View(): Req
      reads this, address, buffer
      requires Valid()
    {
      Req(currentState, connectionStatus, atyp, addrLen, bytesRead, port, address[..], buffer[..])
    }

    constructor ()
      ensures Valid() && fresh(address) && fresh(buffer) && View() == Init(0, Zeros(), Zeros())
    {
      currentState, connectionStatus := ReqVersion, CON_SERVER_FAILURE;
      atyp, addrLen, bytesRead, port := 0, 0, 0, 0;
      address := new byte[FIELD_SIZE](_ => 0);
      buffer := new byte[FIELD_SIZE](_ => 0);
      new;
      assert address[..] == Zeros() && buffer[..] == Zeros();
    }

    method Initialize()
      requires Valid()
      modifies this
      ensures Valid() && View() == Init(old(atyp), address[..], buffer[..])
    {
      currentState := ReqVersion;
      connectionStatus := CON_SERVER_FAILURE;
      addrLen := 0;
      bytesRead := 0;
      port := 0;
    }

    method ParseVersion(version: byte)
      requires Valid() && currentState == ReqVersion
      modifies this
      ensures Valid() && View() == Step(old(View()), version)
    {
      if version == PROTOCOL_VERSION {
        currentState := ReqCmd;
        return;
      }
      currentState := ReqError;
    }

    method ParseCmd(cmd: byte)
      requires Valid() && currentState == ReqCmd
      modifies this
      ensures Valid() && View() == Step(old(View()), cmd)
    {
      if cmd == CONNECT {
        currentState := ReqRsv;
        return;
      }
      currentState := ReqError;
      connectionStatus := CON_COMMAND_NOT_SUPPORTED;
    }

    method ParseRsv(rsv: byte)
      requires Valid() && currentState == ReqRsv
      modifies this
      ensures Valid() && View() == Step(old(View()), rsv)
    {
      if rsv == RSV {
        currentState := ReqAtyp;
        return;
      }
      currentState := ReqError;
      connectionStatus := CON_SERVER_FAILURE;
    }

    method ParseAtyp(b: byte)
      requires Valid() && currentState == ReqAtyp
      modifies this
      ensures Valid() && View() == Step(old(View()), b)
    {
      atyp := b;
      if b == IPV4 {
        currentState := ReqDstAddr;
        addrLen := 4;
      } else if b == IPV6 {
        currentState := ReqDstAddr;
        addrLen := 16;
      } else if b == DN {
        currentState := ReqDstAddrLength;
      } else {
        currentState := ReqError;
        connectionStatus := CON_ATYPE_NOT_SUPPORTED;
      }
    }

    method ParseDstAddrLength(n: byte)
      requires Valid() && currentState == ReqDstAddrLength
      modifies this
      ensures Valid() && View() == Step(old(View()), n)
    {
      addrLen := n;
      currentState := ReqDstAddr;
    }

    /** The `memcpy` of the first `n` gathered bytes into the address union. */
    method CopyAddress(n: byte)
      requires Valid()
      modifies address
      ensures address[..] == Store(old(address[..]), 0, buffer[..n])
    {
      for i := 0 to n
        invariant address[..i] == buffer[..i]
        invariant address[i..] == old(address[..])[i..]
      {
        address[i] := buffer[i];
      }
      assert address[..] == address[..n] + address[n..];
    }

    method ParseDstAddr(b: byte)
      requires Valid() && currentState == ReqDstAddr
      modifies this, address, buffer
      ensures Valid() && View() == Step(old(View()), b)
    {
      ghost var p := View();
      buffer[bytesRead] := b;
      bytesRead := Inc(bytesRead);
      if bytesRead == addrLen {
        ghost var n := addrLen;
        CopyAddress(addrLen);
        if atyp == DN {
          assert address[..n] == buffer[..n] && address[n..] == p.address[n..];
          address[addrLen] := 0;
          assert address[..] == Store(p.address, 0, buffer[..n] + [0]);
        }
        currentState := ReqDstPort;
        bytesRead := 0;
      }
    }

    method ParseDstPort(b: byte)
      requires Valid() && currentState == ReqDstPort
      modifies this
      ensures Valid() && View() == Step(old(View()), b)
    {
      if bytesRead == 0 {
        bytesRead := bytesRead + 1;
        port := 256 * b;
      } else {
        port := Or(port, b);
        bytesRead := 0;
        currentState := ReqDone;
      }
    }

    predicate IsDone()
      reads this, address, buffer
      requires Valid()
      ensures IsDone() <==> Done(View())
    {
      currentState == ReqDone || currentState == ReqError
    }

    /** `req_parse`. */
    method Run(input: Buffer)
      requires Valid() && input.Valid() && input.data !in {address, buffer}
      modifies this, address, buffer, input, input.data
      ensures Valid() && input.Valid()
      ensures var b := old(input.View()); var r := Parse(old(View()), b.contents);
              && View() == r.0
              && input.View() == if r.1 == b.contents then b else b.Drop(|b.contents| - |r.1|)
      ensures IsDone() || input.View() == Buf(0, [], input.data.Length)
    {
      hide Parse, Step;
      ghost var b, p0 := input.View(), View();
      ghost var k := 0;
      assert b.contents[0..] == b.contents;
      while input.CanRead() && !IsDone()
        invariant Valid() && input.Valid() && k <= |b.contents|
        invariant input.View() == if k == 0 then b else b.Drop(k)
        invariant input.View().contents == b.contents[k..]
        invariant Parse(p0, b.contents) == Parse(View(), b.contents[k..])
        decreases |b.contents| - k
      {
        ParseByte(View(), b.contents, k);
        ghost var p := View();
        var c := input.ReadByte();
        assert View() == p;
        match currentState {
          case ReqVersion => ParseVersion(c);
          case ReqCmd => ParseCmd(c);
          case ReqRsv => ParseRsv(c);
          case ReqAtyp => ParseAtyp(c);
          case ReqDstAddrLength => ParseDstAddrLength(c);
          case ReqDstAddr => ParseDstAddr(c);
          case ReqDstPort => ParseDstPort(c);
        }
        k := k + 1;
      }
      ParseStops(View(), b.contents[k..]);
    }

    /** The first part of `req_generate_response`: fill the local array. */
    method BuildResponse(bound: SockAddr) returns (response: seq<byte>)
      ensures response == Reply(connectionStatus, bound)
    {
      response := [PROTOCOL_VERSION, connectionStatus, RSV];
      if connectionStatus == CON_SUCCEEDED {
        match bound {
          case Inet(addr, p) => response := response + ([IPV4] + addr + p);
          case Inet6(addr, p) => response := response + ([IPV6] + addr + p);
          case OtherFamily => response := response + [IPV4, 0, 0, 0, 0, 0, 0];
        }
      } else {
        response := response + [IPV4, 0, 0, 0, 0, 0, 0];
      }
    }

    /** `req_generate_response`: write the bytes one by one while there is room. */
    method GenerateResponse(output: Buffer, bound: SockAddr) returns (result: int)
      requires Valid() && output.Valid() && output.data !in {address, buffer}
      modifies output, output.data
      ensures output.Valid()
      ensures (result, output.View()) == Respond(View(), old(output.View()), bound)
    {
      hide Reply;
      var response := BuildResponse(bound);
      result := WriteAll(output, response);
    }
  }

  method WriteAll(output: Buffer, bs: seq<byte>) returns (result: int)
    requires output.Valid()
    modifies output, output.data
    ensures output.Valid() && result == if |bs| <= old(output.View()).Space() then 0 else 1
    ensures output.View() == old(output.View()).Append(Fit(old(output.View()), bs))
  {
    ghost var b := output.View();
    for i := 0 to |bs|
      invariant output.Valid() && i <= b.Space()
      invariant output.View() == b.Append(bs[..i])
    {
      if !output.CanWrite() {
        return 1;
      }
      output.WriteByte(bs[i]);
      assert b.contents + bs[..i] + [bs[i]] == b.contents + bs[..i + 1];
    }
    assert bs[..|bs|] == bs;
    return 0;
  }
}
