/**
 * One client's connection: `client_data` of src/headers/socks5.h and the handlers of negotiation.c,
 * authentication.c, request.c, copy.c and socks5.c, as functions of the connection, the selector's
 * table and what the kernel answers. The fields after `username` are history: they record the bytes and
 * calls that have gone by, and no handler looks at them.
 */
module Connection {
  import opened Bytes
  import opened Results
  import opened Buffers
  import opened SelectorTable
  import N = NegotiationParser
  import A = AuthenticationParser
  import R = RequestParser
  import SM = StateMachine
  import U = Users

  datatype SocksState =
    | NegotiationRead | NegotiationWrite | AuthRead | AuthWrite | ReqRead | ReqResolve | ReqConnect | ReqWrite
    | Copy | SocksDone | SocksError

  /** `client_actions`: the events each state has a handler for. */
  function Handlers(s: SocksState): set<SM.Kind> {
    match s
    case NegotiationRead => {SM.Read}
    case NegotiationWrite => {SM.Write}
    case AuthRead => {SM.Read}
    case AuthWrite => {SM.Write}
    case ReqRead => {SM.Read}
    case ReqResolve => {SM.Block}
    case ReqConnect => {SM.Write}
    case ReqWrite => {SM.Write}
    case Copy => {SM.Read, SM.Write}
    case SocksDone => {}
    case SocksError => {}
  }

  /** Who a selector slot's attachment is. */
  datatype Owner = Client(id: nat) | Other

  type Slots = Table<Owner>

  /** The union of parsers. */
  datatype Handshake = InNegotiation(neg: N.Neg) | InAuthentication(auth: A.Auth) | InRequest(req: R.Req)

  /** Something `connect` can be asked to reach. */
  datatype Target = Target(atyp: byte, addr: seq<byte>, port: nat)

  /** Where an address list came from, hence how it must be released: `free` or `freeaddrinfo`. */
  datatype Source = Malloc | Getaddrinfo

  datatype AddressList = AddressList(source: Source, list: seq<Target>)

  /** A reply to a request, as it was built. */
  datatype Answered = Answered(status: byte, bound: R.SockAddr)

  /** The bytes of a series of replies. */
  function Joined(answers: seq<Answered>): seq<byte> {
    if answers == [] then []
    else
      var last := answers[|answers| - 1];
      Joined(answers[..|answers| - 1]) + R.Reply(last.status, last.bound)
  }

  /**
   * `replies` is everything queued for the client before the relay: in order, the method reply (`greeting`), the
   * login reply (`verdict`), the whole replies to the request (`answers`), and the part of a last one that no longer
   * fitted (`cut`). `atOnce` counts the connects that succeeded immediately.
   */
  datatype Conn = Conn(
    state: Option<SocksState>,
    handshake: Handshake,
    clientFd: int,
    originFd: int,
    clientEof: bool,
    originEof: bool,
    toServer: GoodBuf,
    toClient: GoodBuf,
    originAddr: Option<AddressList>,
    current: seq<Target>,
    username: string,
    received: seq<byte>,
    negBytes: seq<byte>,
    authBytes: seq<byte>,
    reqBytes: seq<byte>,
    toOrigin: seq<byte>,
    replies: seq<byte>,
    fromOrigin: seq<byte>,
    sent: seq<byte>,
    offered: seq<Target>,
    dialed: seq<Target>,
    obtained: seq<Source>,
    released: seq<Source>,
    greeting: seq<byte>,
    verdict: seq<byte>,
    answers: seq<Answered>,
    cut: seq<byte>,
    atOnce: nat)
  {
    function Neg(): Result<N.Neg> { if handshake.InNegotiation? then Ok(handshake.neg) else Crashed(WildAccess) }

    function Auth(): Result<A.Auth> { if handshake.InAuthentication? then Ok(handshake.auth) else Crashed(WildAccess) }

    function Req(): Result<R.Req> { if handshake.InRequest? then Ok(handshake.req) else Crashed(WildAccess) }
  }

  /** `socksv5_new`: calloc, two empty buffers, no origin. */
  function New(clientFd: int): Conn {
    Conn(None, InNegotiation(N.Neg(N.NegVersion, 0, 0)), clientFd, -1, false, false,
         Buf(0, [], BUFFER_SIZE), Buf(0, [], BUFFER_SIZE), None, [], "",
         [], [], [], [], [], [], [], [], [], [], [], [], [], [], [], [], 0)
  }

  /** What a callback is given. */
  datatype Key = Key(fd: int, id: nat)

  // ---------------------------------------------------------------- the kernel

  /** `recv`: bytes (none at end of stream), EAGAIN, or another error. */
  datatype Recv = Data(bytes: seq<byte>) | RecvAgain | RecvFails

  /** At most as many bytes as there is room for. */
  function Delivered(bytes: seq<byte>, space: nat): seq<byte> {
    if |bytes| <= space then bytes else bytes[..space]
  }

  /** `send`: how many bytes the kernel would take, EAGAIN, or another error. */
  datatype Send = Takes(n: nat) | SendAgain | SendFails

  function Taken(n: nat, available: nat): nat { if n <= available then n else available }

  datatype ConnectResult = Connected | InProgress | Refused

  /** One attempt at an address: `socket` fails, non-blocking mode fails, or `connect` answers. */
  datatype Attempt = NoSocket | NoNonBlocking | Opened(fd: int, result: ConnectResult)

  /**
   * The answers to the calls one callback may make: `recv`, `send`, one attempt per address, `getsockname` (None if
   * it fails), whether SO_ERROR is set, and whether `malloc` succeeds; and the user table as the callback finds it.
   */
  datatype Kernel = Kernel(recv: Recv, send: Send, attempts: seq<Attempt>, bound: Option<R.SockAddr>,
                           soError: bool, memory: bool, users: U.Table)

  /** The result of a handler; `spawned` when it started a resolver thread for its key. */
  datatype Turn = Turn(c: Conn, t: Slots, next: SocksState, spawned: bool)

  function Go(c: Conn, t: Slots, next: SocksState): Result<Turn> { Ok(Turn(c, t, next, false)) }

  // ---------------------------------------------------------------- state machine instance

  /** The on_arrival hooks. Arrays that the initialisers do not clear are taken as calloc left them. */
  function Arrive(c: Conn, s: SocksState): Conn {
    match s
    case NegotiationRead =>
      c.(handshake := InNegotiation(N.Init(if c.handshake.InNegotiation? then c.handshake.neg.quantity else 0)))
    case AuthRead => c.(handshake := InAuthentication(A.Init(Zeros(), Zeros())))
    case ReqRead => c.(handshake := InRequest(R.Init(0, Zeros(), Zeros())))
    case _ => c
  }

  function First(c: Conn): Conn {
    if c.state == None then Arrive(c.(state := Some(NegotiationRead)), NegotiationRead) else c
  }

  function Jump(c: Conn, next: SocksState): Conn {
    if SM.Moves(c.state, next) then Arrive(c.(state := Some(next)), next) else c
  }

  // ---------------------------------------------------------------- I/O on the buffers

  function TakeIn(c: Conn, bs: seq<byte>): Conn
    requires |bs| <= c.toServer.Space()
  {
    c.(toServer := c.toServer.Append(bs), received := c.received + bs)
  }

  function TakeInFromOrigin(c: Conn, bs: seq<byte>): Conn
    requires |bs| <= c.toClient.Space()
  {
    c.(toClient := c.toClient.Append(bs), fromOrigin := c.fromOrigin + bs)
  }

  /** `send` of `n` bytes of the client's buffer on `fd`, and `buffer_read_adv`. */
  function DrainToClient(c: Conn, fd: int, n: nat): Conn
    requires n <= |c.toClient.contents|
  {
    var bs := c.toClient.contents[..n];
    var c1 := c.(toClient := c.toClient.Drop(n));
    if fd == c.clientFd then c1.(sent := c.sent + bs) else c1.(toOrigin := c.toOrigin + bs)
  }

  function DrainToServer(c: Conn, fd: int, n: nat): Conn
    requires n <= |c.toServer.contents|
  {
    var bs := c.toServer.contents[..n];
    var c1 := c.(toServer := c.toServer.Drop(n));
    if fd == c.clientFd then c1.(sent := c.sent + bs) else c1.(toOrigin := c.toOrigin + bs)
  }

  /** Queue a reply: the buffer a parser's response function left. */
  function Queue(c: Conn, b: GoodBuf): Conn {
    c.(toClient := b, replies := c.replies + Added(c.toClient, b))
  }

  function Greet(c: Conn, b: GoodBuf): Conn { Queue(c, b).(greeting := Added(c.toClient, b)) }

  function Judge(c: Conn, b: GoodBuf): Conn { Queue(c, b).(verdict := Added(c.toClient, b)) }

  /** Queue the reply with this status and address, or what fits of it. */
  function Answer(c: Conn, b: GoodBuf, status: byte, bound: R.SockAddr): Conn {
    if Added(c.toClient, b) == R.Reply(status, bound) then
      Queue(c, b).(answers := c.answers + [Answered(status, bound)])
    else Queue(c, b).(cut := Added(c.toClient, b))
  }

  // ---------------------------------------------------------------- negotiation.c

  function ParseNegotiation(c: Conn, p: N.Neg): Conn {
    var input := c.toServer.contents;
    var (p', left) := N.Parse(p, input);
    c.(handshake := InNegotiation(p'), toServer := Leaving(c.toServer, left),
       negBytes := c.negBytes + input[..|input| - |left|])
  }

  function AnswerNegotiation(c: Conn, t: Slots, key: Key): Result<Turn> {
    var p :- c.Neg();
    var (status, t') := SetInterest(t, key.fd, OP_WRITE);
    if status != Success then Go(c, t', SocksError)
    else
      var (failed, b) := N.Respond(p, c.toClient);
      Go(Greet(c, b), t', if failed != 0 then SocksError else NegotiationWrite)
  }

  function NegotiationReady(c: Conn, t: Slots, key: Key, k: Kernel): Result<Turn> {
    if c.toServer.Space() == 0 then Go(c, t, NegotiationRead)
    else if !k.recv.Data? || k.recv.bytes == [] then Go(c, t, SocksError)
    else
      var p :- c.Neg();
      var c1 := ParseNegotiation(TakeIn(c, Delivered(k.recv.bytes, c.toServer.Space())), p);
      if !N.Done(c1.handshake.neg) then Go(c1, t, NegotiationRead) else AnswerNegotiation(c1, t, key)
  }

  function NegotiationSend(c: Conn, t: Slots, key: Key, k: Kernel): Result<Turn> {
    var n := if k.send.Takes? then Taken(k.send.n, |c.toClient.contents|) else 0;
    if n == 0 then Go(c, t, SocksError)
    else
      var c1 := DrainToClient(c, key.fd, n);
      if c1.toClient.contents != [] then Go(c1, t, NegotiationWrite)
      else
        var p :- c1.Neg();
        if p.selected == N.NOT_ACCEPTABLE then Go(c1, t, SocksError)
        else
          var (status, t') := SetInterest(t, key.fd, OP_READ);
          Go(c1, t', if status != Success then SocksError else AuthRead)
  }

  // ---------------------------------------------------------------- authentication.c

  function ParseAuthentication(c: Conn, p: A.Auth): Conn {
    var input := c.toServer.contents;
    var (p', left) := A.Parse(p, input);
    c.(handshake := InAuthentication(p'), toServer := Leaving(c.toServer, left),
       authBytes := c.authBytes + input[..|input| - |left|])
  }

  /** `user_login` on the strings the parser has read. */
  predicate LoggedIn(p: A.Auth, users: U.Table) { U.Login(users, Text(p.uname), Text(p.passwd)) >= 0 }

  /** The copy of the user name that outlives the parser. */
  function Named(c: Conn): Conn
    requires c.handshake.InAuthentication?
  {
    c.(username := Text(c.handshake.auth.uname))
  }

  function AnswerAuthentication(c: Conn, t: Slots, key: Key, login: bool): Result<Turn> {
    var (failed, b) := A.Respond(c.toClient, if login then A.AUTHENTICATED else A.ACCESS_DENIED);
    var c1 := Judge(c, b);
    if failed != 0 then Go(c1, t, SocksError)
    else
      var (status, t') := SetInterest(t, key.fd, OP_WRITE);
      Go(c1, t', if status != Success then SocksError else AuthWrite)
  }

  function AuthenticationReady(c: Conn, t: Slots, key: Key, k: Kernel): Result<Turn> {
    if c.toServer.Space() == 0 then Go(c, t, AuthRead)
    else if !k.recv.Data? || k.recv.bytes == [] then Go(c, t, SocksError)
    else
      var p :- c.Auth();
      var c1 := ParseAuthentication(TakeIn(c, Delivered(k.recv.bytes, c.toServer.Space())), p);
      if !A.Done(c1.handshake.auth) then Go(c1, t, AuthRead)
      else AnswerAuthentication(Named(c1), t, key, LoggedIn(c1.handshake.auth, k.users))
  }

  function AuthenticationSend(c: Conn, t: Slots, key: Key, k: Kernel): Result<Turn> {
    var n := if k.send.Takes? then Taken(k.send.n, |c.toClient.contents|) else 0;
    if n == 0 then Go(c, t, SocksError)
    else
      var c1 := DrainToClient(c, key.fd, n);
      if c1.toClient.contents != [] then Go(c1, t, AuthWrite)
      else
        var (status, t') := SetInterest(t, key.fd, OP_READ);
        Go(c1, t', if status != Success then SocksError else ReqRead)
  }

  // ---------------------------------------------------------------- request.c

  /** `req_generate_response_error`: an error reply to the client, if its key is still registered. */
  function ErrorReply(c: Conn, t: Slots, key: Key, reason: byte): Result<Turn> {
    var rp :- c.Req();
    var rp' := rp.(state := R.ReqError, status := reason);
    var c1 := c.(handshake := InRequest(rp'));
    var (status, t') := SetInterest(t, key.fd, OP_WRITE);
    if status != Success then Go(c1, t', SocksError)
    else
      var (failed, b) := R.Respond(rp', c1.toClient, R.NO_ADDRESS);
      Go(Answer(c1, b, reason, R.NO_ADDRESS), t', if failed != 0 then SocksError else ReqWrite)
  }

  /** The address an IPv4 or IPv6 request names. */
  function TargetOf(rp: R.Req): Target {
    Target(rp.atyp, rp.address[..if rp.atyp == R.IPV4 then 4 else 16], rp.port)
  }

  /** The one-element list built for a numeric address. */
  function OfferDirect(c: Conn, target: Target): Conn {
    c.(originAddr := Some(AddressList(Malloc, [target])), current := [target], offered := [target],
       obtained := c.obtained + [Malloc])
  }

  function HandleRequest(c: Conn, t: Slots, key: Key, k: Kernel): Result<Turn> {
    var rp :- c.Req();
    if !k.memory then ErrorReply(c, t, key, R.CON_SERVER_FAILURE)
    else if rp.atyp == R.IPV4 || rp.atyp == R.IPV6 then
      InitiateOriginConnection(OfferDirect(c, TargetOf(rp)), t, key, k.attempts, k.bound)
    else
      var (status, t') := SetInterest(t, key.fd, OP_NOOP);
      Ok(Turn(c, t', if status != Success then SocksError else ReqResolve, true))
  }

  function ParseRequest(c: Conn, p: R.Req): Conn {
    var input := c.toServer.contents;
    var (p', left) := R.Parse(p, input);
    c.(handshake := InRequest(p'), toServer := Leaving(c.toServer, left),
       reqBytes := c.reqBytes + input[..|input| - |left|])
  }

  /** A request that the parser rejected. */
  function RefuseRequest(c: Conn, t: Slots, key: Key): Result<Turn> {
    var p :- c.Req();
    var (failed, b) := R.Respond(p, c.toClient, R.NO_ADDRESS);
    var c1 := Answer(c, b, p.status, R.NO_ADDRESS);
    if failed != 0 then Go(c1, t, SocksError)
    else
      var (status, t') := SetInterest(t, key.fd, OP_WRITE);
      Go(c1, t', if status != Success then SocksError else ReqWrite)
  }

  function RequestReady(c: Conn, t: Slots, key: Key, k: Kernel): Result<Turn> {
    if c.toServer.Space() == 0 then Go(c, t, ReqRead)
    else if k.recv.RecvAgain? then Go(c, t, ReqRead)
    else if k.recv.RecvFails? || k.recv.bytes == [] then Go(c, t, SocksError)
    else
      var p :- c.Req();
      var c1 := ParseRequest(TakeIn(c, Delivered(k.recv.bytes, c.toServer.Space())), p);
      if !R.Done(c1.handshake.req) then Go(c1, t, ReqRead)
      else if c1.handshake.req.state == R.ReqError then RefuseRequest(c1, t, key)
      else HandleRequest(c1, t, key, k)
  }

  /** What `socksv5_close` does to the fields; both -1 means the object is destroyed. */
  function CloseHook(c: Conn, fd: int): Conn {
    if fd == c.clientFd then c.(clientFd := -1)
    else if fd == c.originFd then c.(originFd := -1)
    else c
  }

  predicate Closed(c: Conn) { c.clientFd == -1 && c.originFd == -1 }

  /** `selector_unregister_fd` of the origin from within a handler, and `origin_fd = -1`. */
  function DropOrigin(c: Conn, t: Slots, id: nat): Result<(Conn, Slots)> {
    if !ValidFd(c.originFd) || c.originFd !in t then Ok((c.(originFd := -1), t))
    else if t[c.originFd].data != Client(id) || Closed(CloseHook(c, c.originFd)) then Crashed(WildAccess)
    else Ok((CloseHook(c, c.originFd).(originFd := -1), t - {c.originFd}))
  }

  datatype Trial = Settled(result: Result<Turn>) | TryNext(c: Conn, t: Slots)

  /** What follows `connect` on the registered origin descriptor. */
  function Connecting(c: Conn, t: Slots, key: Key, result: ConnectResult, bound: Option<R.SockAddr>): (trial: Trial)
    requires c.current != []
    ensures trial.TryNext? ==> trial.c.current == c.current[1..]
  {
    match result
    case Connected => Settled(ConnectedAtOnce(c, t, key, bound))
    case InProgress =>
      var (status1, t1) := SetInterest(t, c.originFd, OP_WRITE);
      if status1 != Success then Settled(Go(c, t1, SocksError))
      else
        var (status2, t2) := SetInterest(t1, key.fd, OP_NOOP);
        Settled(Go(c, t2, if status2 != Success then SocksError else ReqConnect))
    case Refused => TryNext(c.(current := c.current[1..]), t)
  }

  /** One attempt at the current address: a result, or on to the next address. */
  function TryAddress(c: Conn, t: Slots, key: Key, attempt: Attempt, bound: Option<R.SockAddr>): (trial: Trial)
    requires c.current != []
    ensures trial.TryNext? ==> trial.c.current == c.current[1..]
  {
    var next := c.(current := c.current[1..]);
    if !attempt.Opened? then TryNext(next, t)
    else
      var (status, t1) := Register(t, attempt.fd, OP_NOOP, Client(key.id));
      if status != Success then TryNext(next, t)
      else
        Connecting(c.(originFd := attempt.fd, dialed := c.dialed + [c.current[0]]), t1, key, attempt.result, bound)
  }

  /** Walk the remaining addresses until one connects or is in progress. */
  function InitiateOriginConnection(c: Conn, t: Slots, key: Key, attempts: seq<Attempt>, bound: Option<R.SockAddr>)
    : Result<Turn>
    decreases |c.current|
  {
    var dropped :- DropOrigin(c, t, key.id);
    var (c1, t1) := dropped;
    if c1.current == [] then ErrorReply(c1, t1, key, R.CON_HOST_UNREACHABLE)
    else
      match TryAddress(c1, t1, key, if attempts == [] then NoSocket else attempts[0], bound)
      case Settled(result) => result
      case TryNext(c2, t2) =>
        InitiateOriginConnection(c2, t2, key, if attempts == [] then [] else attempts[1..], bound)
  }

  /** The branch of `initiate_origin_connection` for a `connect` that succeeds immediately. */
  function ConnectedAtOnce(c: Conn, t: Slots, key: Key, bound: Option<R.SockAddr>): Result<Turn> {
    var rp :- c.Req();
    var rp' := rp.(status := R.CON_SUCCEEDED);
    var c1 := c.(handshake := InRequest(rp'));
    if bound == None then Go(c1, t, SocksError) else AnnounceAtOnce(c1, t, key, rp', bound.value)
  }

  /** The reply is queued already here; the client waits to write it, and the origin may be read. */
  function AnnounceAtOnce(c: Conn, t: Slots, key: Key, rp: R.Req, bound: R.SockAddr): Result<Turn> {
    var (failed, b) := R.Respond(rp, c.toClient, bound);
    var c1 := Answer(c, b, rp.status, bound).(atOnce := c.atOnce + 1);
    if failed != 0 then Go(c1, t, SocksError)
    else
      var (status1, t1) := SetInterest(t, key.fd, OP_WRITE);
      if status1 != Success then Go(c1, t1, SocksError)
      else
        var (status2, t2) := SetInterest(t1, c1.originFd, OP_READ);
        Go(c1, t2, if status2 != Success then SocksError else ReqConnect)
  }

  function RequestResolve(c: Conn, t: Slots, key: Key, k: Kernel): Result<Turn> {
    if c.originAddr == None then ErrorReply(c, t, key, R.CON_HOST_UNREACHABLE)
    else InitiateOriginConnection(c, t, key, k.attempts, k.bound)
  }

  /** Release the address list, choosing the deallocator by the request's address type. */
  function Release(c: Conn): Result<Conn> {
    if c.originAddr == None then Ok(c)
    else
      var rp :- c.Req();
      Ok(c.(originAddr := None, current := [],
            released := c.released + [if rp.atyp == R.DN then Getaddrinfo else Malloc]))
  }

  function RequestConnect(c: Conn, t: Slots, key: Key, k: Kernel): Result<Turn> {
    var rp :- c.Req();
    if !k.soError then
      var rp' := rp.(status := R.CON_SUCCEEDED);
      var c1 :- Release(c.(handshake := InRequest(rp')));
      if k.bound == None then Go(c1, t, SocksError)
      else
        var (failed, b) := R.Respond(rp', c1.toClient, k.bound.value);
        var c2 := Answer(c1, b, R.CON_SUCCEEDED, k.bound.value);
        if failed != 0 then Go(c2, t, SocksError)
        else
          var (status1, t1) := SetInterest(t, c2.clientFd, OP_WRITE);
          if status1 != Success then Go(c2, t1, SocksError)
          else
            var (status2, t2) := SetInterest(t1, c2.originFd, OP_READ);
            Go(c2, t2, if status2 != Success then SocksError else ReqWrite)
    else if c.current == [] then Crashed(WildAccess)
    else
      var dropped :- DropOrigin(c, t, key.id);
      var (c1, t1) := dropped;
      if c.current[1..] == [] then ErrorReply(c1, t1, key, R.CON_HOST_UNREACHABLE)
      else InitiateOriginConnection(c1, t1, key, k.attempts, k.bound)
  }

  /** The access log finds its user; for any other, `create_access` writes to row -1 of the user table. */
  predicate HasRow(c: Conn, users: U.Table) { U.Find(users.rows, c.username) >= 0 }

  function RequestSend(c: Conn, t: Slots, key: Key, k: Kernel): Result<Turn> {
    if k.send.SendAgain? then Go(c, t, ReqWrite)
    else if k.send.SendFails? || Taken(k.send.n, |c.toClient.contents|) == 0 then Go(c, t, SocksError)
    else
      var c1 := DrainToClient(c, key.fd, Taken(k.send.n, |c.toClient.contents|));
      if c1.toClient.contents != [] then Go(c1, t, ReqWrite)
      else
        var (status, t') := SetInterest(t, key.fd, OP_READ);
        if status != Success then Go(c1, t', SocksError)
        else if !HasRow(c1, k.users) then Crashed(WildAccess)
        else Go(c1, t', Copy)
  }

  // ---------------------------------------------------------------- copy.c

  predicate BothOver(c: Conn) {
    c.clientEof && c.toServer.contents == [] && c.originEof && c.toClient.contents == []
  }

  function CopySend(c: Conn, t: Slots, key: Key, k: Kernel): Result<Turn> {
    if key.fd == c.clientFd then CopySendTo(c, t, key, k, true, c.originFd, c.originEof)
    else if key.fd == c.originFd then CopySendTo(c, t, key, k, false, c.clientFd, c.clientEof)
    else Go(c, t, SocksError)
  }

  /** The buffer that a write event on this side drains. */
  function ToDrain(c: Conn, toClient: bool): GoodBuf { if toClient then c.toClient else c.toServer }

  function CopySendTo(c: Conn, t: Slots, key: Key, k: Kernel, toClient: bool, source: int, sourceEof: bool): Result<Turn> {
    var available := |ToDrain(c, toClient).contents|;
    if available == 0 then
      var t1 := SetInterest(t, key.fd, OP_READ).1;
      Go(c, t1, if (toClient && c.clientEof) || BothOver(c) then SocksDone else Copy)
    else
      match k.send
      case SendAgain => Go(c, t, Copy)
      case SendFails => Go(c, t, SocksError)
      case Takes(m) =>
        var n := Taken(m, available);
        if n == 0 then Go(c, t, SocksError)
        else
          var c1 := if toClient then DrainToClient(c, key.fd, n) else DrainToServer(c, key.fd, n);
          var wake := !sourceEof && ToDrain(c1, toClient).Space() > 0;
          CopySent(c1, if wake then SetInterest(t, source, OP_READ).1 else t, key, toClient)
  }

  /** The tail of `handle_write_data`. */
  function CopySent(c: Conn, t: Slots, key: Key, toClient: bool): Result<Turn> {
    if ToDrain(c, toClient).contents == [] then
      Go(c, if !toClient then SetInterest(t, key.fd, OP_READ).1 else t,
         if c.clientEof || BothOver(c) then SocksDone else Copy)
    else Go(c, SetInterest(t, key.fd, OP_WRITE).1, Copy)
  }

  function CopyReady(c: Conn, t: Slots, key: Key, k: Kernel): Result<Turn> {
    if key.fd == c.clientFd then CopyReadyFrom(c, t, key, k, true, c.originFd, c.originEof)
    else if key.fd == c.originFd then CopyReadyFrom(c, t, key, k, false, c.clientFd, c.clientEof)
    else Go(c, t, SocksError)
  }

  /** The buffer that a read event on this side fills. */
  function ToFill(c: Conn, fromClient: bool): GoodBuf { if fromClient then c.toServer else c.toClient }

  function Fill(c: Conn, fromClient: bool, bs: seq<byte>): Conn
    requires |bs| <= ToFill(c, fromClient).Space()
  {
    if fromClient then TakeIn(c, bs) else TakeInFromOrigin(c, bs)
  }

  /** End of stream on one side, and on the other too when nothing waits for it. */
  function AtEof(c: Conn, fromClient: bool): Conn {
    if fromClient then c.(clientEof := true, originEof := c.originEof || c.toServer.contents == [])
    else c.(originEof := true, clientEof := c.clientEof || c.toClient.contents == [])
  }

  function CopyReadyFrom(c: Conn, t: Slots, key: Key, k: Kernel, fromClient: bool, target: int, targetEof: bool): Result<Turn> {
    var space := ToFill(c, fromClient).Space();
    if space == 0 then Go(c, t, Copy)
    else
      match k.recv
      case RecvAgain => Go(c, t, Copy)
      case RecvFails => Go(c, t, SocksError)
      case Data(bytes) =>
        if bytes == [] then
          var c1 := AtEof(c, fromClient);
          Go(c1, t, if BothOver(c1) then SocksDone else Copy)
        else PassOn(Fill(c, fromClient, Delivered(bytes, space)), t, key, k, target, targetEof)
  }

  /** The tail of `handle_read_data`: wake the target and run its write event at once. */
  function PassOn(c: Conn, t: Slots, key: Key, k: Kernel, target: int, targetEof: bool): Result<Turn> {
    if targetEof then Go(c, t, Copy)
    else
      var t1 := SetInterest(t, target, OP_WRITE).1;
      if target !in t1 || t1[target].data != Client(key.id) then Crashed(WildAccess)
      else OnWrite(c, t1, Key(target, key.id), k)
  }

  // ---------------------------------------------------------------- stm.c on this table

  function Finish(r: Turn): Turn { r.(c := Jump(r.c, r.next)) }

  function WriteHandler(c: Conn, t: Slots, key: Key, k: Kernel): Result<Turn>
    requires c.state.Some? && SM.Write in Handlers(c.state.value)
  {
    match c.state.value
    case NegotiationWrite => NegotiationSend(c, t, key, k)
    case AuthWrite => AuthenticationSend(c, t, key, k)
    case ReqConnect => RequestConnect(c, t, key, k)
    case ReqWrite => RequestSend(c, t, key, k)
    case Copy => CopySend(c, t, key, k)
  }

  function OnWrite(c: Conn, t: Slots, key: Key, k: Kernel): Result<Turn> {
    var c1 := First(c);
    if SM.Write !in Handlers(c1.state.value) then Crashed(MissingHandler)
    else
      var r :- WriteHandler(c1, t, key, k);
      Ok(Finish(r))
  }

  function ReadHandler(c: Conn, t: Slots, key: Key, k: Kernel): Result<Turn>
    requires c.state.Some? && SM.Read in Handlers(c.state.value)
  {
    match c.state.value
    case NegotiationRead => NegotiationReady(c, t, key, k)
    case AuthRead => AuthenticationReady(c, t, key, k)
    case ReqRead => RequestReady(c, t, key, k)
    case Copy => CopyReady(c, t, key, k)
  }

  function OnRead(c: Conn, t: Slots, key: Key, k: Kernel): Result<Turn> {
    var c1 := First(c);
    if SM.Read !in Handlers(c1.state.value) then Crashed(MissingHandler)
    else
      var r :- ReadHandler(c1, t, key, k);
      Ok(Finish(r))
  }

  function OnBlock(c: Conn, t: Slots, key: Key, k: Kernel): Result<Turn> {
    var c1 := First(c);
    if SM.Block !in Handlers(c1.state.value) then Crashed(MissingHandler)
    else
      var r :- RequestResolve(c1, t, key, k);
      Ok(Finish(r))
  }
}
