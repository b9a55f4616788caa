/** What an event does to a connection in the handshake, from the bytes that have gone by and the kernel's answers alone. */
module HandshakeEvents {
  import opened Bytes
  import opened Results
  import opened Buffers
  import opened Incremental
  import opened SelectorTable
  import opened Connection
  import opened ConnectionInvariant
  import opened RelayInvariant
  import opened RelayEvents
  import N = NegotiationParser
  import A = AuthenticationParser
  import R = RequestParser

  // ---------------------------------------------------------------- the write events

  /** The states in which a reply of the handshake leaves, and what follows each. */
  const REPLYING: set<SocksState> := {NegotiationWrite, AuthWrite, ReqWrite}

  function After(s: SocksState): SocksState {
    match s
    case NegotiationWrite => AuthRead
    case AuthWrite => ReqRead
    case _ => Copy
  }

  /** A connection that a reply waits for, with its write event `key`. */
  ghost predicate Replying(c: Conn, t: Slots, key: Key) {
    && c.state.Some? && c.state.value in REPLYING && Live(c, key.id, t) && Dispatched(t, key) && t[key.fd].interest.write
  }

  lemma ReplyGoesToTheClient(c: Conn, t: Slots, key: Key)
    requires Replying(c, t, key)
    ensures key.fd == c.clientFd && ValidFd(key.fd) && t[key.fd] == Slot(OP_WRITE, Client(key.id))
    ensures c.state == Some(NegotiationWrite) ==> c.handshake.InNegotiation? && c.greeting == [5, c.handshake.neg.selected]
    ensures c.state == Some(ReqWrite) && c.originFd != -1 ==> c.originFd in t && t[c.originFd].interest == OP_READ
  {
    hide Framed, Addresses, NegOver, NegFinished, AuthFinished, ReqFinished;
  }

  /** The reply that is being sent is 05 FF: no method was acceptable. */
  predicate NoMethod(c: Conn) { c.state == Some(NegotiationWrite) && c.greeting == [5, 255] }

  lemma NegotiationSends(c: Conn, t: Slots, key: Key, k: Kernel, r: Result<Turn>)
    requires c.state == Some(NegotiationWrite) && key.fd == c.clientFd && ValidFd(key.fd)
    requires key.fd in t && t[key.fd] == Slot(OP_WRITE, Client(key.id))
    requires c.handshake.InNegotiation? && c.greeting == [5, c.handshake.neg.selected]
    requires r == NegotiationSend(c, t, key, k)
    ensures r.Ok? && RepliedOnce(c, t, key, k, r.value)
  {
    Slices(c.toClient.contents);
  }

  lemma AuthenticationSends(c: Conn, t: Slots, key: Key, k: Kernel, r: Result<Turn>)
    requires c.state == Some(AuthWrite) && key.fd == c.clientFd && ValidFd(key.fd)
    requires key.fd in t && t[key.fd] == Slot(OP_WRITE, Client(key.id))
    requires r == AuthenticationSend(c, t, key, k)
    ensures r.Ok? && RepliedOnce(c, t, key, k, r.value)
  {
    Slices(c.toClient.contents);
  }

  lemma RequestSends(c: Conn, t: Slots, key: Key, k: Kernel, r: Result<Turn>)
    requires c.state == Some(ReqWrite) && key.fd == c.clientFd && ValidFd(key.fd) && !LogsNobody(c, k)
    requires key.fd in t && t[key.fd] == Slot(OP_WRITE, Client(key.id))
    requires r == RequestSend(c, t, key, k)
    ensures r.Ok? && RepliedOnce(c, t, key, k, r.value)
  {
    Slices(c.toClient.contents);
  }

  lemma Slices(bs: seq<byte>)
    ensures bs[0..] == bs && bs[..0] == [] && bs[|bs|..] == [] && bs[..|bs|] == bs
  {
  }

  /** One attempt to send a reply: where it leaves the connection. */
  ghost predicate RepliedOnce(c: Conn, t: Slots, key: Key, k: Kernel, r: Turn)
    requires c.state.Some?
  {
    var waiting := c.toClient.contents;
    var n := Accepted(k.send, |waiting|);
    var failed := n == 0 && !(c.state == Some(ReqWrite) && k.send.SendAgain?);
    var gone := n > 0 && n == |waiting|;
    && !r.spawned && Forwarded(c, waiting, n, true, r.c)
    && r.next == (if failed || (gone && NoMethod(c)) then SocksError else if gone then After(c.state.value) else c.state.value)
    && r.t == (if gone && !NoMethod(c) then t[key.fd := Slot(OP_READ, Client(key.id))] else t)
    && r.c.state == c.state
  }

  /** The turn with its jump: the fields that the hooks leave alone, and the fresh parser of the state that is entered. */
  lemma ReplyLands(c: Conn, t: Slots, key: Key, k: Kernel, r: Turn)
    requires c.state.Some? && c.state.value in REPLYING && RepliedOnce(c, t, key, k, r)
    ensures var c' := Finish(r).c;
            && c'.state == Some(r.next)
            && Forwarded(c, c.toClient.contents, Accepted(k.send, |c.toClient.contents|), true, c')
            && (r.next == AuthRead ==> c'.handshake == InAuthentication(A.Init(Zeros(), Zeros())))
            && (r.next == ReqRead ==> c'.handshake == InRequest(R.Init(0, Zeros(), Zeros())))
  {
  }

  lemma ReplyHandler(c: Conn, t: Slots, key: Key, k: Kernel) returns (r: Turn)
    requires Replying(c, t, key) && !LogsNobody(c, k)
    ensures WriteHandler(c, t, key, k) == Ok(r) && RepliedOnce(c, t, key, k, r)
  {
    ReplyGoesToTheClient(c, t, key);
    hide NegotiationSend, AuthenticationSend, RequestSend, Live, RepliedOnce, LogsNobody;
    match c.state.value {
      case NegotiationWrite => NegotiationSends(c, t, key, k, NegotiationSend(c, t, key, k));
      case AuthWrite => AuthenticationSends(c, t, key, k, AuthenticationSend(c, t, key, k));
      case ReqWrite => RequestSends(c, t, key, k, RequestSend(c, t, key, k));
    }
    r := WriteHandler(c, t, key, k).value;
  }

  lemma WriteIsHandled(c: Conn, t: Slots, key: Key, k: Kernel, r: Turn)
    requires c.state.Some? && c.state.value in REPLYING && WriteHandler(c, t, key, k) == Ok(r)
    ensures OnWrite(c, t, key, k) == Ok(Finish(r))
  {
    hide WriteHandler;
  }

  /**
   * A write event while a reply waits: the first bytes of it leave, as many as `send` takes. Only in REQ_WRITE does EAGAIN
   * wait; a reply that is gone leads to the next state, with the client watched for reading, unless it was 05 FF. A
   * connection enters COPY with both sides watched for reading.
   */
  lemma ReplyLeaves(c: Conn, t: Slots, key: Key, k: Kernel) returns (r: Turn)
    requires Replying(c, t, key) && !LogsNobody(c, k)
    ensures OnWrite(c, t, key, k) == Ok(r) && !r.spawned && r.c.state == Some(r.next) && key.fd == c.clientFd
    ensures var waiting := c.toClient.contents;
            var n := Accepted(k.send, |waiting|);
            var failed := n == 0 && !(c.state == Some(ReqWrite) && k.send.SendAgain?);
            var gone := n > 0 && n == |waiting|;
            && Forwarded(c, waiting, n, true, r.c)
            && (r.next == SocksError <==> failed || (gone && NoMethod(c)))
            && (r.next == After(c.state.value) <==> gone && !NoMethod(c))
            && (r.next == c.state.value <==> !failed && !gone)
            && r.t == (if gone && !NoMethod(c) then t[key.fd := Slot(OP_READ, Client(key.id))] else t)
    ensures r.next == Copy ==>
              && r.t[c.clientFd] == Slot(OP_READ, Client(key.id)) && c.originFd != c.clientFd
              && (c.originFd != -1 ==> c.originFd in r.t && r.t[c.originFd].interest == OP_READ)
    ensures r.next == AuthRead ==> r.c.handshake == InAuthentication(A.Init(Zeros(), Zeros()))
    ensures r.next == ReqRead ==> r.c.handshake == InRequest(R.Init(0, Zeros(), Zeros()))
  {
    ReplyGoesToTheClient(c, t, key);
    var turn := ReplyHandler(c, t, key, k);
    WriteIsHandled(c, t, key, k, turn);
    ReplyLands(c, t, key, k, turn);
    TwoDescriptors(c, t, key.id);
    hide WriteHandler, OnWrite, Live, LogsNobody, Forwarded, Jump;
    r := Finish(turn);
  }

  lemma TwoDescriptors(c: Conn, t: Slots, id: nat)
    requires Live(c, id, t)
    ensures c.originFd != c.clientFd && c.clientFd != -1
  {
    hide ConnOk, Watched;
  }

  // ---------------------------------------------------------------- the read events, for any message

  /** The states in which a message of the handshake is read, with its parser in the union. */
  predicate Reading(c: Conn) {
    match c.state
    case Some(NegotiationRead) => c.handshake.InNegotiation?
    case Some(AuthRead) => c.handshake.InAuthentication?
    case Some(ReqRead) => c.handshake.InRequest?
    case _ => false
  }

  /** The message is over: complete, or known to be wrong. */
  predicate Over(c: Conn) {
    match c.handshake
    case InNegotiation(p) => N.Done(p)
    case InAuthentication(p) => A.Done(p)
    case InRequest(p) => R.Done(p)
  }

  /** The connection once `bs` has arrived and been parsed. */
  function Heard(c: Conn, bs: seq<byte>): Conn
    requires |bs| <= c.toServer.Space()
  {
    var c1 := TakeIn(c, bs);
    match c.handshake
    case InNegotiation(p) => ParseNegotiation(c1, p)
    case InAuthentication(p) => ParseAuthentication(c1, p)
    case InRequest(p) => ParseRequest(c1, p)
  }

  /** What is done about a message that is over. */
  function Concluded(c: Conn, t: Slots, key: Key, k: Kernel): Result<Turn> {
    match c.handshake
    case InNegotiation(_) => AnswerNegotiation(c, t, key)
    case InAuthentication(p) => AnswerAuthentication(Named(c), t, key, LoggedIn(p, k.users))
    case InRequest(p) => if p.state == R.ReqError then RefuseRequest(c, t, key) else HandleRequest(c, t, key, k)
  }

  /** A handler's result with the jump that follows it. */
  function Jumped(r: Result<Turn>): Result<Turn> {
    match r
    case Ok(turn) => Ok(Finish(turn))
    case Crashed(why) => Crashed(why)
  }

  lemma HandlerHears(c: Conn, t: Slots, key: Key, k: Kernel)
    requires Reading(c) && c.toServer.Space() > 0 && k.recv.Data? && k.recv.bytes != []
    ensures var c1 := Heard(c, Delivered(k.recv.bytes, c.toServer.Space()));
            ReadHandler(c, t, key, k) == if Over(c1) then Concluded(c1, t, key, k) else Go(c1, t, c.state.value)
  {
    hide N.Parse, A.Parse, R.Parse, AnswerNegotiation, AnswerAuthentication, RefuseRequest, HandleRequest, LoggedIn, N.Step;
    hide N.Done, A.Done, R.Done;
  }

  lemma HeardStays(c: Conn, bs: seq<byte>)
    requires |bs| <= c.toServer.Space()
    ensures Heard(c, bs).state == c.state
  {
    hide N.Parse, A.Parse, R.Parse;
  }

  /** A read event that brings data: until the message is over the connection waits, watched as it was. */
  lemma ReadHears(c: Conn, t: Slots, key: Key, k: Kernel)
    requires Reading(c) && c.toServer.Space() > 0 && k.recv.Data? && k.recv.bytes != []
    ensures var c1 := Heard(c, Delivered(k.recv.bytes, c.toServer.Space()));
            OnRead(c, t, key, k) == if Over(c1) then Jumped(Concluded(c1, t, key, k)) else Ok(Turn(c1, t, c.state.value, false))
  {
    HandlerHears(c, t, key, k);
    HeardStays(c, Delivered(k.recv.bytes, c.toServer.Space()));
    hide ReadHandler, Concluded, Over, Heard;
  }

  /** A read event without data: only REQ_READ waits for EAGAIN. */
  lemma ReadWithoutData(c: Conn, t: Slots, key: Key, k: Kernel)
    requires Reading(c) && (c.toServer.Space() == 0 || !k.recv.Data? || k.recv.bytes == [])
    ensures OnRead(c, t, key, k)
         == if c.toServer.Space() == 0 || (c.state == Some(ReqRead) && k.recv.RecvAgain?) then Ok(Turn(c, t, c.state.value, false))
            else Ok(Turn(c.(state := Some(SocksError)), t, SocksError, false))
  {
  }

  // ---------------------------------------------------------------- a message in pieces

  /** A parse that uses all there is. */
  lemma UsesNegotiation(c: Conn, bs: seq<byte>)
    requires c.handshake.InNegotiation? && |bs| <= c.toServer.Space()
    requires N.Parse(c.handshake.neg, c.toServer.contents + bs).1 == []
    ensures Heard(c, bs)
         == c.(handshake := InNegotiation(N.Parse(c.handshake.neg, c.toServer.contents + bs).0), toServer := Buf(0, [], c.toServer.limit),
               received := c.received + bs, negBytes := c.negBytes + (c.toServer.contents + bs))
  {
    hide N.Parse;
    var input := c.toServer.contents + bs;
    assert input[..|input|] == input;
  }

  lemma TwiceNegotiation(c: Conn, a: seq<byte>, b: seq<byte>)
    requires c.handshake.InNegotiation? && |a| + |b| <= c.toServer.Space() && !Over(Heard(c, a))
    requires N.Parse(c.handshake.neg, c.toServer.contents + (a + b)).1 == []
    ensures |b| <= Heard(c, a).toServer.Space() && Heard(Heard(c, a), b) == Heard(c, a + b)
  {
    hide N.Step, Heard, Over;
    var (p, unread) := (c.handshake.neg, c.toServer.contents);
    IsOverNegotiation(c, a);
    assert unread + (a + b) == (unread + a) + b && c.received + (a + b) == (c.received + a) + b && [] + b == b;
    assert c.negBytes + (unread + (a + b)) == c.negBytes + (unread + a) + b;
    FeedAppend(N.Step, N.Done, p, unread + a, b);
    UsesNegotiation(c, a);
    UsesNegotiation(Heard(c, a), b);
    UsesNegotiation(c, a + b);
  }

  lemma IsOverNegotiation(c: Conn, bs: seq<byte>)
    requires c.handshake.InNegotiation? && |bs| <= c.toServer.Space()
    ensures Over(Heard(c, bs)) <==> N.Done(N.Parse(c.handshake.neg, c.toServer.contents + bs).0)
    ensures |Heard(c, bs).toServer.contents| == |N.Parse(c.handshake.neg, c.toServer.contents + bs).1|
  {
    hide N.Parse, N.Done;
    var input := c.toServer.contents + bs;
    ShorterNegotiation(c.handshake.neg, input);
  }

  lemma ShorterNegotiation(p: N.Neg, input: seq<byte>)
    ensures |N.Parse(p, input).1| <= |input|
  {
  }

  /** A parse that uses all there is. */
  lemma UsesAuthentication(c: Conn, bs: seq<byte>)
    requires c.handshake.InAuthentication? && |bs| <= c.toServer.Space()
    requires A.Parse(c.handshake.auth, c.toServer.contents + bs).1 == []
    ensures Heard(c, bs)
         == c.(handshake := InAuthentication(A.Parse(c.handshake.auth, c.toServer.contents + bs).0), toServer := Buf(0, [], c.toServer.limit),
               received := c.received + bs, authBytes := c.authBytes + (c.toServer.contents + bs))
  {
    hide A.Parse;
    var input := c.toServer.contents + bs;
    assert input[..|input|] == input;
  }

  lemma TwiceAuthentication(c: Conn, a: seq<byte>, b: seq<byte>)
    requires c.handshake.InAuthentication? && |a| + |b| <= c.toServer.Space() && !Over(Heard(c, a))
    requires A.Parse(c.handshake.auth, c.toServer.contents + (a + b)).1 == []
    ensures |b| <= Heard(c, a).toServer.Space() && Heard(Heard(c, a), b) == Heard(c, a + b)
  {
    hide A.Step, Heard, Over;
    var (p, unread) := (c.handshake.auth, c.toServer.contents);
    IsOverAuthentication(c, a);
    assert unread + (a + b) == (unread + a) + b && c.received + (a + b) == (c.received + a) + b && [] + b == b;
    assert c.authBytes + (unread + (a + b)) == c.authBytes + (unread + a) + b;
    FeedAppend(A.Step, A.Done, p, unread + a, b);
    UsesAuthentication(c, a);
    UsesAuthentication(Heard(c, a), b);
    UsesAuthentication(c, a + b);
  }

  lemma IsOverAuthentication(c: Conn, bs: seq<byte>)
    requires c.handshake.InAuthentication? && |bs| <= c.toServer.Space()
    ensures Over(Heard(c, bs)) <==> A.Done(A.Parse(c.handshake.auth, c.toServer.contents + bs).0)
    ensures |Heard(c, bs).toServer.contents| == |A.Parse(c.handshake.auth, c.toServer.contents + bs).1|
  {
    hide A.Parse, A.Done;
    var input := c.toServer.contents + bs;
    ShorterAuthentication(c.handshake.auth, input);
  }

  lemma ShorterAuthentication(p: A.Auth, input: seq<byte>)
    ensures |A.Parse(p, input).1| <= |input|
  {
  }

  /** A parse that uses all there is. */
  lemma UsesRequest(c: Conn, bs: seq<byte>)
    requires c.handshake.InRequest? && |bs| <= c.toServer.Space()
    requires R.Parse(c.handshake.req, c.toServer.contents + bs).1 == []
    ensures Heard(c, bs)
         == c.(handshake := InRequest(R.Parse(c.handshake.req, c.toServer.contents + bs).0), toServer := Buf(0, [], c.toServer.limit),
               received := c.received + bs, reqBytes := c.reqBytes + (c.toServer.contents + bs))
  {
    hide R.Parse;
    var input := c.toServer.contents + bs;
    assert input[..|input|] == input;
  }

  lemma TwiceRequest(c: Conn, a: seq<byte>, b: seq<byte>)
    requires c.handshake.InRequest? && |a| + |b| <= c.toServer.Space() && !Over(Heard(c, a))
    requires R.Parse(c.handshake.req, c.toServer.contents + (a + b)).1 == []
    ensures |b| <= Heard(c, a).toServer.Space() && Heard(Heard(c, a), b) == Heard(c, a + b)
  {
    hide R.Step, Heard, Over;
    var (p, unread) := (c.handshake.req, c.toServer.contents);
    IsOverRequest(c, a);
    assert unread + (a + b) == (unread + a) + b && c.received + (a + b) == (c.received + a) + b && [] + b == b;
    assert c.reqBytes + (unread + (a + b)) == c.reqBytes + (unread + a) + b;
    FeedAppend(R.Step, R.Done, p, unread + a, b);
    UsesRequest(c, a);
    UsesRequest(Heard(c, a), b);
    UsesRequest(c, a + b);
  }

  lemma IsOverRequest(c: Conn, bs: seq<byte>)
    requires c.handshake.InRequest? && |bs| <= c.toServer.Space()
    ensures Over(Heard(c, bs)) <==> R.Done(R.Parse(c.handshake.req, c.toServer.contents + bs).0)
    ensures |Heard(c, bs).toServer.contents| == |R.Parse(c.handshake.req, c.toServer.contents + bs).1|
  {
    hide R.Parse, R.Done;
    var input := c.toServer.contents + bs;
    ShorterRequest(c.handshake.req, input);
  }

  lemma ShorterRequest(p: R.Req, input: seq<byte>)
    ensures |R.Parse(p, input).1| <= |input|
  {
  }

  /** Two pieces of a message that is not over after the first have the effect of one. */
  lemma HeardTwice(c: Conn, a: seq<byte>, b: seq<byte>)
    requires |a| + |b| <= c.toServer.Space() && !Over(Heard(c, a)) && Heard(c, a + b).toServer.contents == []
    ensures |b| <= Heard(c, a).toServer.Space() && Heard(Heard(c, a), b) == Heard(c, a + b)
  {
    hide Heard, Over;
    match c.handshake {
      case InNegotiation(_) =>
        IsOverNegotiation(c, a + b);
        TwiceNegotiation(c, a, b);
      case InAuthentication(_) =>
        IsOverAuthentication(c, a + b);
        TwiceAuthentication(c, a, b);
      case InRequest(_) =>
        IsOverRequest(c, a + b);
        TwiceRequest(c, a, b);
    }
  }

  /** One read event after the other on one connection. */
  function ReadEvents(c: Conn, t: Slots, key: Key, ks: seq<Kernel>): Result<Turn>
    requires ks != []
    decreases |ks|
  {
    if |ks| == 1 then OnRead(c, t, key, ks[0])
    else
      var r :- OnRead(c, t, key, ks[0]);
      ReadEvents(r.c, r.t, key, ks[1..])
  }

  /** Every event brings something. */
  predicate AllBring(ks: seq<Kernel>) { forall i :: 0 <= i < |ks| ==> Brings(ks[i]) }

  predicate Brings(k: Kernel) { k.recv.Data? && k.recv.bytes != [] }

  function Brought(ks: seq<Kernel>): seq<byte>
    decreases |ks|
  {
    if ks == [] then [] else (if ks[0].recv.Data? then ks[0].recv.bytes else []) + Brought(ks[1..])
  }

  /** The last event, as if it had brought everything. */
  function AtOnce(ks: seq<Kernel>): Kernel
    requires ks != []
  {
    ks[|ks| - 1].(recv := Data(Brought(ks)))
  }

  /** Only the last piece can end a message that uses everything. */
  lemma FirstPieceWaits(c: Conn, a: seq<byte>, b: seq<byte>)
    requires |a| + |b| <= c.toServer.Space() && b != [] && Heard(c, a + b).toServer.contents == []
    ensures !Over(Heard(c, a))
  {
    hide Heard, Over;
    var unread := c.toServer.contents;
    assert unread + (a + b) == (unread + a) + b;
    match c.handshake {
      case InNegotiation(p) =>
        FeedAppend(N.Step, N.Done, p, unread + a, b);
        IsOverNegotiation(c, a);
        IsOverNegotiation(c, a + b);
      case InAuthentication(p) =>
        FeedAppend(A.Step, A.Done, p, unread + a, b);
        IsOverAuthentication(c, a);
        IsOverAuthentication(c, a + b);
      case InRequest(p) =>
        FeedAppend(R.Step, R.Done, p, unread + a, b);
        IsOverRequest(c, a);
        IsOverRequest(c, a + b);
    }
  }

  /** What is done about a message does not depend on how its last bytes arrived. */
  lemma ConcludedAlike(c: Conn, t: Slots, key: Key, k: Kernel, recv: Recv)
    ensures Concluded(c, t, key, k) == Concluded(c, t, key, k.(recv := recv))
  {
    hide AnswerNegotiation, AnswerAuthentication, RefuseRequest, InitiateOriginConnection, ErrorReply, LoggedIn;
  }

  lemma HeardReads(c: Conn, bs: seq<byte>)
    requires Reading(c) && |bs| <= c.toServer.Space()
    ensures Reading(Heard(c, bs)) && Heard(c, bs).state == c.state
  {
    hide N.Parse, A.Parse, R.Parse;
  }

  /** Two events that bring two pieces of a message are one that brings both. */
  lemma TwoEventsAreOne(c: Conn, t: Slots, key: Key, k: Kernel, k': Kernel)
    requires Reading(c) && Brings(k) && Brings(k') && |k.recv.bytes| + |k'.recv.bytes| <= c.toServer.Space()
    requires Heard(c, k.recv.bytes + k'.recv.bytes).toServer.contents == []
    ensures var c1 := Heard(c, k.recv.bytes);
            && OnRead(c, t, key, k) == Ok(Turn(c1, t, c.state.value, false))
            && Reading(c1) && c1.state == c.state && |k'.recv.bytes| <= c1.toServer.Space()
            && OnRead(c1, t, key, k') == OnRead(c, t, key, k'.(recv := Data(k.recv.bytes + k'.recv.bytes)))
  {
    hide Heard, Over, Concluded, OnRead, Reading;
    var (a, b) := (k.recv.bytes, k'.recv.bytes);
    FirstPieceWaits(c, a, b);
    HeardTwice(c, a, b);
    HeardReads(c, a);
    var c1 := Heard(c, a);
    ReadHears(c, t, key, k);
    ReadHears(c1, t, key, k');
    ReadHears(c, t, key, k'.(recv := Data(a + b)));
    assert Delivered(a, c.toServer.Space()) == a && Delivered(b, c1.toServer.Space()) == b;
    ConcludedAlike(Heard(c1, b), t, key, k', Data(a + b));
  }

  lemma BringNothingEmpty(ks: seq<Kernel>)
    requires AllBring(ks) && ks != []
    ensures Brought(ks) != [] && AllBring(ks[1..])
  {
    assert Brings(ks[0]);
    PartsBring(ks, 1);
  }

  /**
   * Any number of read events that bring the pieces of a message, each with whatever else the kernel answers, are one read
   * event that brings it whole: the last, with its answers.
   */
  lemma {:induction false} EventsAreOne(c: Conn, t: Slots, key: Key, ks: seq<Kernel>)
    requires Reading(c) && ks != [] && AllBring(ks) && |Brought(ks)| <= c.toServer.Space()
    requires Heard(c, Brought(ks)).toServer.contents == []
    ensures ReadEvents(c, t, key, ks) == OnRead(c, t, key, AtOnce(ks))
    decreases |ks|
  {
    hide Heard, Over, OnRead, Reading;
    BringNothingEmpty(ks);
    if |ks| == 1 {
      assert Brought(ks) == ks[0].recv.bytes + [] == ks[0].recv.bytes;
      assert AtOnce(ks) == ks[0];
    } else {
      var a, b := ks[0].recv.bytes, Brought(ks[1..]);
      assert Brings(ks[0]);
      BringNothingEmpty(ks[1..]);
      FirstPieceWaits(c, a, b);
      HeardTwice(c, a, b);
      TwoEventsAreOne(c, t, key, ks[0], AtOnce(ks[1..]));
      EventsAreOne(Heard(c, a), t, key, ks[1..]);
      assert AtOnce(ks[1..]).(recv := Data(a + b)) == AtOnce(ks);
    }
  }

  lemma {:induction false} BroughtInTwo(ks: seq<Kernel>, i: nat)
    requires i <= |ks|
    ensures Brought(ks) == Brought(ks[..i]) + Brought(ks[i..])
    decreases i
  {
    if i == 0 {
      assert ks[..0] == [] && ks[0..] == ks;
    } else {
      BroughtInTwo(ks[1..], i - 1);
      assert ks[..i][1..] == ks[1..][..i - 1] && ks[1..][i - 1..] == ks[i..];
    }
  }

  lemma PartsBring(ks: seq<Kernel>, i: nat)
    requires AllBring(ks) && i <= |ks|
    ensures AllBring(ks[..i]) && AllBring(ks[i..])
  {
    hide Brings;
    forall j | 0 <= j < |ks| - i ensures Brings(ks[i..][j]) {
      assert Brings(ks[i + j]);
    }
  }

  /** Before the last piece the connection waits for the next one, watched as it was. */
  lemma PiecesWait(c: Conn, t: Slots, key: Key, ks: seq<Kernel>, i: nat)
    requires Reading(c) && AllBring(ks) && 0 < i < |ks| && |Brought(ks)| <= c.toServer.Space()
    requires Heard(c, Brought(ks)).toServer.contents == []
    ensures |Brought(ks[..i])| <= c.toServer.Space()
    ensures ReadEvents(c, t, key, ks[..i]) == Ok(Turn(Heard(c, Brought(ks[..i])), t, c.state.value, false))
  {
    hide Heard, Over, OnRead, Concluded;
    BroughtInTwo(ks, i);
    PartsBring(ks, i);
    BringNothingEmpty(ks[..i]);
    BringNothingEmpty(ks[i..]);
    var a := Brought(ks[..i]);
    FirstPieceWaits(c, a, Brought(ks[i..]));
    WaitingIsEmpty(c, a);
    EventsAreOne(c, t, key, ks[..i]);
    ReadHears(c, t, key, AtOnce(ks[..i]));
  }

  lemma WaitingIsEmpty(c: Conn, bs: seq<byte>)
    requires |bs| <= c.toServer.Space() && !Over(Heard(c, bs))
    ensures Heard(c, bs).toServer.contents == []
  {
    hide Heard, Over;
    match c.handshake {
      case InNegotiation(_) => IsOverNegotiation(c, bs);
      case InAuthentication(_) => IsOverAuthentication(c, bs);
      case InRequest(_) => IsOverRequest(c, bs);
    }
  }
}