/** What a client can read in the replies that a connection's handlers queue. */
module Replies {
  import opened Bytes
  import opened Results
  import opened Buffers
  import opened Incremental
  import opened SelectorTable
  import opened Connection
  import opened ConnectionInvariant
  import opened OriginWalk
  import opened RelayInvariant
  import N = NegotiationParser
  import A = AuthenticationParser
  import R = RequestParser
  import U = Users
  import V = Server

  /** The bytes queued between `c` and `c'`. */
  ghost predicate Queues(c: Conn, c': Conn, reply: seq<byte>) { c'.replies == c.replies + reply }

  /** A whole reply, as section 6 of RFC 1928 reads it. */
  ghost predicate Says(reply: seq<byte>, status: byte, bound: R.SockAddr) {
    R.DecodeReply(reply) == R.Answer(status, bound, |reply|)
  }

  lemma AddedIs(b: GoodBuf, bs: seq<byte>)
    requires |bs| <= b.Space()
    ensures Added(b, b.Append(bs)) == bs
  {
    assert (b.contents + bs)[|b.contents|..] == bs;
  }

  /** The negotiation's answer names the method that the parser selected. */
  lemma NegotiationAnswers(c: Conn, t: Slots, key: Key, k: Kernel)
    ensures var r := NegotiationReady(c, t, key, k);
            r.Ok? && r.value.next == NegotiationWrite ==>
              r.value.c.handshake.InNegotiation? && N.Done(r.value.c.handshake.neg)
              && Queues(c, r.value.c, [5, r.value.c.handshake.neg.selected])
  {
    hide N.Parse, N.Step;
    var r := NegotiationReady(c, t, key, k);
    if r.Ok? && r.value.next == NegotiationWrite {
      var p := r.value.c.handshake.neg;
      AddedIs(c.toClient, [5, p.selected]);
    }
  }

  /** The verdict is success, 0, if and only if the user table has the name and the password that were read. */
  lemma VerdictIsTheLogin(c: Conn, t: Slots, key: Key, k: Kernel)
    ensures var r := AuthenticationReady(c, t, key, k);
            r.Ok? && r.value.next == AuthWrite ==>
              && r.value.c.handshake.InAuthentication?
              && var p := r.value.c.handshake.auth;
              && r.value.c.username == Text(p.uname)
              && exists v :: Queues(c, r.value.c, [1, v]) && (v == 0 <==> U.Login(k.users, Text(p.uname), Text(p.passwd)) == 0)
  {
    hide A.Parse, A.Step, U.Login, Text;
    var r := AuthenticationReady(c, t, key, k);
    if r.Ok? && r.value.next == AuthWrite {
      var p := r.value.c.handshake.auth;
      var v: byte := if LoggedIn(p, k.users) then 0 else 1;
      LoginIsBinary(k.users, Text(p.uname), Text(p.passwd));
      AddedIs(c.toClient, [1, v]);
      assert Queues(c, r.value.c, [1, v]);
    }
  }

  lemma LoginIsBinary(u: U.Table, name: string, pass: string)
    ensures U.Login(u, name, pass) == 0 || U.Login(u, name, pass) == -1
  {
  }

  /** A login that succeeds is one of a user in the table, so only a refused or a deleted user is unknown later. */
  lemma LoggedInHasRow(u: U.Table, name: string, pass: string)
    requires U.Login(u, name, pass) >= 0
    ensures U.Find(u.rows, name) >= 0
  {
  }

  /** Bytes as characters. */
  function Chars(bs: seq<byte>): string { seq(|bs|, i requires 0 <= i < |bs| => bs[i] as char) }

  lemma {:induction false} TextIs(f: seq<byte>, bs: seq<byte>)
    requires |bs| < |f| && f[..|bs|] == bs && f[|bs|] == 0 && 0 !in bs
    ensures Text(f) == Chars(bs)
  {
    if bs != [] {
      assert f[0] == bs[0] && bs[0] in bs;
      assert f[1..][..|bs[1..]|] == bs[1..];
      assert forall b :: b in bs[1..] ==> b in bs;
      TextIs(f[1..], bs[1..]);
      assert Chars(bs) == [bs[0] as char] + Chars(bs[1..]);
    }
  }

  lemma MessagesAreNotEmpty(uname: seq<byte>, plen: byte, passwd: seq<byte>)
    requires |uname| <= 255
    ensures A.Encode(uname, plen, passwd) != []
  {
  }

  /** Credentials sent whole are judged by the user table, and by nothing else. */
  lemma CredentialsAreJudged(c: Conn, t: Slots, key: Key, k: Kernel, uname: seq<byte>, passwd: seq<byte>)
    requires c.handshake == InAuthentication(A.Init(Zeros(), Zeros())) && c.toServer.contents == []
    requires 1 <= |uname| <= 255 && 1 <= |passwd| <= 255 && 0 !in uname && 0 !in passwd
    requires k.recv == Data(A.Encode(uname, |passwd|, passwd)) && |k.recv.bytes| <= c.toServer.Space()
    requires key.fd in t && ValidFd(key.fd) && c.toClient.Space() >= 2
    ensures var r := AuthenticationReady(c, t, key, k);
            && r.Ok? && r.value.next == AuthWrite && !r.value.spawned
            && r.value.t == t[key.fd := Slot(OP_WRITE, t[key.fd].data)]
            && r.value.c.username == Chars(uname)
            && Queues(c, r.value.c, [1, if U.Login(k.users, Chars(uname), Chars(passwd)) == 0 then 0 else 1])
            && r.value.c.toServer.contents == []
            && r.value.c.toClient == c.toClient.Append([1, if U.Login(k.users, Chars(uname), Chars(passwd)) == 0 then 0 else 1])
            && r.value.c.clientFd == c.clientFd && r.value.c.originFd == c.originFd
            && r.value.c.clientEof == c.clientEof && r.value.c.originEof == c.originEof && r.value.c.state == c.state
            && r.value.c.toServer.limit == c.toServer.limit
  {
    hide A.Parse, A.Step, A.Encode, U.Login, Text, Zeros, A.Init, Chars;
    var p := A.Init(Zeros(), Zeros());
    var message := A.Encode(uname, |passwd|, passwd);
    MessagesAreNotEmpty(uname, |passwd|, passwd);
    A.RoundTrip(uname, passwd, []);
    assert message + [] == message;
    var c1 := TakeIn(c, message);
    assert c1.toServer.contents == message;
    var c2 := ParseAuthentication(c1, p);
    TextIs(c2.handshake.auth.uname, uname);
    TextIs(c2.handshake.auth.passwd, passwd);
    LoginIsBinary(k.users, Chars(uname), Chars(passwd));
    var v: byte := if U.Login(k.users, Chars(uname), Chars(passwd)) == 0 then 0 else 1;
    AddedIs(c.toClient, [1, v]);
    assert Delivered(k.recv.bytes, c.toServer.Space()) == message;
    assert A.Done(c2.handshake.auth);
    assert c2.toServer.contents == [];
    assert AuthenticationReady(c, t, key, k) == AnswerAuthentication(Named(c2), t, key, LoggedIn(c2.handshake.auth, k.users));
  }

  lemma ReplyReads(status: byte, bound: R.SockAddr)
    requires bound.Valid()
    ensures Says(R.Reply(status, bound), status,
                 if status == R.CON_SUCCEEDED && !bound.OtherFamily? then bound else R.NO_ADDRESS)
  {
    R.ReplyRoundTrip(status, bound, []);
    assert R.Reply(status, bound) + [] == R.Reply(status, bound);
  }

  /** A reply that fits is queued whole. */
  lemma RespondQueues(c: Conn, p: R.Req, bound: R.SockAddr)
    ensures var (failed, b) := R.Respond(p, c.toClient, bound);
            && (failed == 0 <==> |R.Reply(p.status, bound)| <= c.toClient.Space())
            && (failed == 0 ==> Queues(c, Answer(c, b, p.status, bound), R.Reply(p.status, bound)))
  {
    var reply := R.Reply(p.status, bound);
    if |reply| <= c.toClient.Space() {
      AddedIs(c.toClient, reply);
    }
  }

  lemma ErrorsAreShort(status: byte)
    ensures |R.Reply(status, R.NO_ADDRESS)| == 10
  {
  }

  /** An error reply goes out exactly when its key is still registered and ten bytes fit. */
  lemma ErrorReplyQueues(c: Conn, t: Slots, key: Key, reason: byte)
    requires c.handshake.InRequest?
    ensures var r := ErrorReply(c, t, key, reason);
            && r.Ok? && (r.value.next == ReqWrite || r.value.next == SocksError) && !r.value.spawned
            && (r.value.next == ReqWrite <==> SetInterest(t, key.fd, OP_WRITE).0 == Success && c.toClient.Space() >= 10)
            && (r.value.next == ReqWrite ==> Queues(c, r.value.c, R.Reply(reason, R.NO_ADDRESS)))
            && (SetInterest(t, key.fd, OP_WRITE).0 != Success ==> r.value.c.replies == c.replies)
            && r.value.c.handshake == InRequest(c.handshake.req.(state := R.ReqError, status := reason))
  {
    hide R.Respond, R.Reply, Answer;
    var p := c.handshake.req.(state := R.ReqError, status := reason);
    RespondQueues(c.(handshake := InRequest(p)), p, R.NO_ADDRESS);
    AnswerStatus(c.(handshake := InRequest(p)), p, reason, R.NO_ADDRESS);
    ErrorsAreShort(reason);
  }

  lemma ReachedConnections(c: Conn, t: Slots, id: nat)
    requires Live(c, id, t)
    ensures Droppable(c, t, id) && (c.originFd == -1 ==> t - {c.originFd} == t)
    ensures ValidFd(c.clientFd) && c.clientFd in t && (c.originFd != -1 ==> ValidFd(c.originFd) && c.originFd in t)
  {
    hide ConnOk, Watched;
    if c.originFd == -1 {
      assert t - {-1} == t;
      assert c.(originFd := -1) == c;
    }
  }

  /** What is left of the invariant for a request that is being read. */
  lemma ReadingRequest(c: Conn, t: Slots, id: nat)
    requires c.state == Some(ReqRead) && Live(c, id, t)
    ensures c.handshake.InRequest? && c.originFd == -1 && Droppable(c, t, id)
    ensures Consumes(R.Step, R.Done, ReqStart(), c.reqBytes, c.handshake.req)
  {
    hide Framed, Addresses, Said, NegFinished, AuthFinished, Consumes, NoAddress;
    ReachedConnections(c, t, id);
  }

  /** A walk over the addresses is answered exactly when none can be used, the key is registered and ten bytes fit. */
  lemma WalkRefuses(c: Conn, t: Slots, key: Key, attempts: seq<Attempt>, bound: Option<R.SockAddr>)
    requires Droppable(c, t, key.id) && c.handshake.InRequest?
    ensures var r := InitiateOriginConnection(c, t, key, attempts, bound);
            var t' := t - {c.originFd};
            && (r.Ok? && r.value.next == ReqWrite <==>
                  && AllFail(t', key.id, attempts, |c.current|)
                  && SetInterest(t', key.fd, OP_WRITE).0 == Success && c.toClient.Space() >= 10)
            && (r.Ok? && r.value.next == ReqWrite ==> Queues(c, r.value.c, R.Reply(R.CON_HOST_UNREACHABLE, R.NO_ADDRESS)))
  {
    hide InitiateOriginConnection, TryAddress, ErrorReply, Fails, R.Reply;
    var t' := t - {c.originFd};
    var i := FirstUsable(t', key.id, attempts, |c.current|);
    if i == |c.current| {
      var c' := ExhaustedWalk(c, t, key, attempts, bound);
      ErrorReplyQueues(c', t', key, R.CON_HOST_UNREACHABLE);
    } else {
      var _ := SettledWalk(c, t, key, attempts, bound, i);
    }
  }

  /** A request that leads straight to REQ_WRITE was refused, and its reply gives a non-zero reason and no address. */
  lemma RefusalsSayWhy(c: Conn, t: Slots, key: Key, k: Kernel) returns (reply: seq<byte>, reason: byte)
    requires c.state == Some(ReqRead) && Live(c, key.id, t)
    ensures var r := RequestReady(c, t, key, k);
            r.Ok? && r.value.next == ReqWrite ==>
              Queues(c, r.value.c, reply) && Says(reply, reason, R.NO_ADDRESS) && reason != 0
  {
    hide R.Reply, R.Parse, Says, HandleRequest, RefuseRequest, RequestReady, Live;
    ReadingRequest(c, t, key.id);
    reply, reason := [], 0;
    var r := RequestReady(c, t, key, k);
    if r.Ok? && r.value.next == ReqWrite {
      var c2 := ReadyReaches(c, t, key, k);
      reason := RequestIsRefused(c2, t, key, k);
      reply := R.Reply(reason, R.NO_ADDRESS);
      ReplyReads(reason, R.NO_ADDRESS);
    }
  }

  /** A request is answered from its read event only once it is complete. */
  lemma ReadyReaches(c: Conn, t: Slots, key: Key, k: Kernel) returns (c2: Conn)
    requires c.handshake.InRequest? && Consumes(R.Step, R.Done, ReqStart(), c.reqBytes, c.handshake.req)
    requires RequestReady(c, t, key, k).Ok? && RequestReady(c, t, key, k).value.next == ReqWrite
    ensures c2.handshake.InRequest? && c2.handshake.req == R.Parse(ReqStart(), c2.reqBytes).0
    ensures c2.replies == c.replies && c2.clientFd == c.clientFd && c2.originFd == c.originFd
    ensures RequestReady(c, t, key, k)
         == if c2.handshake.req.state == R.ReqError then RefuseRequest(c2, t, key) else HandleRequest(c2, t, key, k)
  {
    hide R.Parse, R.Step, HandleRequest, RefuseRequest, Consumes, ParseRequest, TakeIn;
    var c1 := TakeIn(c, Delivered(k.recv.bytes, c.toServer.Space()));
    TakeInFields(c, Delivered(k.recv.bytes, c.toServer.Space()));
    ParsedExactly(c1, c.handshake.req);
    c2 := ParseRequest(c1, c.handshake.req);
  }

  lemma TakeInFields(c: Conn, bs: seq<byte>)
    requires |bs| <= c.toServer.Space()
    ensures var c1 := TakeIn(c, bs);
            c1.reqBytes == c.reqBytes && c1.replies == c.replies && c1.clientFd == c.clientFd && c1.originFd == c.originFd
            && c1.handshake == c.handshake
  {
  }

  /** After a parse call the union holds what parsing all the bytes used so far would give. */
  lemma ParsedExactly(c: Conn, p: R.Req)
    requires Consumes(R.Step, R.Done, ReqStart(), c.reqBytes, p)
    ensures var c2 := ParseRequest(c, p);
            && c2.handshake.InRequest? && c2.handshake.req == R.Parse(ReqStart(), c2.reqBytes).0
            && c2.replies == c.replies && c2.clientFd == c.clientFd && c2.originFd == c.originFd
  {
    hide R.Step;
    ConsumesMore(R.Step, R.Done, ReqStart(), c.reqBytes, p, c.toServer.contents);
  }

  /** The part of the last lemma after the parse. */
  lemma RequestIsRefused(c: Conn, t: Slots, key: Key, k: Kernel) returns (reason: byte)
    requires c.handshake.InRequest? && c.handshake.req == R.Parse(ReqStart(), c.reqBytes).0
    requires c.originFd == -1 && Droppable(c, t, key.id)
    ensures var p := c.handshake.req;
            var r := if p.state == R.ReqError then RefuseRequest(c, t, key) else HandleRequest(c, t, key, k);
            r.Ok? && r.value.next == ReqWrite ==> reason != 0 && Queues(c, r.value.c, R.Reply(reason, R.NO_ADDRESS))
  {
    hide R.Respond, R.Reply, R.Parse, InitiateOriginConnection, ErrorReply, Answer;
    var p := c.handshake.req;
    if p.state == R.ReqError {
      reason := p.status;
      FaultHasAStatus(c.reqBytes);
      RespondQueues(c, p, R.NO_ADDRESS);
    } else if !k.memory {
      reason := R.CON_SERVER_FAILURE;
      ErrorReplyQueues(c, t, key, reason);
    } else {
      reason := R.CON_HOST_UNREACHABLE;
      WalkRefuses(OfferDirect(c, TargetOf(p)), t, key, k.attempts, k.bound);
    }
  }

  /** A resolved name is refused exactly when no address of it can be used, and the reply fits. */
  lemma ResolveRefuses(c: Conn, t: Slots, key: Key, k: Kernel)
    requires c.state == Some(ReqResolve) && Live(c, key.id, t) && Dispatched(t, key)
    ensures var r := RequestResolve(c, t, key, k);
            && (r.Ok? && r.value.next == ReqWrite <==>
                  (c.originAddr == None || AllFail(t, key.id, k.attempts, |c.current|)) && c.toClient.Space() >= 10)
            && (r.Ok? && r.value.next == ReqWrite ==>
                  exists reply :: Queues(c, r.value.c, reply) && Says(reply, R.CON_HOST_UNREACHABLE, R.NO_ADDRESS))
  {
    hide R.Reply, Says, ErrorReply, InitiateOriginConnection, Framed, Addresses, Fails;
    ReachedConnections(c, t, key.id);
    ErrorReplyQueues(c, t, key, R.CON_HOST_UNREACHABLE);
    WalkRefuses(c, t, key, k.attempts, k.bound);
    ReplyReads(R.CON_HOST_UNREACHABLE, R.NO_ADDRESS);
    var reply := R.Reply(R.CON_HOST_UNREACHABLE, R.NO_ADDRESS);
    assert Says(reply, R.CON_HOST_UNREACHABLE, R.NO_ADDRESS);
  }

  // ---------------------------------------------------------------- the answer to a connect

  lemma AnsweringConnect(c: Conn, t: Slots, id: nat)
    requires c.state == Some(ReqConnect) && Live(c, id, t)
    ensures c.handshake.InRequest? && c.originFd != -1 && Droppable(c, t, id)
    ensures ValidFd(c.clientFd) && c.clientFd in t && ValidFd(c.originFd) && c.originFd in t
  {
    hide Framed, Addresses, Said, NegFinished, AuthFinished, ReqOver;
    ReachedConnections(c, t, id);
  }

  /** A socket without an error is announced as a success with its bound address, whenever that reply fits. */
  lemma ConnectAnswers(c: Conn, t: Slots, key: Key, k: Kernel)
    requires c.state == Some(ReqConnect) && Live(c, key.id, t) && !k.soError
    requires k.bound.Some? ==> k.bound.value.Valid()
    ensures var r := RequestConnect(c, t, key, k);
            && (r.Ok? && r.value.next == ReqWrite <==>
                  k.bound.Some? && |R.Reply(R.CON_SUCCEEDED, k.bound.value)| <= c.toClient.Space())
            && (r.Ok? && r.value.next == ReqWrite ==>
                  exists reply :: Queues(c, r.value.c, reply)
                    && Says(reply, R.CON_SUCCEEDED, if k.bound.value.OtherFamily? then R.NO_ADDRESS else k.bound.value))
            && (r.Ok? && r.value.next == ReqWrite ==>
                  && r.value.c.originAddr == None && r.value.c.current == []
                  && r.value.c.handshake == InRequest(c.handshake.req.(status := R.CON_SUCCEEDED))
                  && r.value.c.released == c.released + (if c.originAddr.Some? then [c.originAddr.value.source] else []))
  {
    ReleasesItsOwn(c, t, key.id);
    hide R.Respond, R.Reply, Says, Live, Answer, DropOrigin, ErrorReply, InitiateOriginConnection;
    AnsweringConnect(c, t, key.id);
    if k.bound.Some? {
      var p := c.handshake.req.(status := R.CON_SUCCEEDED);
      var c1 := Release(c.(handshake := InRequest(p))).value;
      RespondQueues(c1, p, k.bound.value);
      AnswerKeepsFds(c1, p, k.bound.value);
      ReplyReads(R.CON_SUCCEEDED, k.bound.value);
      var r := RequestConnect(c, t, key, k);
      assert r.Ok? && r.value.next == ReqWrite ==> Queues(c, r.value.c, R.Reply(R.CON_SUCCEEDED, k.bound.value));
    }
  }

  lemma AnswerStatus(c: Conn, p: R.Req, status: byte, bound: R.SockAddr)
    ensures Answer(c, R.Respond(p, c.toClient, bound).1, status, bound).handshake == c.handshake
  {
  }

  lemma ReleasesItsOwn(c: Conn, t: Slots, id: nat)
    requires c.state == Some(ReqConnect) && Live(c, id, t)
    ensures c.originAddr.Some? && c.handshake.InRequest?
    ensures c.originAddr.value.source == if c.handshake.req.atyp == R.DN then Getaddrinfo else Malloc
  {
    hide Framed, Said, NegFinished, AuthFinished, ReqOver;
  }

  lemma AnswerKeepsFds(c: Conn, p: R.Req, bound: R.SockAddr)
    ensures var c' := Answer(c, R.Respond(p, c.toClient, bound).1, R.CON_SUCCEEDED, bound);
            c'.clientFd == c.clientFd && c'.originFd == c.originFd && c'.dialed == c.dialed && c'.current == c.current
            && c'.originAddr == c.originAddr && c'.released == c.released && c'.handshake == c.handshake
  {
  }

  /**
   * A failed connect is answered exactly when it is reported on the client's key, no address is left that can be
   * used, and the reply fits. A connect in progress is reported on the origin's key: its failure is never answered.
   */
  lemma FailureIsAnswered(c: Conn, t: Slots, key: Key, k: Kernel)
    requires c.state == Some(ReqConnect) && Live(c, key.id, t) && Dispatched(t, key) && k.soError
    ensures var r := RequestConnect(c, t, key, k);
            && (r.Ok? && r.value.next == ReqWrite <==>
                  && key.fd == c.clientFd && c.toClient.Space() >= 10
                  && (|c.current| == 1 || AllFail(t - {c.originFd}, key.id, k.attempts, |c.current|)))
            && (r.Ok? && r.value.next == ReqWrite ==> Queues(c, r.value.c, R.Reply(R.CON_HOST_UNREACHABLE, R.NO_ADDRESS)))
  {
    hide R.Reply, ErrorReply, InitiateOriginConnection, DropOrigin, Framed, Addresses, Fails, Release, R.Respond;
    ReachedConnections(c, t, key.id);
    var c1, t1 := c.(originFd := -1), t - {c.originFd};
    assert t1 - {-1} == t1;
    assert c.current[1..] == [] <==> |c.current| == 1;
    ErrorReplyQueues(c1, t1, key, R.CON_HOST_UNREACHABLE);
    DroppedAlready(c, t, key, k.attempts, k.bound);
    WalkRefuses(c1, t1, key, k.attempts, k.bound);
  }

  /** With one address, a failure reported on the origin's key ends the connection and tells the client nothing. */
  lemma FailureIsNotTold(c: Conn, t: Slots, key: Key, k: Kernel)
    requires c.state == Some(ReqConnect) && Live(c, key.id, t) && key.fd == c.originFd && k.soError && |c.current| == 1
    ensures var r := RequestConnect(c, t, key, k);
            r.Ok? && r.value.next == SocksError && r.value.c.replies == c.replies
  {
    hide R.Reply, ErrorReply, InitiateOriginConnection, DropOrigin, Framed, Addresses, Release, R.Respond;
    ReachedConnections(c, t, key.id);
    ErrorReplyQueues(c.(originFd := -1), t - {c.originFd}, key, R.CON_HOST_UNREACHABLE);
  }

  /**
   * A retry from the origin's key starts over at the address that failed. It goes on exactly when the first usable
   * attempt gets the descriptor that was just closed, and then nobody waits to write: not for a connect in progress,
   * and not to send the reply that a connect at once has queued.
   */
  lemma RetryFromTheOrigin(c: Conn, t: Slots, key: Key, k: Kernel) returns (i: nat)
    requires c.state == Some(ReqConnect) && Live(c, key.id, t) && key.fd == c.originFd && ValidFd(key.fd)
    requires k.soError && |c.current| > 1
    ensures i <= |c.current| && AllFail(t - {c.originFd}, key.id, k.attempts, i)
    ensures i < |c.current| ==> !Fails(t - {c.originFd}, key.id, Nth(k.attempts, i))
    ensures var r := RequestConnect(c, t, key, k);
            var a := Nth(k.attempts, i);
            && (r.Ok? && r.value.next == ReqConnect <==>
                  && i < |c.current| && a.fd == key.fd
                  && (a.result.InProgress?
                      || (k.bound.Some? && |R.Reply(R.CON_SUCCEEDED, k.bound.value)| <= c.toClient.Space())))
            && (r.Ok? && r.value.next == ReqConnect ==>
                  && !r.value.spawned && r.value.c.originFd == key.fd && r.value.c.clientFd == c.clientFd
                  && r.value.t == t[key.fd := Slot(if a.result.InProgress? then OP_NOOP else OP_READ, Client(key.id))])
            && (i < |c.current| && a == Opened(key.fd, InProgress) ==>
                  r.Ok? && r.value.c == c.(current := c.current[i..], dialed := r.value.c.dialed))
            && (r.Ok? && r.value.next == ReqConnect && a.result.Connected? ==>
                  Queues(c, r.value.c, R.Reply(R.CON_SUCCEEDED, k.bound.value)))
  {
    hide R.Reply, ErrorReply, InitiateOriginConnection, DropOrigin, Framed, Addresses, Release, R.Respond, TryAddress, Fails;
    ReachedConnections(c, t, key.id);
    var c1, t1 := c.(originFd := -1), t - {c.originFd};
    assert t1 - {-1} == t1;
    DroppedAlready(c, t, key, k.attempts, k.bound);
    i := FirstUsable(t1, key.id, k.attempts, |c.current|);
    if i == |c.current| {
      var c' := ExhaustedWalk(c1, t1, key, k.attempts, k.bound);
      ErrorReplyQueues(c', t1, key, R.CON_HOST_UNREACHABLE);
    } else {
      var c' := SettledWalk(c1, t1, key, k.attempts, k.bound, i);
      AttemptGoesOn(c', t1, key, Nth(k.attempts, i), k.bound);
      forall interest ensures t1[key.fd := Slot(interest, Client(key.id))] == t[key.fd := Slot(interest, Client(key.id))] {
      }
    }
  }

  lemma AtOnceGoesOn(c: Conn, t: Slots, key: Key, bound: Option<R.SockAddr>)
    requires c.handshake.InRequest? && ValidFd(c.originFd) && c.originFd in t
    ensures var r := ConnectedAtOnce(c, t, key, bound);
            && r.Ok?
            && (r.value.next == ReqConnect <==>
                  && ValidFd(key.fd) && key.fd in t
                  && bound.Some? && |R.Reply(R.CON_SUCCEEDED, bound.value)| <= c.toClient.Space())
            && !r.value.spawned && r.value.next in {ReqConnect, SocksError}
            && (r.value.next == ReqConnect ==>
                  && r.value.c.clientFd == c.clientFd && r.value.c.originFd == c.originFd
                  && r.value.t == SetInterest(SetInterest(t, key.fd, OP_WRITE).1, c.originFd, OP_READ).1
                  && r.value.c.dialed == c.dialed && r.value.c.current == c.current
                  && r.value.c.handshake == InRequest(c.handshake.req.(status := R.CON_SUCCEEDED))
                  && Queues(c, r.value.c, R.Reply(R.CON_SUCCEEDED, bound.value)))
  {
    hide R.Reply, R.Respond, Answer;
    if bound.Some? {
      var p := c.handshake.req.(status := R.CON_SUCCEEDED);
      var c1 := c.(handshake := InRequest(p));
      RespondQueues(c1, p, bound.value);
      AnswerKeepsFds(c1, p, bound.value);
    }
  }

  /** What is watched once an attempt on address `a`, reported to `key`, is under way. */
  function Underway(t: Slots, key: Key, a: Attempt): Slots
    requires a.Opened?
  {
    var t1 := t[a.fd := Slot(OP_NOOP, Client(key.id))];
    if a.result.InProgress? then SetInterest(SetInterest(t1, a.fd, OP_WRITE).1, key.fd, OP_NOOP).1
    else SetInterest(SetInterest(t1, key.fd, OP_WRITE).1, a.fd, OP_READ).1
  }

  /** An attempt that does not fail goes on exactly when its key is registered and what it has to say fits. */
  lemma AttemptGoesOn(c: Conn, t: Slots, key: Key, a: Attempt, bound: Option<R.SockAddr>)
    requires c.current != [] && !Fails(t, key.id, a) && c.handshake.InRequest?
    ensures ValidFd(a.fd) && a.fd !in t
    ensures var trial := TryAddress(c, t, key, a, bound);
            && trial.Settled? && trial.result.Ok?
            && var r := trial.result.value;
            && (r.next == ReqConnect <==>
                  && ValidFd(key.fd) && (key.fd in t || key.fd == a.fd)
                  && (a.result.InProgress?
                      || (bound.Some? && |R.Reply(R.CON_SUCCEEDED, bound.value)| <= c.toClient.Space())))
            && !r.spawned && r.next in {ReqConnect, SocksError}
            && (r.next == ReqConnect ==>
                  && r.c.clientFd == c.clientFd && r.c.originFd == a.fd && r.t == Underway(t, key, a)
                  && r.c.dialed == c.dialed + [c.current[0]] && r.c.current == c.current
                  && if a.result.InProgress? then r.c == c.(originFd := a.fd, dialed := c.dialed + [c.current[0]])
                     else Queues(c, r.c, R.Reply(R.CON_SUCCEEDED, bound.value)))
  {
    hide R.Reply, ConnectedAtOnce;
    AtOnceGoesOn(c.(originFd := a.fd, dialed := c.dialed + [c.current[0]]), t[a.fd := Slot(OP_NOOP, Client(key.id))], key, bound);
  }

  /**
   * A whole walk over the addresses: the first that can be used, and what it is settled with; or, if none can, the answer.
   * `t` is the table without the old origin.
   */
  ghost predicate Walked(c: Conn, t: Slots, key: Key, attempts: seq<Attempt>, bound: Option<R.SockAddr>, i: nat, r: Turn) {
    && i <= |c.current| && AllFail(t, key.id, attempts, i)
    && if i == |c.current| then
         && r.next == (if SetInterest(t, key.fd, OP_WRITE).0 == Success && c.toClient.Space() >= 10 then ReqWrite else SocksError)
         && (r.next == ReqWrite ==> Queues(c, r.c, R.Reply(R.CON_HOST_UNREACHABLE, R.NO_ADDRESS)))
       else
         var a := Nth(attempts, i);
         && a.Opened? && ValidFd(a.fd) && a.fd !in t && !a.result.Refused?
         && r.next == (if ValidFd(key.fd) && (key.fd in t || key.fd == a.fd)
                          && (a.result.InProgress? || (bound.Some? && |R.Reply(R.CON_SUCCEEDED, bound.value)| <= c.toClient.Space()))
                       then ReqConnect else SocksError)
         && (r.next == ReqConnect ==>
               && r.c.originFd == a.fd && r.c.clientFd == c.clientFd && r.t == Underway(t, key, a)
               && r.c.current == c.current[i..] && r.c.dialed != [] && r.c.dialed[|r.c.dialed| - 1] == c.current[i]
               && (a.result.Connected? ==> Queues(c, r.c, R.Reply(R.CON_SUCCEEDED, bound.value)))
               && (a.result.InProgress? ==> r.c.replies == c.replies))
  }

  lemma WalkOutcome(c: Conn, t: Slots, key: Key, attempts: seq<Attempt>, bound: Option<R.SockAddr>) returns (i: nat, r: Turn)
    requires Droppable(c, t, key.id) && c.handshake.InRequest?
    ensures InitiateOriginConnection(c, t, key, attempts, bound) == Ok(r) && !r.spawned
    ensures Walked(c, t - {c.originFd}, key, attempts, bound, i, r)
  {
    hide InitiateOriginConnection, TryAddress, ErrorReply, R.Reply, AllFail;
    var t' := t - {c.originFd};
    i := FirstUsable(t', key.id, attempts, |c.current|);
    if i == |c.current| {
      var c' := ExhaustedWalk(c, t, key, attempts, bound);
      ErrorReplyQueues(c', t', key, R.CON_HOST_UNREACHABLE);
    } else {
      var c' := SettledWalk(c, t, key, attempts, bound, i);
      AttemptGoesOn(c', t', key, Nth(attempts, i), bound);
    }
    r := InitiateOriginConnection(c, t, key, attempts, bound).value;
  }

  /** A failed connect with another address left is a walk that starts over at the address that failed. */
  lemma RetryIsAWalk(c: Conn, t: Slots, key: Key, k: Kernel) returns (i: nat, r: Turn)
    requires c.state == Some(ReqConnect) && Live(c, key.id, t) && k.soError && |c.current| > 1
    ensures RequestConnect(c, t, key, k) == Ok(r) && Walked(c, t - {c.originFd}, key, k.attempts, k.bound, i, r)
  {
    hide R.Reply, ErrorReply, InitiateOriginConnection, Live, Walked;
    AnsweringConnect(c, t, key.id);
    DroppedAlready(c, t, key, k.attempts, k.bound);
    i, r := WalkOutcome(c, t, key, k.attempts, k.bound);
  }

  /** A resolved name is dialled at the first of its addresses that can be used. */
  lemma ResolvedIsDialed(c: Conn, t: Slots, key: Key, k: Kernel, result: seq<Target>) returns (i: nat, r: Turn)
    requires c.state == Some(ReqResolve) && Live(c, key.id, t) && result != []
    ensures var c1 := V.StoreAnswer(c, result);
            && OnBlock(c1, t, key, k) == Ok(Finish(r)) && !r.spawned
            && c1.current == result && Walked(c1, t, key, k.attempts, k.bound, i, r)
  {
    hide R.Reply, InitiateOriginConnection, Walked, ErrorReply;
    Resolves(c, t, key.id);
    var c1 := V.StoreAnswer(c, result);
    StoredIsDroppable(c, t, key.id, result);
    i, r := WalkOutcome(c1, t, key, k.attempts, k.bound);
    assert t - {-1} == t;
  }

  lemma Resolves(c: Conn, t: Slots, id: nat)
    requires c.state == Some(ReqResolve) && Live(c, id, t)
    ensures c.originFd == -1 && c.handshake.InRequest? && Droppable(c, t, id) && -1 !in t
  {
    hide Framed, Addresses, Said, NegFinished, AuthFinished, ReqOver;
    ReachedConnections(c, t, id);
  }

  lemma StoredIsDroppable(c: Conn, t: Slots, id: nat, result: seq<Target>)
    requires Droppable(c, t, id) && c.originFd == -1
    ensures Droppable(V.StoreAnswer(c, result), t, id)
  {
    assert t - {-1} == t;
  }

  // ---------------------------------------------------------------- who waits for a connect

  /** Neither descriptor is watched for writing, the one event that REQ_CONNECT has a handler for. */
  predicate Unwatched(c: Conn, t: Slots) {
    && c.clientFd in t && !t[c.clientFd].interest.write
    && c.originFd in t && !t[c.originFd].interest.write
  }

  /** A connect is reported on the origin's key while it is in progress, and on the client's if it succeeded at once. */
  lemma WhoReports(c: Conn, t: Slots, key: Key)
    requires c.state == Some(ReqConnect) && Live(c, key.id, t) && Dispatched(t, key) && t[key.fd].interest.write
    ensures key.fd == c.originFd <==> t[c.clientFd].interest == OP_NOOP && t[c.originFd].interest == OP_WRITE
    ensures key.fd == c.clientFd <==> t[c.clientFd].interest == OP_WRITE && t[c.originFd].interest == OP_READ
    ensures key.fd == c.clientFd || key.fd == c.originFd
  {
    hide ConnOk;
  }

  /** A walk that starts without an origin and is left under way: the client waits if its own key told. */
  lemma WalkIsWatched(c: Conn, t: Slots, key: Key, attempts: seq<Attempt>, bound: Option<R.SockAddr>)
    requires Droppable(c, t, key.id) && c.originFd == -1 && c.handshake.InRequest?
    requires key.fd == c.clientFd || (key.fd !in t && !t[c.clientFd].interest.write)
    ensures var r := InitiateOriginConnection(c, t, key, attempts, bound);
            r.Ok? && r.value.next == ReqConnect ==>
              r.value.c.clientFd == c.clientFd && (Unwatched(r.value.c, r.value.t) <==> key.fd != c.clientFd)
  {
    hide R.Reply, ErrorReply, InitiateOriginConnection, DropOrigin, TryAddress, Fails;
    assert t - {-1} == t;
    var i := FirstUsable(t, key.id, attempts, |c.current|);
    if i == |c.current| {
      var c' := ExhaustedWalk(c, t, key, attempts, bound);
      ErrorReplyQueues(c', t, key, R.CON_HOST_UNREACHABLE);
    } else {
      var c' := SettledWalk(c, t, key, attempts, bound, i);
      AttemptGoesOn(c', t, key, Nth(attempts, i), bound);
    }
  }

  /** A connect whose failure leaves the connection in REQ_CONNECT is waited for if and only if the client's key told. */
  lemma RetryIsWatched(c: Conn, t: Slots, key: Key, k: Kernel)
    requires c.state == Some(ReqConnect) && Live(c, key.id, t) && Dispatched(t, key) && t[key.fd].interest.write
    ensures var r := RequestConnect(c, t, key, k);
            r.Ok? && r.value.next == ReqConnect ==>
              && k.soError && r.value.c.clientFd == c.clientFd
              && (Unwatched(r.value.c, r.value.t) <==> key.fd == c.originFd)
  {
    hide R.Reply, ErrorReply, InitiateOriginConnection, Live, Unwatched, Release, R.Respond;
    WhoReports(c, t, key);
    AnsweringConnect(c, t, key.id);
    var c1, t1 := c.(originFd := -1), t - {c.originFd};
    ErrorReplyQueues(c1, t1, key, R.CON_HOST_UNREACHABLE);
    DroppedAlready(c, t, key, k.attempts, k.bound);
    if k.soError {
      WalkIsWatched(c1, t1, key, k.attempts, k.bound);
    }
  }
}
