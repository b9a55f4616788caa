/** What holds of every connection between callbacks, and that each handler keeps it. */
module ConnectionInvariant {
  import opened Bytes
  import opened Results
  import opened Buffers
  import opened Incremental
  import opened SelectorTable
  import opened Connection
  import N = NegotiationParser
  import A = AuthenticationParser
  import R = RequestParser

  // ---------------------------------------------------------------- the bytes

  /** Every byte received is accounted for, in order, and so is every byte for the client. */
  ghost predicate Framed(c: Conn) {
    && c.received == c.negBytes + c.authBytes + c.reqBytes + c.toOrigin + c.toServer.contents
    && c.replies + c.fromOrigin == c.sent + c.toClient.contents
    && (c.toOrigin != [] ==> HandshakeOver(c))
    && Spoken(c.replies, c.greeting, c.verdict, c.answers, c.cut)
  }

  /**
   * The replies are the three kinds in order; each kind starts only when the one before is whole, and a verdict only
   * when 0x02 was granted. Only the last reply may be cut short.
   */
  ghost predicate Spoken(replies: seq<byte>, greeting: seq<byte>, verdict: seq<byte>, answers: seq<Answered>, cut: seq<byte>) {
    && replies == greeting + verdict + Joined(answers) + cut
    && (exists m: byte :: greeting <= [5, m])
    && (exists v: byte :: verdict <= [1, v] && (v == 0 || v == 1))
    && (verdict != [] ==> greeting == [5, N.PASS])
    && (answers != [] || cut != [] ==> |verdict| == 2)
    && (cut != [] ==> exists a: Answered :: cut <= R.Reply(a.status, a.bound))
  }

  /** The three messages of the handshake are complete. */
  ghost predicate HandshakeOver(c: Conn) {
    NegFinished(c) && AuthFinished(c) && ReqOver(c.reqBytes, R.Parse(ReqStart(), c.reqBytes).0)
  }

  function NegStart(): N.Neg { N.Init(0) }

  function AuthStart(): A.Auth { A.Init(Zeros(), Zeros()) }

  function ReqStart(): R.Req { R.Init(0, Zeros(), Zeros()) }

  ghost predicate NegOver(bs: seq<byte>, p: N.Neg) { Consumes(N.Step, N.Done, NegStart(), bs, p) && N.Done(p) }

  ghost predicate AuthOver(bs: seq<byte>, p: A.Auth) { Consumes(A.Step, A.Done, AuthStart(), bs, p) && A.Done(p) }

  ghost predicate ReqOver(bs: seq<byte>, p: R.Req) { Consumes(R.Step, R.Done, ReqStart(), bs, p) && R.Done(p) }

  /** The method list is complete, and 0x02 was selected. */
  ghost predicate NegFinished(c: Conn) {
    var p := N.Parse(NegStart(), c.negBytes).0;
    NegOver(c.negBytes, p) && p.state == N.NegDone && p.selected == N.PASS
  }

  /** The login message is over, complete or with a wrong version byte, and the user name read from it was copied. */
  ghost predicate AuthFinished(c: Conn) {
    var p := A.Parse(AuthStart(), c.authBytes).0; AuthOver(c.authBytes, p) && c.username == Text(p.uname)
  }

  /** The request is over, and what the union holds still names its address. */
  ghost predicate ReqFinished(c: Conn) {
    var p := R.Parse(ReqStart(), c.reqBytes).0;
    && ReqOver(c.reqBytes, p)
    && c.handshake.InRequest?
    && var q := c.handshake.req; q.atyp == p.atyp && q.address == p.address && q.port == p.port
  }

  /** The request was a well-formed CONNECT. */
  ghost predicate Requested(c: Conn) { R.Parse(ReqStart(), c.reqBytes).0.state == R.ReqDone }

  ghost predicate NoRelay(c: Conn) { c.toOrigin == [] && c.fromOrigin == [] }

  // ---------------------------------------------------------------- the address list

  ghost predicate NoAddress(c: Conn) {
    c.originAddr == None && c.current == [] && c.offered == [] && c.dialed == [] && c.obtained == [] && c.released == []
  }

  /** A list is released once at most, by the deallocator of its source, and only listed addresses are dialled. */
  ghost predicate Addresses(c: Conn) {
    && c.obtained == c.released + (if c.originAddr.Some? then [c.originAddr.value.source] else [])
    && |c.obtained| <= 1
    && (c.originAddr == None ==> c.current == [])
    && (c.originAddr.Some? ==> c.originAddr.value.list == c.offered && c.handshake.InRequest?)
    && (c.originAddr.Some? ==> (c.originAddr.value.source == Getaddrinfo <==> c.handshake.req.atyp == R.DN))
    && (c.handshake.InRequest? && c.handshake.req.atyp != R.DN && c.offered != [] ==>
          c.offered == [TargetOf(c.handshake.req)])
    && (c.offered != [] ==> Requested(c))
    && (forall x :: x in c.current || x in c.dialed ==> x in c.offered)
  }

  // ---------------------------------------------------------------- the stage of the handshake

  ghost predicate Stage(c: Conn) { Phase(c) && Said(c) }

  /** The parser in the union, and what the phases before it have used and left. */
  ghost predicate Phase(c: Conn) {
    match c.state
    case None => c == New(c.clientFd)
    case Some(NegotiationRead) =>
      && c.handshake.InNegotiation? && Consumes(N.Step, N.Done, NegStart(), c.negBytes, c.handshake.neg)
      && !N.Done(c.handshake.neg) && c.authBytes == [] && c.reqBytes == [] && NoRelay(c) && NoAddress(c)
    case Some(NegotiationWrite) =>
      && c.handshake.InNegotiation? && NegOver(c.negBytes, c.handshake.neg) && c.handshake.neg.state == N.NegDone
      && c.authBytes == [] && c.reqBytes == [] && NoRelay(c) && NoAddress(c)
    case Some(AuthRead) =>
      && NegFinished(c)
      && c.handshake.InAuthentication? && Consumes(A.Step, A.Done, AuthStart(), c.authBytes, c.handshake.auth)
      && !A.Done(c.handshake.auth) && c.reqBytes == [] && NoRelay(c) && NoAddress(c)
    case Some(AuthWrite) =>
      && NegFinished(c) && AuthFinished(c)
      && c.handshake.InAuthentication? && c.reqBytes == [] && NoRelay(c) && NoAddress(c)
    case Some(ReqRead) =>
      && NegFinished(c) && AuthFinished(c)
      && c.handshake.InRequest? && Consumes(R.Step, R.Done, ReqStart(), c.reqBytes, c.handshake.req)
      && !R.Done(c.handshake.req) && NoRelay(c) && NoAddress(c)
    case Some(ReqResolve) =>
      Late(c) && Requested(c) && NoRelay(c) && c.handshake.req.atyp == R.DN && (c.originAddr == None ==> NoAddress(c))
    case Some(ReqConnect) => Late(c) && NoRelay(c) && c.originAddr.Some? && c.current != []
    case Some(ReqWrite) => Late(c) && NoRelay(c)
    case Some(Copy) => Late(c)
    case _ => true
  }

  /** Nothing has been said about a request. */
  ghost predicate Unasked(c: Conn) { c.answers == [] && c.cut == [] && c.atOnce == 0 }

  /** The login has been answered, and every connect that succeeded at once: with success. */
  ghost predicate Asked(c: Conn) {
    |c.verdict| == 2 && c.cut == [] && |c.answers| == c.atOnce && AllSucceed(c.answers)
  }

  ghost predicate AllSucceed(answers: seq<Answered>) {
    forall i :: 0 <= i < |answers| ==> answers[i].status == R.CON_SUCCEEDED
  }

  /** The request has its last reply, a success if and only if there is an origin. */
  ghost predicate Replied(c: Conn) {
    && |c.verdict| == 2 && c.cut == [] && |c.answers| == c.atOnce + 1
    && AllSucceed(c.answers[..c.atOnce])
    && (c.answers[c.atOnce].status == R.CON_SUCCEEDED <==> c.originFd != -1)
  }

  /** What the client has been told by each state. */
  ghost predicate Said(c: Conn) {
    match c.state
    case None => c.greeting == [] && c.verdict == [] && Unasked(c)
    case Some(NegotiationRead) => c.greeting == [] && c.verdict == [] && Unasked(c)
    case Some(NegotiationWrite) =>
      c.handshake.InNegotiation? && c.greeting == [5, c.handshake.neg.selected] && c.verdict == [] && Unasked(c)
    case Some(AuthRead) => c.greeting == [5, N.PASS] && c.verdict == [] && Unasked(c)
    case Some(AuthWrite) => |c.verdict| == 2 && Unasked(c)
    case Some(ReqRead) => |c.verdict| == 2 && Unasked(c)
    case Some(ReqResolve) => |c.verdict| == 2 && Unasked(c)
    case Some(ReqConnect) => Asked(c)
    case Some(ReqWrite) => Replied(c)
    case Some(Copy) => Replied(c)
    case _ => true
  }

  ghost predicate Late(c: Conn) { NegFinished(c) && AuthFinished(c) && ReqFinished(c) }

  ghost predicate ConnOk(c: Conn) { Framed(c) && Addresses(c) && Stage(c) }

  // ---------------------------------------------------------------- the selector

  ghost predicate OnlyValidFds(t: Slots) { forall fd :: fd in t ==> ValidFd(fd) }

  /** The connection's slots are exactly those of its two descriptors. */
  ghost predicate Registered(c: Conn, id: nat, t: Slots) {
    && OnlyValidFds(t)
    && c.clientFd in t && t[c.clientFd].data == Client(id)
    && (c.originFd == -1 || (c.originFd in t && t[c.originFd].data == Client(id) && c.originFd != c.clientFd))
    && (forall fd :: fd in t && t[fd].data == Client(id) ==> fd == c.clientFd || fd == c.originFd)
  }

  /** The client is watched for exactly the event its state handles; later states rule out what would go wrong. */
  ghost predicate Watched(c: Conn, t: Slots)
    requires c.clientFd in t && (c.originFd == -1 || c.originFd in t)
  {
    var client := t[c.clientFd].interest;
    match c.state
    case None => client == OP_READ && c.originFd == -1
    case Some(NegotiationRead) => client == OP_READ && c.originFd == -1
    case Some(NegotiationWrite) => client == OP_WRITE && c.originFd == -1
    case Some(AuthRead) => client == OP_READ && c.originFd == -1
    case Some(AuthWrite) => client == OP_WRITE && c.originFd == -1
    case Some(ReqRead) => client == OP_READ && c.originFd == -1
    case Some(ReqResolve) => client == OP_NOOP && c.originFd == -1
    case Some(ReqConnect) => c.originFd != -1 && ConnectWatched(client, t[c.originFd].interest)
    case Some(ReqWrite) => client == OP_WRITE && (c.originFd == -1 || t[c.originFd].interest == OP_READ)
    case Some(Copy) => if c.originFd == -1 then client == OP_READ else RelayWatched(c, client, t[c.originFd].interest)
    case _ => true
  }

  /**
   * What is watched in REQ_CONNECT: the origin for a connect in progress, or the client for one that succeeded at once,
   * with the origin to be read; after a retry from the origin's key, nobody for writing.
   */
  predicate ConnectWatched(client: Interest, origin: Interest) {
    if client == OP_WRITE then origin == OP_READ else client == OP_NOOP && origin in {OP_NOOP, OP_READ, OP_WRITE}
  }

  /**
   * What is watched in COPY: each side for one event, at most one of them for writing, and a side that bytes wait for is
   * the one; only bytes that came with the request may wait until the client sends more.
   */
  predicate RelayWatched(c: Conn, client: Interest, origin: Interest) {
    && client in {OP_READ, OP_WRITE} && origin in {OP_READ, OP_WRITE} && (client == OP_READ || origin == OP_READ)
    && (c.toClient.contents != [] && !c.clientEof ==> client == OP_WRITE)
    && (c.toServer.contents != [] && !c.originEof && c.toOrigin != [] ==> origin == OP_WRITE)
  }

  ghost predicate Linked(c: Conn, id: nat, t: Slots) { Registered(c, id, t) && Watched(c, t) }

  /** Nobody else's slot is touched. */
  ghost predicate SameOthers(t: Slots, t': Slots, id: nat) {
    && (forall fd :: fd in t && t[fd].data != Client(id) ==> fd in t' && t'[fd] == t[fd])
    && (forall fd :: fd in t' && t'[fd].data != Client(id) ==> fd in t && t'[fd] == t[fd])
  }

  // ---------------------------------------------------------------- what a handler must establish

  predicate Terminal(s: SocksState) { s == SocksDone || s == SocksError }

  /** The connection and table after a handler and the jump that follows it. */
  ghost predicate Keeps(c: Conn, t: Slots, id: nat, r: Result<Turn>) {
    && r.Ok?
    && var c', t', next := Jump(r.value.c, r.value.next), r.value.t, r.value.next;
    && c'.state == Some(next)
    && ConnOk(c') && Registered(c', id, t') && (Terminal(next) || Watched(c', t'))
    && SameOthers(t, t', id) && c'.clientFd == c.clientFd
    && (r.value.spawned <==> next == ReqResolve)
    && (next == ReqResolve ==> NoAddress(c') && c.state == Some(ReqRead))
    && Grows(c, c')
  }

  /** End of stream is remembered, and what has gone by stays. */
  ghost predicate Grows(c: Conn, c': Conn) {
    && (c.clientEof ==> c'.clientEof) && (c.originEof ==> c'.originEof)
    && c.received <= c'.received && c.fromOrigin <= c'.fromOrigin && c.toOrigin <= c'.toOrigin && c.sent <= c'.sent
  }

  /** `socket` returns a descriptor that is not open. */
  ghost predicate FreshFds(attempts: seq<Attempt>, t: Slots) {
    forall a :: a in attempts && a.Opened? ==> a.fd !in t
  }

  ghost predicate Dispatched(t: Slots, key: Key) { key.fd in t && t[key.fd].data == Client(key.id) }

  // ---------------------------------------------------------------- steps on the bytes

  lemma TakeInFramed(c: Conn, bs: seq<byte>)
    requires Framed(c) && |bs| <= c.toServer.Space()
    ensures Framed(TakeIn(c, bs))
  {
    var before := c.negBytes + c.authBytes + c.reqBytes + c.toOrigin;
    assert before + (c.toServer.contents + bs) == before + c.toServer.contents + bs;
  }

  /** The front of the buffer becomes part of what a parser has used; later phases have seen nothing yet. */
  lemma Regrouped(a: seq<byte>, b: seq<byte>, d: seq<byte>, used: seq<byte>, left: seq<byte>)
    ensures a + b + d + [] + (used + left) == a + b + (d + used) + [] + left
    ensures a + b + [] + [] + (used + left) == a + (b + used) + [] + [] + left
    ensures a + [] + [] + [] + (used + left) == (a + used) + [] + [] + [] + left
  {
  }

  lemma SplitInput(b: GoodBuf, left: seq<byte>)
    requires |left| <= |b.contents| && b.contents == b.contents[..|b.contents| - |left|] + left
    ensures Leaving(b, left).contents == left
  {
  }

  /** The part of framing that a reply changes. */
  lemma QueueFramed(c: Conn, c': Conn, b: GoodBuf, reply: seq<byte>)
    requires Framed(c) && c.fromOrigin == [] && b.contents == c.toClient.contents + reply
    requires c' == Queue(c, b).(greeting := c'.greeting, verdict := c'.verdict, answers := c'.answers, cut := c'.cut,
                                atOnce := c'.atOnce)
    requires Spoken(c'.replies, c'.greeting, c'.verdict, c'.answers, c'.cut)
    ensures Framed(c')
  {
    hide Spoken;
    assert Added(c.toClient, b) == reply;
    assert c.replies + [] == c.replies;
    assert c.replies + reply + [] == c.replies + reply;
    assert c.sent + (c.toClient.contents + reply) == c.sent + c.toClient.contents + reply;
  }

  lemma NewIsFramed(fd: int)
    ensures Framed(New(fd))
  {
    assert [] <= [5, 0] && [] <= [1, 0];
  }

  lemma GreetSpeaks(c: Conn, b: GoodBuf, m: byte)
    requires Framed(c) && c.greeting == [] && Added(c.toClient, b) <= [5, m]
    ensures var c' := Greet(c, b); Spoken(c'.replies, c'.greeting, c'.verdict, c'.answers, c'.cut)
  {
    var added := Added(c.toClient, b);
    assert c.replies == [] && c.verdict == [] && c.answers == [] && c.cut == [];
    assert [] + added == added + [] + Joined([]) + [];
    assert [] <= [1, 0];
  }

  lemma JudgeSpeaks(c: Conn, b: GoodBuf, v: byte)
    requires Framed(c) && c.greeting == [5, N.PASS] && c.verdict == [] && v in {0, 1}
    requires Added(c.toClient, b) <= [1, v]
    ensures var c' := Judge(c, b); Spoken(c'.replies, c'.greeting, c'.verdict, c'.answers, c'.cut)
  {
    var added := Added(c.toClient, b);
    assert c.answers == [] && c.cut == [];
    assert c.greeting + [] + Joined([]) + [] == c.greeting;
    assert c.greeting + added == c.greeting + added + Joined([]) + [];
    assert c.greeting <= [5, N.PASS];
  }

  lemma OneMoreAnswer(answers: seq<Answered>, a: Answered)
    ensures Joined(answers + [a]) == Joined(answers) + R.Reply(a.status, a.bound)
  {
    assert (answers + [a])[..|answers|] == answers;
  }

  lemma AnswerSpeaks(c: Conn, b: GoodBuf, status: byte, bound: R.SockAddr)
    requires Framed(c) && |c.verdict| == 2 && c.cut == [] && Added(c.toClient, b) <= R.Reply(status, bound)
    ensures var c' := Answer(c, b, status, bound); Spoken(c'.replies, c'.greeting, c'.verdict, c'.answers, c'.cut)
  {
    hide R.Reply, Joined, HandshakeOver;
    var added := Added(c.toClient, b);
    var front := c.greeting + c.verdict + Joined(c.answers);
    assert c.replies == front + [] == front;
    var a := Answered(status, bound);
    OneMoreAnswer(c.answers, a);
    assert front + added == c.greeting + c.verdict + (Joined(c.answers) + added) + [];
    assert added <= R.Reply(a.status, a.bound);
  }

  lemma DrainToClientFramed(c: Conn, n: nat)
    requires Framed(c) && n <= |c.toClient.contents|
    ensures Framed(DrainToClient(c, c.clientFd, n))
  {
    assert c.toClient.contents == c.toClient.contents[..n] + c.toClient.Drop(n).contents;
    assert c.sent + c.toClient.contents == c.sent + c.toClient.contents[..n] + c.toClient.Drop(n).contents;
  }

  // ---------------------------------------------------------------- steps on the table

  lemma SetInterestLinked(c: Conn, id: nat, t: Slots, fd: int, i: Interest)
    requires Registered(c, id, t) && fd in t && t[fd].data == Client(id)
    ensures var (status, t') := SetInterest(t, fd, i);
            && status == Success && t' == t[fd := Slot(i, Client(id))]
            && Registered(c, id, t') && SameOthers(t, t', id)
  {
  }

  /** What a handler has kept when it gives up. */
  ghost predicate Sound(c: Conn, t: Slots, id: nat, c': Conn, t': Slots) {
    && Framed(c') && Addresses(c') && Registered(c', id, t') && SameOthers(t, t', id)
    && c'.clientFd == c.clientFd && c'.state == c.state && Grows(c, c')
  }

  lemma SelfSound(c: Conn, t: Slots, id: nat)
    requires ConnOk(c) && Registered(c, id, t)
    ensures Sound(c, t, id, c, t)
  {
  }

  lemma SetInterestSound(c0: Conn, t0: Slots, id: nat, c: Conn, t: Slots, fd: int, i: Interest)
    requires Sound(c0, t0, id, c, t) && fd in t && t[fd].data == Client(id)
    ensures SetInterest(t, fd, i) == (Success, t[fd := Slot(i, Client(id))])
    ensures Sound(c0, t0, id, c, t[fd := Slot(i, Client(id))])
  {
    SetInterestLinked(c, id, t, fd, i);
  }

  lemma EndKeeps(c: Conn, t: Slots, id: nat, c': Conn, t': Slots, next: SocksState)
    requires Sound(c, t, id, c', t') && c.state.Some? && Terminal(next)
    ensures Keeps(c, t, id, Go(c', t', next))
  {
    hide SameOthers, Spoken, NegOver, AuthOver, ReqOver;
  }

  lemma FailKeeps(c: Conn, t: Slots, id: nat, c': Conn, t': Slots)
    requires Sound(c, t, id, c', t') && c.state.Some?
    ensures Keeps(c, t, id, Go(c', t', SocksError))
  {
    EndKeeps(c, t, id, c', t', SocksError);
  }

  lemma StayKeeps(c: Conn, t: Slots, id: nat, c': Conn, t': Slots, s: SocksState)
    requires c.state == Some(s) && s != ReqResolve && Sound(c, t, id, c', t') && Stage(c') && Watched(c', t')
    ensures Keeps(c, t, id, Go(c', t', s))
  {
    hide SameOthers, Consumes;
  }

  lemma MoveKeeps(c: Conn, t: Slots, id: nat, c': Conn, t': Slots, next: SocksState)
    requires c.state.Some? && c.state != Some(next) && next != ReqResolve && Sound(c, t, id, c', t')
    requires var c'' := Arrive(c'.(state := Some(next)), next); Stage(c'') && Addresses(c'') && Watched(c'', t')
    ensures Keeps(c, t, id, Go(c', t', next))
  {
    hide SameOthers, Stage, Watched, Addresses, NegOver, AuthOver, ReqOver;
  }

  lemma DrainSound(c: Conn, t: Slots, id: nat, n: nat)
    requires ConnOk(c) && Registered(c, id, t) && n <= |c.toClient.contents|
    ensures Sound(c, t, id, DrainToClient(c, c.clientFd, n), t)
  {
    DrainToClientFramed(c, n);
  }

  lemma GreetSound(c0: Conn, t0: Slots, id: nat, c: Conn, t: Slots, p: N.Neg)
    requires Sound(c0, t0, id, c, t) && c.fromOrigin == [] && c.greeting == []
    ensures Sound(c0, t0, id, Greet(c, N.Respond(p, c.toClient).1), t)
    ensures N.Respond(p, c.toClient).0 == 0 ==> Greet(c, N.Respond(p, c.toClient).1).greeting == [5, p.selected]
  {
    var b := N.Respond(p, c.toClient).1;
    var added := Added(c.toClient, b);
    assert b.contents == c.toClient.contents + added && added <= [5, p.selected];
    GreetSpeaks(c, b, p.selected);
    QueueFramed(c, Greet(c, b), b, added);
  }

  lemma JudgeSound(c0: Conn, t0: Slots, id: nat, c: Conn, t: Slots, v: byte)
    requires Sound(c0, t0, id, c, t) && c.fromOrigin == [] && c.greeting == [5, N.PASS] && c.verdict == [] && v in {0, 1}
    ensures Sound(c0, t0, id, Judge(c, A.Respond(c.toClient, v).1), t)
    ensures A.Respond(c.toClient, v).0 == 0 ==> Judge(c, A.Respond(c.toClient, v).1).verdict == [1, v]
  {
    hide Spoken, SameOthers, NegOver, AuthOver, ReqOver;
    var b := A.Respond(c.toClient, v).1;
    var added := Added(c.toClient, b);
    assert b.contents == c.toClient.contents + added && added <= [1, v];
    JudgeSpeaks(c, b, v);
    QueueFramed(c, Judge(c, b), b, added);
  }

  lemma AnswerSound(c0: Conn, t0: Slots, id: nat, c: Conn, t: Slots, p: R.Req, bound: R.SockAddr)
    requires Sound(c0, t0, id, c, t) && c.fromOrigin == [] && |c.verdict| == 2 && c.cut == []
    ensures var (failed, b) := R.Respond(p, c.toClient, bound);
            && Sound(c0, t0, id, Answer(c, b, p.status, bound), t)
            && (failed == 0 ==>
                  Answer(c, b, p.status, bound) == Queue(c, b).(answers := c.answers + [Answered(p.status, bound)]))
  {
    hide R.Reply;
    var (failed, b) := R.Respond(p, c.toClient, bound);
    var added := Added(c.toClient, b);
    assert b.contents == c.toClient.contents + added && added <= R.Reply(p.status, bound);
    AnswerSpeaks(c, b, p.status, bound);
    QueueFramed(c, Answer(c, b, p.status, bound), b, added);
  }

  lemma SelectsOneOrNone(bs: seq<byte>)
    ensures var p := N.Parse(NegStart(), bs).0;
            p.state == N.NegDone ==> p.selected == N.PASS || p.selected == N.NOT_ACCEPTABLE
  {
    N.Grammar(0, bs);
    if N.Parse(NegStart(), bs).0.state == N.NegDone {
      var methods, rest :| N.IsMessage(bs, methods, rest);
      N.RoundTrip(0, methods, rest);
    }
  }

  lemma NegotiationSendKeeps(c: Conn, t: Slots, key: Key, k: Kernel)
    requires c.state == Some(NegotiationWrite) && ConnOk(c) && Linked(c, key.id, t) && Dispatched(t, key)
    ensures Keeps(c, t, key.id, NegotiationSend(c, t, key, k))
  {
    hide Framed, SameOthers, Grows, Keeps;
    SelfSound(c, t, key.id);
    var n := if k.send.Takes? then Taken(k.send.n, |c.toClient.contents|) else 0;
    if n == 0 {
      FailKeeps(c, t, key.id, c, t);
    } else {
      DrainSound(c, t, key.id, n);
      var c1 := DrainToClient(c, key.fd, n);
      if c1.toClient.contents != [] {
        StayKeeps(c, t, key.id, c1, t, NegotiationWrite);
      } else if c.handshake.neg.selected == N.NOT_ACCEPTABLE {
        FailKeeps(c, t, key.id, c1, t);
      } else {
        SetInterestSound(c, t, key.id, c1, t, key.fd, OP_READ);
        SelectsOneOrNone(c.negBytes);
        MoveKeeps(c, t, key.id, c1, SetInterest(t, key.fd, OP_READ).1, AuthRead);
      }
    }
  }

  lemma TakeInSound(c: Conn, t: Slots, id: nat, bs: seq<byte>)
    requires ConnOk(c) && Registered(c, id, t) && |bs| <= c.toServer.Space()
    ensures Sound(c, t, id, TakeIn(c, bs), t)
  {
    TakeInFramed(c, bs);
  }

  lemma ParseNegotiationFramed(c: Conn, p: N.Neg)
    requires Framed(c) && c.authBytes == [] && c.reqBytes == [] && c.toOrigin == []
    requires Consumes(N.Step, N.Done, NegStart(), c.negBytes, p)
    ensures var c' := ParseNegotiation(c, p);
            Framed(c') && Consumes(N.Step, N.Done, NegStart(), c'.negBytes, c'.handshake.neg)
  {
    hide Consumes;
    var input := c.toServer.contents;
    var left := N.Parse(p, input).1;
    var used := input[..|input| - |left|];
    ConsumesMore(N.Step, N.Done, NegStart(), c.negBytes, p, input);
    SplitInput(c.toServer, left);
    Regrouped(c.negBytes, c.authBytes, c.reqBytes, used, left);
  }

  lemma ParseNegotiationSound(c0: Conn, t0: Slots, id: nat, c: Conn, t: Slots, p: N.Neg)
    requires Sound(c0, t0, id, c, t) && c.toOrigin == [] && c.authBytes == [] && c.reqBytes == [] && c.originAddr == None
    requires c.handshake.InNegotiation? && Consumes(N.Step, N.Done, NegStart(), c.negBytes, p)
    ensures var c' := ParseNegotiation(c, p);
            && Sound(c0, t0, id, c', t)
            && Consumes(N.Step, N.Done, NegStart(), c'.negBytes, c'.handshake.neg)
  {
    ParseNegotiationFramed(c, p);
    hide Consumes, SameOthers, Framed;
  }

  lemma AnswerNegotiationKeeps(c: Conn, t: Slots, c1: Conn, key: Key)
    requires c.state == Some(NegotiationRead) && Stage(c) && Sound(c, t, key.id, c1, t) && key.fd == c.clientFd
    requires c1.handshake.InNegotiation? && NegOver(c1.negBytes, c1.handshake.neg)
    requires c1.authBytes == [] && c1.reqBytes == [] && NoRelay(c1) && NoAddress(c1) && c1.originFd == -1 && c1.greeting == [] && c1.verdict == [] && Unasked(c1)
    ensures Keeps(c, t, key.id, AnswerNegotiation(c1, t, key))
  {
    hide Framed, SameOthers, Grows, Keeps;
    SetInterestSound(c, t, key.id, c1, t, key.fd, OP_WRITE);
    var t' := SetInterest(t, key.fd, OP_WRITE).1;
    var (failed, b) := N.Respond(c1.handshake.neg, c1.toClient);
    GreetSound(c, t, key.id, c1, t', c1.handshake.neg);
    if failed != 0 {
      FailKeeps(c, t, key.id, Greet(c1, b), t');
    } else {
      MoveKeeps(c, t, key.id, Greet(c1, b), t', NegotiationWrite);
    }
  }

  lemma NegotiationReadyKeeps(c: Conn, t: Slots, key: Key, k: Kernel)
    requires c.state == Some(NegotiationRead) && ConnOk(c) && Linked(c, key.id, t) && Dispatched(t, key)
    ensures Keeps(c, t, key.id, NegotiationReady(c, t, key, k))
  {
    hide Framed, SameOthers, Grows, Keeps;
    SelfSound(c, t, key.id);
    if c.toServer.Space() == 0 {
      StayKeeps(c, t, key.id, c, t, NegotiationRead);
    } else if !k.recv.Data? || k.recv.bytes == [] {
      FailKeeps(c, t, key.id, c, t);
    } else {
      var c1 := TakeIn(c, Delivered(k.recv.bytes, c.toServer.Space()));
      TakeInSound(c, t, key.id, Delivered(k.recv.bytes, c.toServer.Space()));
      ParseNegotiationSound(c, t, key.id, c1, t, c.handshake.neg);
      var c2 := ParseNegotiation(c1, c.handshake.neg);
      if N.Done(c2.handshake.neg) {
        AnswerNegotiationKeeps(c, t, c2, key);
      } else {
        StayKeeps(c, t, key.id, c2, t, NegotiationRead);
      }
    }
  }

  lemma ParseAuthenticationFramed(c: Conn, p: A.Auth)
    requires Framed(c) && c.reqBytes == [] && c.toOrigin == []
    requires Consumes(A.Step, A.Done, AuthStart(), c.authBytes, p)
    ensures var c' := ParseAuthentication(c, p);
            Framed(c') && Consumes(A.Step, A.Done, AuthStart(), c'.authBytes, c'.handshake.auth)
  {
    hide Consumes;
    var input := c.toServer.contents;
    var left := A.Parse(p, input).1;
    var used := input[..|input| - |left|];
    ConsumesMore(A.Step, A.Done, AuthStart(), c.authBytes, p, input);
    SplitInput(c.toServer, left);
    Regrouped(c.negBytes, c.authBytes, c.reqBytes, used, left);
  }

  lemma ParseAuthenticationSound(c0: Conn, t0: Slots, id: nat, c: Conn, t: Slots, p: A.Auth)
    requires Sound(c0, t0, id, c, t) && c.toOrigin == [] && c.reqBytes == [] && c.originAddr == None
    requires c.handshake.InAuthentication? && Consumes(A.Step, A.Done, AuthStart(), c.authBytes, p)
    ensures var c' := ParseAuthentication(c, p);
            && Sound(c0, t0, id, c', t)
            && Consumes(A.Step, A.Done, AuthStart(), c'.authBytes, c'.handshake.auth)
  {
    ParseAuthenticationFramed(c, p);
    hide Consumes, SameOthers, Framed;
  }

  lemma NamedSound(c0: Conn, t0: Slots, id: nat, c: Conn, t: Slots)
    requires Sound(c0, t0, id, c, t) && c.handshake.InAuthentication? && c.toOrigin == []
    ensures Sound(c0, t0, id, Named(c), t)
  {
  }

  lemma AnswerAuthenticationKeeps(c: Conn, t: Slots, c1: Conn, key: Key, login: bool)
    requires c.state == Some(AuthRead) && Sound(c, t, key.id, c1, t) && key.fd == c.clientFd
    requires NegFinished(c1) && c1.handshake.InAuthentication? && AuthOver(c1.authBytes, c1.handshake.auth)
    requires c1.username == Text(c1.handshake.auth.uname)
    requires c1.reqBytes == [] && NoRelay(c1) && NoAddress(c1) && c1.originFd == -1
    requires c1.greeting == [5, N.PASS] && c1.verdict == [] && Unasked(c1)
    ensures Keeps(c, t, key.id, AnswerAuthentication(c1, t, key, login))
  {
    hide Framed, SameOthers, Grows, Keeps;
    var (failed, b) := A.Respond(c1.toClient, if login then A.AUTHENTICATED else A.ACCESS_DENIED);
    JudgeSound(c, t, key.id, c1, t, if login then A.AUTHENTICATED else A.ACCESS_DENIED);
    var c2 := Judge(c1, b);
    if failed != 0 {
      FailKeeps(c, t, key.id, c2, t);
    } else {
      SetInterestSound(c, t, key.id, c2, t, key.fd, OP_WRITE);
      MoveKeeps(c, t, key.id, c2, SetInterest(t, key.fd, OP_WRITE).1, AuthWrite);
    }
  }

  lemma AuthenticationReadyKeeps(c: Conn, t: Slots, key: Key, k: Kernel)
    requires c.state == Some(AuthRead) && ConnOk(c) && Linked(c, key.id, t) && Dispatched(t, key)
    ensures Keeps(c, t, key.id, AuthenticationReady(c, t, key, k))
  {
    hide Framed, SameOthers, Grows, Keeps;
    SelfSound(c, t, key.id);
    if c.toServer.Space() == 0 {
      StayKeeps(c, t, key.id, c, t, AuthRead);
    } else if !k.recv.Data? || k.recv.bytes == [] {
      FailKeeps(c, t, key.id, c, t);
    } else {
      var c1 := TakeIn(c, Delivered(k.recv.bytes, c.toServer.Space()));
      TakeInSound(c, t, key.id, Delivered(k.recv.bytes, c.toServer.Space()));
      ParseAuthenticationSound(c, t, key.id, c1, t, c.handshake.auth);
      var c2 := ParseAuthentication(c1, c.handshake.auth);
      if A.Done(c2.handshake.auth) {
        NamedSound(c, t, key.id, c2, t);
        AnswerAuthenticationKeeps(c, t, Named(c2), key, LoggedIn(c2.handshake.auth, k.users));
      } else {
        StayKeeps(c, t, key.id, c2, t, AuthRead);
      }
    }
  }

  lemma AuthenticationSendKeeps(c: Conn, t: Slots, key: Key, k: Kernel)
    requires c.state == Some(AuthWrite) && ConnOk(c) && Linked(c, key.id, t) && Dispatched(t, key)
    ensures Keeps(c, t, key.id, AuthenticationSend(c, t, key, k))
  {
    hide Framed, SameOthers, Grows, Keeps, NegOver, AuthOver;
    SelfSound(c, t, key.id);
    var n := if k.send.Takes? then Taken(k.send.n, |c.toClient.contents|) else 0;
    if n == 0 {
      FailKeeps(c, t, key.id, c, t);
    } else {
      DrainSound(c, t, key.id, n);
      var c1 := DrainToClient(c, key.fd, n);
      if c1.toClient.contents != [] {
        StayKeeps(c, t, key.id, c1, t, AuthWrite);
      } else {
        SetInterestSound(c, t, key.id, c1, t, key.fd, OP_READ);
        MoveKeeps(c, t, key.id, c1, SetInterest(t, key.fd, OP_READ).1, ReqRead);
      }
    }
  }

  // ---------------------------------------------------------------- connecting to the origin

  /** Arriving at (or staying in) one of the states that have no arrival hook and follow a request. */
  lemma LandKeeps(c: Conn, t: Slots, id: nat, c': Conn, t': Slots, next: SocksState)
    requires c.state.Some? && next in {ReqConnect, ReqWrite, Copy} && Sound(c, t, id, c', t')
    requires var c'' := c'.(state := Some(next)); Stage(c'') && Watched(c'', t')
    ensures Keeps(c, t, id, Go(c', t', next))
  {
    hide SameOthers, Consumes;
  }

  /** The request is parsed and its address list is there, or was. */
  ghost predicate Dialing(c0: Conn, t0: Slots, id: nat, c: Conn, t: Slots) {
    && Sound(c0, t0, id, c, t) && Late(c) && NoRelay(c) && Asked(c)
    && c0.state in {Some(ReqRead), Some(ReqResolve), Some(ReqConnect)}
  }

  /** A callback's key is the client's, or that of an origin descriptor that is, or was, this connection's. */
  ghost predicate KeyUsable(c: Conn, t: Slots, key: Key)
    requires c.clientFd in t
  {
    key.fd == c.clientFd || (t[c.clientFd].interest == OP_NOOP && (key.fd !in t || key.fd == c.originFd))
  }

  lemma DropOriginDials(c0: Conn, t0: Slots, id: nat, c: Conn, t: Slots)
    requires Dialing(c0, t0, id, c, t)
    ensures var r := DropOrigin(c, t, id);
            && r == Ok((c.(originFd := -1), t - {c.originFd}))
            && Dialing(c0, t0, id, r.value.0, r.value.1)
  {
    if c.originFd == -1 {
      assert t - {-1} == t;
      assert c.(originFd := -1) == c;
    }
  }

  /** Setting the parser's state and status leaves the address it names alone. */
  lemma StatusDials(c0: Conn, t0: Slots, id: nat, c: Conn, t: Slots, rp: R.Req)
    requires Dialing(c0, t0, id, c, t)
    requires rp == c.handshake.req.(state := rp.state, status := rp.status)
    ensures Dialing(c0, t0, id, c.(handshake := InRequest(rp)), t)
  {
    assert TargetOf(rp) == TargetOf(c.handshake.req);
  }

  /** A reply that fits settles the request; one that does not is the last thing said. */
  lemma AnswerSettles(c0: Conn, t0: Slots, id: nat, c: Conn, t: Slots, bound: R.SockAddr)
    requires Dialing(c0, t0, id, c, t)
    ensures var p := c.handshake.req;
            var (failed, b) := R.Respond(p, c.toClient, bound);
            var c' := Answer(c, b, p.status, bound);
            && Sound(c0, t0, id, c', t)
            && (failed == 0 ==> c' == Queue(c, b).(answers := c.answers + [Answered(p.status, bound)]))
            && (failed == 0 && (p.status == R.CON_SUCCEEDED <==> c.originFd != -1) ==> Late(c') && NoRelay(c') && Replied(c'))
  {
    hide R.Reply, R.Respond, SameOthers, Framed, Addresses;
    AnswerSound(c0, t0, id, c, t, c.handshake.req, bound);
  }

  lemma CountSound(c0: Conn, t0: Slots, id: nat, c: Conn, t: Slots, atOnce: nat)
    requires Sound(c0, t0, id, c, t)
    ensures Sound(c0, t0, id, c.(atOnce := atOnce), t)
  {
    hide Spoken, SameOthers, NegOver, AuthOver, ReqOver;
  }

  /** The reply of a connect that succeeds at once is one of those that come before the last. */
  lemma AnswerDials(c0: Conn, t0: Slots, id: nat, c: Conn, t: Slots, bound: R.SockAddr)
    requires Dialing(c0, t0, id, c, t) && c.handshake.req.status == R.CON_SUCCEEDED
    ensures var (failed, b) := R.Respond(c.handshake.req, c.toClient, bound);
            var c' := Answer(c, b, R.CON_SUCCEEDED, bound).(atOnce := c.atOnce + 1);
            Sound(c0, t0, id, c', t) && (failed == 0 ==> Dialing(c0, t0, id, c', t))
  {
    hide R.Reply, R.Respond, Sound;
    assert Dialing(c0, t0, id, c, t) ==> c.fromOrigin == [];
    AnswerSound(c0, t0, id, c, t, c.handshake.req, bound);
    CountSound(c0, t0, id, Answer(c, R.Respond(c.handshake.req, c.toClient, bound).1, R.CON_SUCCEEDED, bound), t, c.atOnce + 1);
  }

  lemma SetInterestDials(c0: Conn, t0: Slots, id: nat, c: Conn, t: Slots, fd: int, i: Interest)
    requires Dialing(c0, t0, id, c, t) && fd in t && t[fd].data == Client(id)
    ensures SetInterest(t, fd, i) == (Success, t[fd := Slot(i, Client(id))])
    ensures Dialing(c0, t0, id, c, t[fd := Slot(i, Client(id))])
  {
    SetInterestSound(c0, t0, id, c, t, fd, i);
  }

  lemma ErrorReplyKeeps(c0: Conn, t0: Slots, c: Conn, t: Slots, key: Key, reason: byte)
    requires Dialing(c0, t0, key.id, c, t) && c.originFd == -1 && reason != R.CON_SUCCEEDED
    requires key.fd == c.clientFd || key.fd !in t
    ensures Keeps(c0, t0, key.id, ErrorReply(c, t, key, reason))
  {
    hide Framed, SameOthers, Grows, Keeps;
    var rp' := c.handshake.req.(state := R.ReqError, status := reason);
    var c1 := c.(handshake := InRequest(rp'));
    StatusDials(c0, t0, key.id, c, t, rp');
    if key.fd !in t {
      FailKeeps(c0, t0, key.id, c1, t);
    } else {
      SetInterestDials(c0, t0, key.id, c1, t, key.fd, OP_WRITE);
      var t' := t[key.fd := Slot(OP_WRITE, Client(key.id))];
      AnswerSettles(c0, t0, key.id, c1, t', R.NO_ADDRESS);
      var (failed, b) := R.Respond(rp', c1.toClient, R.NO_ADDRESS);
      var c2 := Answer(c1, b, reason, R.NO_ADDRESS);
      if failed != 0 {
        FailKeeps(c0, t0, key.id, c2, t');
      } else {
        LandKeeps(c0, t0, key.id, c2, t', ReqWrite);
      }
    }
  }

  lemma WatchBothKeeps(c0: Conn, t0: Slots, c: Conn, t: Slots, key: Key)
    requires Dialing(c0, t0, key.id, c, t) && c.originFd != -1 && c.originAddr.Some? && c.current != []
    requires KeyUsable(c, t, key) && key.fd in t
    ensures var t1 := SetInterest(t, key.fd, OP_WRITE).1;
            && SetInterest(t, key.fd, OP_WRITE).0 == Success && SetInterest(t1, c.originFd, OP_READ).0 == Success
            && Keeps(c0, t0, key.id, Go(c, SetInterest(t1, c.originFd, OP_READ).1, ReqConnect))
  {
    hide Framed, SameOthers, Grows, Keeps;
    SetInterestDials(c0, t0, key.id, c, t, key.fd, OP_WRITE);
    var t1 := t[key.fd := Slot(OP_WRITE, Client(key.id))];
    SetInterestDials(c0, t0, key.id, c, t1, c.originFd, OP_READ);
    LandKeeps(c0, t0, key.id, c, t1[c.originFd := Slot(OP_READ, Client(key.id))], ReqConnect);
  }

  lemma AnnounceAtOnceKeeps(c0: Conn, t0: Slots, c: Conn, t: Slots, key: Key, bound: R.SockAddr)
    requires Dialing(c0, t0, key.id, c, t) && c.originFd != -1 && c.originAddr.Some? && c.current != []
    requires KeyUsable(c, t, key) && c.handshake.req.status == R.CON_SUCCEEDED
    ensures Keeps(c0, t0, key.id, AnnounceAtOnce(c, t, key, c.handshake.req, bound))
  {
    hide Framed, SameOthers, Grows, Keeps, Addresses, R.Reply;
    var (failed, b) := R.Respond(c.handshake.req, c.toClient, bound);
    var c2 := Answer(c, b, R.CON_SUCCEEDED, bound).(atOnce := c.atOnce + 1);
    AnswerDials(c0, t0, key.id, c, t, bound);
    if failed != 0 || key.fd !in t {
      FailKeeps(c0, t0, key.id, c2, t);
    } else {
      WatchBothKeeps(c0, t0, c2, t, key);
    }
  }

  lemma ConnectedAtOnceKeeps(c0: Conn, t0: Slots, c: Conn, t: Slots, key: Key, bound: Option<R.SockAddr>)
    requires Dialing(c0, t0, key.id, c, t) && c.originFd != -1 && c.originAddr.Some? && c.current != []
    requires KeyUsable(c, t, key)
    ensures Keeps(c0, t0, key.id, ConnectedAtOnce(c, t, key, bound))
  {
    hide Framed, SameOthers, Grows, Keeps, AnnounceAtOnce, Addresses;
    var rp' := c.handshake.req.(status := R.CON_SUCCEEDED);
    var c1 := c.(handshake := InRequest(rp'));
    StatusDials(c0, t0, key.id, c, t, rp');
    if bound == None {
      FailKeeps(c0, t0, key.id, c1, t);
    } else {
      AnnounceAtOnceKeeps(c0, t0, c1, t, key, bound.value);
    }
  }

  lemma InProgressKeeps(c0: Conn, t0: Slots, c: Conn, t: Slots, key: Key)
    requires Dialing(c0, t0, key.id, c, t) && c.originFd != -1 && c.originAddr.Some? && c.current != []
    requires KeyUsable(c, t, key)
    ensures var t1 := SetInterest(t, c.originFd, OP_WRITE).1;
            var (status, t2) := SetInterest(t1, key.fd, OP_NOOP);
            Keeps(c0, t0, key.id, Go(c, t2, if status != Success then SocksError else ReqConnect))
  {
    hide Framed, SameOthers, Grows, Keeps, Addresses;
    SetInterestSound(c0, t0, key.id, c, t, c.originFd, OP_WRITE);
    var t1 := SetInterest(t, c.originFd, OP_WRITE).1;
    if key.fd !in t1 {
      FailKeeps(c0, t0, key.id, c, t1);
    } else {
      SetInterestSound(c0, t0, key.id, c, t1, key.fd, OP_NOOP);
      LandKeeps(c0, t0, key.id, c, SetInterest(t1, key.fd, OP_NOOP).1, ReqConnect);
    }
  }

  /** Opening a socket for the next address. */
  lemma OpenDials(c0: Conn, t0: Slots, id: nat, c: Conn, t: Slots, fd: int)
    requires Dialing(c0, t0, id, c, t) && c.originFd == -1 && c.originAddr.Some? && c.current != []
    requires ValidFd(fd) && fd !in t
    ensures var t' := t[fd := Slot(OP_NOOP, Client(id))];
            && Register(t, fd, OP_NOOP, Client(id)) == (Success, t')
            && Dialing(c0, t0, id, c.(originFd := fd, dialed := c.dialed + [c.current[0]]), t')
            && t'[c.clientFd] == t[c.clientFd] && t' - {fd} == t
  {
  }

  lemma NextAddressDials(c0: Conn, t0: Slots, id: nat, c: Conn, t: Slots)
    requires Dialing(c0, t0, id, c, t) && c.originAddr.Some? && c.current != []
    ensures Dialing(c0, t0, id, c.(current := c.current[1..]), t)
  {
  }

  /** The attempt is settled well, or the walk may go on from where it left things. */
  ghost predicate TrialOk(c0: Conn, t0: Slots, key: Key, trial: Trial, base: Slots) {
    match trial
    case Settled(result) => Keeps(c0, t0, key.id, result)
    case TryNext(c, t) =>
      && Dialing(c0, t0, key.id, c, t) && c.originAddr.Some? && KeyUsable(c, t, key)
      && t - {c.originFd} == base
  }

  lemma ConnectingKeeps(c0: Conn, t0: Slots, c: Conn, t: Slots, key: Key, result: ConnectResult, bound: Option<R.SockAddr>)
    requires Dialing(c0, t0, key.id, c, t) && c.originFd != -1 && c.originAddr.Some? && c.current != []
    requires KeyUsable(c, t, key)
    ensures TrialOk(c0, t0, key, Connecting(c, t, key, result, bound), t - {c.originFd})
  {
    match result {
      case Connected => ConnectedAtOnceKeeps(c0, t0, c, t, key, bound);
      case InProgress =>
        SetInterestDials(c0, t0, key.id, c, t, c.originFd, OP_WRITE);
        InProgressKeeps(c0, t0, c, t, key);
      case Refused => NextAddressDials(c0, t0, key.id, c, t);
    }
  }

  lemma TryAddressKeeps(c0: Conn, t0: Slots, c: Conn, t: Slots, key: Key, attempt: Attempt, bound: Option<R.SockAddr>)
    requires Dialing(c0, t0, key.id, c, t) && c.originFd == -1 && c.originAddr.Some? && c.current != []
    requires key.fd == c.clientFd || (t[c.clientFd].interest == OP_NOOP && key.fd !in t)
    requires attempt.Opened? ==> attempt.fd !in t
    ensures TrialOk(c0, t0, key, TryAddress(c, t, key, attempt, bound), t)
  {
    hide Late, Framed, Addresses, Grows, SameOthers, Keeps, Connecting;
    if attempt.Opened? && ValidFd(attempt.fd) {
      var fd := attempt.fd;
      OpenDials(c0, t0, key.id, c, t, fd);
      var t1 := t[fd := Slot(OP_NOOP, Client(key.id))];
      var c1 := c.(originFd := fd, dialed := c.dialed + [c.current[0]]);
      assert KeyUsable(c1, t1, key);
      ConnectingKeeps(c0, t0, c1, t1, key, attempt.result, bound);
    } else {
      NextAddressDials(c0, t0, key.id, c, t);
      assert t - {-1} == t;
    }
  }

  /** One call walks the remaining addresses and leaves the connection in order, whatever happens to each. */
  lemma {:induction false} InitiateKeeps(c0: Conn, t0: Slots, c: Conn, t: Slots, key: Key, attempts: seq<Attempt>, bound: Option<R.SockAddr>)
    requires Dialing(c0, t0, key.id, c, t) && c.originAddr.Some?
    requires FreshFds(attempts, t - {c.originFd}) && KeyUsable(c, t, key)
    ensures Keeps(c0, t0, key.id, InitiateOriginConnection(c, t, key, attempts, bound))
    decreases |c.current|
  {
    hide Late, Framed, Addresses, Grows, SameOthers, Keeps, TryAddress, ErrorReply, DropOrigin;
    DropOriginDials(c0, t0, key.id, c, t);
    var (c1, t1) := DropOrigin(c, t, key.id).value;
    if c1.current == [] {
      ErrorReplyKeeps(c0, t0, c1, t1, key, R.CON_HOST_UNREACHABLE);
    } else {
      var attempt := if attempts == [] then NoSocket else attempts[0];
      var others := if attempts == [] then [] else attempts[1..];
      TryAddressKeeps(c0, t0, c1, t1, key, attempt, bound);
      var trial := TryAddress(c1, t1, key, attempt, bound);
      if trial.TryNext? {
        InitiateKeeps(c0, t0, trial.c, trial.t, key, others, bound);
      }
    }
  }

  // ---------------------------------------------------------------- the request

  lemma ParseRequestFramed(c: Conn, p: R.Req)
    requires Framed(c) && c.toOrigin == []
    requires Consumes(R.Step, R.Done, ReqStart(), c.reqBytes, p)
    ensures var c' := ParseRequest(c, p);
            Framed(c') && Consumes(R.Step, R.Done, ReqStart(), c'.reqBytes, c'.handshake.req)
  {
    hide Consumes;
    var input := c.toServer.contents;
    var left := R.Parse(p, input).1;
    var used := input[..|input| - |left|];
    ConsumesMore(R.Step, R.Done, ReqStart(), c.reqBytes, p, input);
    SplitInput(c.toServer, left);
    Regrouped(c.negBytes, c.authBytes, c.reqBytes, used, left);
  }

  lemma ParseRequestSound(c0: Conn, t0: Slots, id: nat, c: Conn, t: Slots, p: R.Req)
    requires Sound(c0, t0, id, c, t) && c.toOrigin == [] && NoAddress(c)
    requires c.handshake.InRequest? && Consumes(R.Step, R.Done, ReqStart(), c.reqBytes, p)
    ensures var c' := ParseRequest(c, p);
            && Sound(c0, t0, id, c', t)
            && Consumes(R.Step, R.Done, ReqStart(), c'.reqBytes, c'.handshake.req)
  {
    ParseRequestFramed(c, p);
    hide Consumes, SameOthers, Framed;
  }

  lemma RefuseRequestKeeps(c0: Conn, t0: Slots, c: Conn, t: Slots, key: Key)
    requires Dialing(c0, t0, key.id, c, t) && key.fd == c.clientFd && c.originFd == -1
    requires c.handshake.req.status != R.CON_SUCCEEDED
    ensures Keeps(c0, t0, key.id, RefuseRequest(c, t, key))
  {
    hide Framed, SameOthers, Grows, Keeps, Addresses, R.Reply, NegOver, AuthOver;
    var (failed, b) := R.Respond(c.handshake.req, c.toClient, R.NO_ADDRESS);
    AnswerSettles(c0, t0, key.id, c, t, R.NO_ADDRESS);
    var c1 := Answer(c, b, c.handshake.req.status, R.NO_ADDRESS);
    if failed != 0 {
      FailKeeps(c0, t0, key.id, c1, t);
    } else {
      SetInterestSound(c0, t0, key.id, c1, t, key.fd, OP_WRITE);
      LandKeeps(c0, t0, key.id, c1, t[key.fd := Slot(OP_WRITE, Client(key.id))], ReqWrite);
    }
  }

  lemma ResolveKeeps(c0: Conn, t0: Slots, c: Conn, t: Slots, key: Key)
    requires Dialing(c0, t0, key.id, c, t) && c0.state == Some(ReqRead)
    requires key.fd == c.clientFd && c.originFd == -1 && NoAddress(c) && c.handshake.req.atyp == R.DN && Requested(c)
    requires Unasked(c)
    ensures SetInterest(t, key.fd, OP_NOOP).0 == Success
    ensures Keeps(c0, t0, key.id, Ok(Turn(c, SetInterest(t, key.fd, OP_NOOP).1, ReqResolve, true)))
  {
    SetInterestDials(c0, t0, key.id, c, t, key.fd, OP_NOOP);
  }

  lemma OfferDials(c0: Conn, t0: Slots, id: nat, c: Conn, t: Slots)
    requires Dialing(c0, t0, id, c, t) && NoAddress(c) && c.handshake.req.atyp != R.DN && Requested(c)
    ensures Dialing(c0, t0, id, OfferDirect(c, TargetOf(c.handshake.req)), t)
  {
  }

  lemma HandleRequestKeeps(c0: Conn, t0: Slots, c: Conn, t: Slots, key: Key, k: Kernel)
    requires Dialing(c0, t0, key.id, c, t) && c0.state == Some(ReqRead)
    requires key.fd == c.clientFd && c.originFd == -1 && NoAddress(c) && Requested(c) && Unasked(c)
    requires FreshFds(k.attempts, t)
    ensures Keeps(c0, t0, key.id, HandleRequest(c, t, key, k))
  {
    hide Framed, SameOthers, Grows, Keeps;
    var rp := c.handshake.req;
    if !k.memory {
      ErrorReplyKeeps(c0, t0, c, t, key, R.CON_SERVER_FAILURE);
    } else if rp.atyp == R.DN {
      ResolveKeeps(c0, t0, c, t, key);
    } else {
      OfferDials(c0, t0, key.id, c, t);
      assert t - {-1} == t;
      InitiateKeeps(c0, t0, OfferDirect(c, TargetOf(rp)), t, key, k.attempts, k.bound);
    }
  }

  /** A rejected request has the non-zero status of its fault. */
  lemma FaultHasAStatus(bs: seq<byte>)
    ensures var p := R.Parse(ReqStart(), bs).0; p.state == R.ReqError ==> p.status != R.CON_SUCCEEDED
  {
    R.Grammar(ReqStart(), bs);
  }

  lemma RequestReadyKeeps(c: Conn, t: Slots, key: Key, k: Kernel)
    requires c.state == Some(ReqRead) && ConnOk(c) && Linked(c, key.id, t) && Dispatched(t, key)
    requires FreshFds(k.attempts, t)
    ensures Keeps(c, t, key.id, RequestReady(c, t, key, k))
  {
    hide Framed, SameOthers, Grows, Keeps;
    SelfSound(c, t, key.id);
    if c.toServer.Space() == 0 || k.recv.RecvAgain? {
      StayKeeps(c, t, key.id, c, t, ReqRead);
    } else if k.recv.RecvFails? || k.recv.bytes == [] {
      FailKeeps(c, t, key.id, c, t);
    } else {
      var c1 := TakeIn(c, Delivered(k.recv.bytes, c.toServer.Space()));
      TakeInSound(c, t, key.id, Delivered(k.recv.bytes, c.toServer.Space()));
      ParseRequestSound(c, t, key.id, c1, t, c.handshake.req);
      var c2 := ParseRequest(c1, c.handshake.req);
      if !R.Done(c2.handshake.req) {
        StayKeeps(c, t, key.id, c2, t, ReqRead);
      } else {
        assert Dialing(c, t, key.id, c2, t);
        if c2.handshake.req.state == R.ReqError {
          FaultHasAStatus(c2.reqBytes);
          RefuseRequestKeeps(c, t, c2, t, key);
        } else {
          HandleRequestKeeps(c, t, c2, t, key, k);
        }
      }
    }
  }

  lemma RequestResolveKeeps(c: Conn, t: Slots, key: Key, k: Kernel)
    requires c.state == Some(ReqResolve) && ConnOk(c) && Linked(c, key.id, t) && Dispatched(t, key)
    requires FreshFds(k.attempts, t)
    ensures Keeps(c, t, key.id, RequestResolve(c, t, key, k))
  {
    hide Framed, SameOthers, Grows, Keeps;
    SelfSound(c, t, key.id);
    if c.originAddr == None {
      ErrorReplyKeeps(c, t, c, t, key, R.CON_HOST_UNREACHABLE);
    } else {
      assert t - {-1} == t;
      InitiateKeeps(c, t, c, t, key, k.attempts, k.bound);
    }
  }

  lemma ReleaseDials(c0: Conn, t0: Slots, id: nat, c: Conn, t: Slots)
    requires Dialing(c0, t0, id, c, t)
    ensures Release(c).Ok? && Dialing(c0, t0, id, Release(c).value, t)
    ensures Release(c).value == c.(originAddr := None, current := [], released := Release(c).value.released)
  {
    hide SameOthers, Consumes;
  }

  lemma AnnounceKeeps(c0: Conn, t0: Slots, id: nat, c: Conn, t: Slots)
    requires Sound(c0, t0, id, c, t) && Late(c) && NoRelay(c) && Replied(c) && c0.state == Some(ReqConnect) && c.originFd != -1
    ensures var t1 := SetInterest(t, c.clientFd, OP_WRITE).1;
            && SetInterest(t, c.clientFd, OP_WRITE).0 == Success && SetInterest(t1, c.originFd, OP_READ).0 == Success
            && Keeps(c0, t0, id, Go(c, SetInterest(t1, c.originFd, OP_READ).1, ReqWrite))
  {
    SetInterestSound(c0, t0, id, c, t, c.clientFd, OP_WRITE);
    var t1 := t[c.clientFd := Slot(OP_WRITE, Client(id))];
    SetInterestSound(c0, t0, id, c, t1, c.originFd, OP_READ);
    LandKeeps(c0, t0, id, c, t1[c.originFd := Slot(OP_READ, Client(id))], ReqWrite);
  }

  lemma RequestConnectKeeps(c: Conn, t: Slots, key: Key, k: Kernel)
    requires c.state == Some(ReqConnect) && ConnOk(c) && Linked(c, key.id, t) && Dispatched(t, key)
    requires t[key.fd].interest.write && FreshFds(k.attempts, t - {c.originFd})
    ensures Keeps(c, t, key.id, RequestConnect(c, t, key, k))
  {
    hide Framed, SameOthers, Grows, Keeps;
    SelfSound(c, t, key.id);
    assert Dialing(c, t, key.id, c, t);
    if k.soError {
      DropOriginDials(c, t, key.id, c, t);
      var (c1, t1) := DropOrigin(c, t, key.id).value;
      if c.current[1..] == [] {
        ErrorReplyKeeps(c, t, c1, t1, key, R.CON_HOST_UNREACHABLE);
      } else {
        assert t1 - {-1} == t1;
        InitiateKeeps(c, t, c1, t1, key, k.attempts, k.bound);
      }
    } else {
      RequestConnectedKeeps(c, t, key, k);
    }
  }

  lemma RequestConnectedKeeps(c: Conn, t: Slots, key: Key, k: Kernel)
    requires c.state == Some(ReqConnect) && ConnOk(c) && Linked(c, key.id, t) && !k.soError
    ensures Keeps(c, t, key.id, RequestConnect(c, t, key, k))
  {
    hide Framed, SameOthers, Grows, Keeps;
    SelfSound(c, t, key.id);
    var rp' := c.handshake.req.(status := R.CON_SUCCEEDED);
    StatusDials(c, t, key.id, c, t, rp');
    ReleaseDials(c, t, key.id, c.(handshake := InRequest(rp')), t);
    var c1 := Release(c.(handshake := InRequest(rp'))).value;
    if k.bound == None {
      FailKeeps(c, t, key.id, c1, t);
    } else {
      AnswerSettles(c, t, key.id, c1, t, k.bound.value);
      var (failed, b) := R.Respond(rp', c1.toClient, k.bound.value);
      var c2 := Answer(c1, b, R.CON_SUCCEEDED, k.bound.value);
      if failed != 0 {
        FailKeeps(c, t, key.id, c2, t);
      } else {
        AnnounceKeeps(c, t, key.id, c2, t);
      }
    }
  }

  /** The reply drains and the user it would be logged for is not in the table. */
  ghost predicate LogsNobody(c: Conn, k: Kernel) {
    && c.state == Some(ReqWrite) && !HasRow(c, k.users)
    && k.send.Takes? && k.send.n >= |c.toClient.contents| > 0
  }

  lemma RequestSendCrashes(c: Conn, t: Slots, key: Key, k: Kernel)
    requires LogsNobody(c, k) && key.fd in t && ValidFd(key.fd)
    ensures RequestSend(c, t, key, k) == Crashed(WildAccess)
  {
  }

  lemma DrainKeepsStage(c: Conn, n: nat)
    requires c.state == Some(ReqWrite) && Stage(c) && n <= |c.toClient.contents|
    ensures var c1 := DrainToClient(c, c.clientFd, n); Stage(c1) && Stage(c1.(state := Some(Copy)))
  {
    hide NegOver, AuthOver, ReqOver, AllSucceed;
  }

  /** The relay starts with both sides read and nothing sent to the origin. */
  lemma RelayBegins(c: Conn, t: Slots, id: nat, n: nat)
    requires c.state == Some(ReqWrite) && Stage(c) && Linked(c, id, t) && n == |c.toClient.contents|
    ensures Watched(DrainToClient(c, c.clientFd, n).(state := Some(Copy)), t[c.clientFd := Slot(OP_READ, Client(id))])
  {
    hide Late, Replied;
  }

  lemma RequestSendKeeps(c: Conn, t: Slots, key: Key, k: Kernel)
    requires c.state == Some(ReqWrite) && ConnOk(c) && Linked(c, key.id, t) && Dispatched(t, key)
    requires t[key.fd].interest.write && !LogsNobody(c, k)
    ensures Keeps(c, t, key.id, RequestSend(c, t, key, k))
  {
    hide Framed, SameOthers, Grows, Keeps, Stage;
    DrainKeepsStage(c, Taken(if k.send.Takes? then k.send.n else 0, |c.toClient.contents|));
    SelfSound(c, t, key.id);
    assert key.fd == c.clientFd;
    if k.send.SendAgain? {
      StayKeeps(c, t, key.id, c, t, ReqWrite);
    } else if k.send.SendFails? || Taken(k.send.n, |c.toClient.contents|) == 0 {
      FailKeeps(c, t, key.id, c, t);
    } else {
      var n := Taken(k.send.n, |c.toClient.contents|);
      DrainSound(c, t, key.id, n);
      var c1 := DrainToClient(c, key.fd, n);
      if c1.toClient.contents != [] {
        StayKeeps(c, t, key.id, c1, t, ReqWrite);
      } else {
        SetInterestSound(c, t, key.id, c1, t, key.fd, OP_READ);
        RelayBegins(c, t, key.id, n);
        LandKeeps(c, t, key.id, c1, t[key.fd := Slot(OP_READ, Client(key.id))], Copy);
      }
    }
  }
}
