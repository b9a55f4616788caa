/** What is done about each message of the handshake, from the bytes of it that have come so far, however they came. */
module HandshakeMessages {
  import opened Bytes
  import opened Results
  import opened Buffers
  import opened Incremental
  import opened SelectorTable
  import opened Connection
  import opened ConnectionInvariant
  import opened RelayInvariant
  import opened OriginWalk
  import opened HandshakeEvents
  import N = NegotiationParser
  import A = AuthenticationParser
  import R = RequestParser
  import RP = Replies
  import U = Users

  /** A read event that brings something to a connection that reads a message, with room for some of it. */
  ghost predicate Reads(c: Conn, t: Slots, key: Key, k: Kernel) {
    Reading(c) && Live(c, key.id, t) && Dispatched(t, key) && c.toServer.Space() > 0 && Brings(k)
  }

  function Incoming(c: Conn, k: Kernel): seq<byte> {
    if k.recv.Data? then Delivered(k.recv.bytes, c.toServer.Space()) else []
  }

  /** The message so far: what the parser has used, what is unread, and what the event brings. */
  function Seen(c: Conn, used: seq<byte>, k: Kernel): seq<byte> { used + c.toServer.contents + Incoming(c, k) }

  lemma ReadsOnTheClient(c: Conn, t: Slots, key: Key)
    requires Reading(c) && Live(c, key.id, t) && Dispatched(t, key)
    ensures key.fd == c.clientFd && c.originFd == -1 && ValidFd(key.fd) && c.state.Some?
    ensures t[key.fd] == Slot(OP_READ, Client(key.id))
  {
    hide ConnOk;
  }

  /** The first event of a connection finds it at the start of its negotiation. */
  lemma FirstArrives(c: Conn, t: Slots, key: Key, k: Kernel)
    requires c.state == None && Live(c, key.id, t)
    ensures OnRead(c, t, key, k) == OnRead(First(c), t, key, k)
    ensures Live(First(c), key.id, t) && First(c).state == Some(NegotiationRead) && Reading(First(c))
    ensures First(c).negBytes == [] && First(c).toServer.contents == [] && First(c).toClient.contents == []
  {
    FirstOk(c, key.id, t);
    hide ReadHandler, ConnOk, Linked;
    assert First(First(c)) == First(c);
  }

  // ---------------------------------------------------------------- the method list

  /** The parser of a connection that is negotiating has used exactly what it says. */
  lemma NegotiationSoFar(c: Conn, t: Slots, id: nat, bs: seq<byte>)
    requires c.state == Some(NegotiationRead) && Live(c, id, t)
    ensures c.handshake.InNegotiation?
    ensures N.Parse(NegStart(), c.negBytes + c.toServer.contents + bs) == N.Parse(c.handshake.neg, c.toServer.contents + bs)
  {
    hide Framed, Addresses, Said, Registered;
    ConsumesThenFeed(N.Step, N.Done, NegStart(), c.negBytes, c.handshake.neg, c.toServer.contents + bs);
    assert c.negBytes + c.toServer.contents + bs == c.negBytes + (c.toServer.contents + bs);
  }

  /** A list that starts `seen`, and the reply to it. */
  ghost predicate Listed(seen: seq<byte>) { exists methods, rest :: N.IsMessage(seen, methods, rest) }

  lemma ListAnswered(c: Conn, t: Slots, key: Key, p: N.Neg, left: seq<byte>)
    requires c.handshake == InNegotiation(p) && c.toServer.contents == left
    requires ValidFd(key.fd) && key.fd in t && t[key.fd].data == Client(key.id)
    ensures var r := Jumped(AnswerNegotiation(c, t, key));
            && r.Ok? && !r.value.spawned
            && r.value.next == (if p.state != N.NegError && c.toClient.Space() >= 2 then NegotiationWrite else SocksError)
            && (r.value.next == NegotiationWrite ==>
                  && r.value.t == t[key.fd := Slot(OP_WRITE, Client(key.id))]
                  && r.value.c.toServer.contents == left
                  && r.value.c.toClient.contents == c.toClient.contents + [5, p.selected])
  {
  }

  /** The union and the buffers after a piece of the list. */
  lemma HeardMethods(c: Conn, bs: seq<byte>)
    requires c.handshake.InNegotiation? && |bs| <= c.toServer.Space()
    ensures var (p, left) := N.Parse(c.handshake.neg, c.toServer.contents + bs);
            var c1 := Heard(c, bs);
            && c1.handshake == InNegotiation(p) && c1.toServer.contents == left && c1.toClient == c.toClient
            && (Over(c1) <==> N.Done(p))
  {
    hide N.Step, N.Done;
    UsedPartConsumes(N.Step, N.Done, c.handshake.neg, c.toServer.contents + bs);
  }

  /** What the parser makes of a list, or of the start of one. */
  lemma ListMeans(seen: seq<byte>)
    requires seen != []
    ensures var (p, left) := N.Parse(NegStart(), seen);
            && (p.state == N.NegDone <==> Listed(seen)) && (p.state == N.NegError <==> seen[0] != 5)
            && (N.Done(p) <==> p.state == N.NegDone || p.state == N.NegError)
            && (forall methods, rest :: N.IsMessage(seen, methods, rest) ==>
                  left == rest && p.selected == if 2 in methods then 2 else 255)
  {
    N.Grammar(0, seen);
    forall methods, rest | N.IsMessage(seen, methods, rest)
      ensures N.Parse(NegStart(), seen).1 == rest && N.Parse(NegStart(), seen).0.selected == if 2 in methods then 2 else 255
    {
      N.RoundTrip(0, methods, rest);
    }
  }

  /** The turn of the event, by what the parser makes of everything that has come. */
  lemma NegotiationTurn(c: Conn, t: Slots, key: Key, k: Kernel) returns (r: Turn)
    requires c.state == Some(NegotiationRead) && Reads(c, t, key, k)
    ensures OnRead(c, t, key, k) == Ok(r) && !r.spawned
    ensures var (p, left) := N.Parse(NegStart(), Seen(c, c.negBytes, k));
            && (!N.Done(p) ==> r.next == NegotiationRead && r.t == t)
            && (N.Done(p) ==> r.next == if p.state != N.NegError && c.toClient.Space() >= 2 then NegotiationWrite else SocksError)
            && (r.next == NegotiationWrite ==>
                  && r.t == t[key.fd := Slot(OP_WRITE, Client(key.id))]
                  && r.c.toServer.contents == left && r.c.toClient.contents == c.toClient.contents + [5, p.selected])
  {
    ReadsOnTheClient(c, t, key);
    NegotiationSoFar(c, t, key.id, Incoming(c, k));
    HeardMethods(c, Incoming(c, k));
    var c1 := Heard(c, Incoming(c, k));
    ListAnswered(c1, t, key, c1.handshake.neg, c1.toServer.contents);
    hide Live, OnRead, N.Parse, N.Done, Heard, Over, AnswerNegotiation, NegStart, Jumped, Finish;
    ReadHears(c, t, key, k);
    r := OnRead(c, t, key, k).value;
  }

  /**
   * A read event in NEGOTIATION_READ. It is answered iff a complete method list has come and the reply fits; it waits for
   * more iff the list is incomplete, with the right version; else the connection ends.
   */
  lemma NegotiationReads(c: Conn, t: Slots, key: Key, k: Kernel) returns (r: Turn)
    requires c.state == Some(NegotiationRead) && Reads(c, t, key, k)
    ensures OnRead(c, t, key, k) == Ok(r) && !r.spawned
    ensures var seen := Seen(c, c.negBytes, k);
            && seen != []
            && (r.next == NegotiationWrite <==> Listed(seen) && c.toClient.Space() >= 2)
            && (r.next == NegotiationRead <==> !Listed(seen) && seen[0] == 5)
            && (r.next == SocksError <==> seen[0] != 5 || (Listed(seen) && c.toClient.Space() < 2))
            && (r.next == NegotiationRead ==> r.t == t)
            && (r.next == NegotiationWrite ==> r.t == t[key.fd := Slot(OP_WRITE, Client(key.id))])
            && (forall methods, rest :: N.IsMessage(seen, methods, rest) && r.next == NegotiationWrite ==>
                  && r.c.toClient.contents == c.toClient.contents + [5, if 2 in methods then 2 else 255]
                  && r.c.toServer.contents == rest)
  {
    hide Reads, OnRead, N.Parse, NegStart, N.IsMessage, Listed;
    SomethingSeen(c, t, key, k, c.negBytes);
    r := NegotiationTurn(c, t, key, k);
    ListMeans(Seen(c, c.negBytes, k));
  }

  lemma SomethingSeen(c: Conn, t: Slots, key: Key, k: Kernel, used: seq<byte>)
    requires Reads(c, t, key, k)
    ensures Seen(c, used, k) != []
  {
    hide Live;
  }

  // ---------------------------------------------------------------- the credentials

  lemma AuthenticationSoFar(c: Conn, t: Slots, id: nat, bs: seq<byte>)
    requires c.state == Some(AuthRead) && Live(c, id, t)
    ensures c.handshake.InAuthentication?
    ensures A.Parse(AuthStart(), c.authBytes + c.toServer.contents + bs) == A.Parse(c.handshake.auth, c.toServer.contents + bs)
  {
    hide Framed, Addresses, Said, Registered, NegFinished;
    ConsumesThenFeed(A.Step, A.Done, AuthStart(), c.authBytes, c.handshake.auth, c.toServer.contents + bs);
    assert c.authBytes + c.toServer.contents + bs == c.authBytes + (c.toServer.contents + bs);
  }

  /** Credentials that start `seen`. */
  ghost predicate Presented(seen: seq<byte>) {
    exists uname, plen, passwd, rest :: A.IsMessage(seen, uname, plen, passwd, rest)
  }

  /** The C string in zeroed storage is that of the bytes stored. */
  lemma {:induction false} TextOfStored(f: seq<byte>, bs: seq<byte>)
    requires |bs| <= |f| && f[..|bs|] == bs && (|bs| == |f| || f[|bs|] == 0)
    ensures Text(f) == Text(bs)
  {
    if bs != [] && bs[0] != 0 {
      assert f[0] == f[..|bs|][0];
      assert f[1..][..|bs[1..]|] == bs[1..];
      TextOfStored(f[1..], bs[1..]);
    } else if bs != [] {
      assert f[0] == f[..|bs|][0];
    }
  }

  lemma StoredText(bs: seq<byte>)
    requires |bs| <= FIELD_SIZE
    ensures Text(Store(Zeros(), 0, bs)) == Text(bs)
  {
    TextOfStored(Store(Zeros(), 0, bs), bs);
  }

  /** What the parser makes of credentials, or of the start of them. */
  lemma CredentialsMean(seen: seq<byte>)
    requires seen != []
    ensures var (p, left) := A.Parse(AuthStart(), seen);
            && (p.state == A.AuthDone <==> Presented(seen)) && (p.state == A.AuthError <==> seen[0] != 1)
            && (A.Done(p) <==> p.state == A.AuthDone || p.state == A.AuthError)
            && (forall uname, plen, passwd, rest :: A.IsMessage(seen, uname, plen, passwd, rest) ==>
                  left == rest && Text(p.uname) == Text(uname) && Text(p.passwd) == Text(passwd))
  {
    hide A.Parse, Text;
    A.Grammar(AuthStart(), seen);
    forall uname, plen, passwd, rest | A.IsMessage(seen, uname, plen, passwd, rest)
      ensures var (p, left) := A.Parse(AuthStart(), seen);
              left == rest && Text(p.uname) == Text(uname) && Text(p.passwd) == Text(passwd)
    {
      A.Reads(AuthStart(), uname, plen, passwd, rest);
      StoredText(uname);
      StoredText(passwd);
    }
  }

  /** A message of another version is judged as one without a name, which nobody has. */
  lemma WrongVersion(seen: seq<byte>, users: U.Table)
    requires seen != [] && seen[0] != 1
    ensures var p := A.Parse(AuthStart(), seen).0;
            && Text(p.uname) == "" && Text(p.passwd) == ""
            && (U.Good(users) ==> U.Login(users, "", "") != 0)
  {
    var p := A.Step(AuthStart(), seen[0]);
    assert A.Parse(AuthStart(), seen) == A.Parse(p, seen[1..]) == (p, seen[1..]);
    if U.Good(users) {
      forall j | 0 <= j < |users.rows| ensures users.rows[j].name != "" {
        assert U.Fits(users.rows[j]);
      }
      U.FindNone(users.rows, "");
    }
  }

  lemma HeardCredentials(c: Conn, bs: seq<byte>)
    requires c.handshake.InAuthentication? && |bs| <= c.toServer.Space()
    ensures var (p, left) := A.Parse(c.handshake.auth, c.toServer.contents + bs);
            var c1 := Heard(c, bs);
            && c1.handshake == InAuthentication(p) && c1.toServer.contents == left && c1.toClient == c.toClient
            && (Over(c1) <==> A.Done(p))
  {
    hide A.Step, A.Done;
    UsedPartConsumes(A.Step, A.Done, c.handshake.auth, c.toServer.contents + bs);
  }

  lemma CredentialsAnswered(c: Conn, t: Slots, key: Key, k: Kernel, p: A.Auth)
    requires c.handshake == InAuthentication(p)
    requires ValidFd(key.fd) && key.fd in t && t[key.fd].data == Client(key.id)
    ensures var r := Jumped(AnswerAuthentication(Named(c), t, key, LoggedIn(p, k.users)));
            && r.Ok? && !r.value.spawned
            && r.value.next == (if c.toClient.Space() >= 2 then AuthWrite else SocksError)
            && (r.value.next == AuthWrite ==>
                  && r.value.t == t[key.fd := Slot(OP_WRITE, Client(key.id))]
                  && r.value.c.toServer.contents == c.toServer.contents && r.value.c.username == Text(p.uname)
                  && r.value.c.toClient.contents
                     == c.toClient.contents + [1, if U.Login(k.users, Text(p.uname), Text(p.passwd)) == 0 then 0 else 1])
  {
    RP.LoginIsBinary(k.users, Text(p.uname), Text(p.passwd));
    hide U.Login, Text;
  }

  lemma AuthenticationTurn(c: Conn, t: Slots, key: Key, k: Kernel) returns (r: Turn)
    requires c.state == Some(AuthRead) && Reads(c, t, key, k)
    ensures OnRead(c, t, key, k) == Ok(r) && !r.spawned
    ensures var (p, left) := A.Parse(AuthStart(), Seen(c, c.authBytes, k));
            && (!A.Done(p) ==> r.next == AuthRead && r.t == t)
            && (A.Done(p) ==> r.next == if c.toClient.Space() >= 2 then AuthWrite else SocksError)
            && (r.next == AuthWrite ==>
                  && r.t == t[key.fd := Slot(OP_WRITE, Client(key.id))]
                  && r.c.toServer.contents == left && r.c.username == Text(p.uname)
                  && r.c.toClient.contents
                     == c.toClient.contents + [1, if U.Login(k.users, Text(p.uname), Text(p.passwd)) == 0 then 0 else 1])
  {
    ReadsOnTheClient(c, t, key);
    AuthenticationSoFar(c, t, key.id, Incoming(c, k));
    HeardCredentials(c, Incoming(c, k));
    var c1 := Heard(c, Incoming(c, k));
    CredentialsAnswered(c1, t, key, k, c1.handshake.auth);
    hide Live, OnRead, A.Parse, A.Done, Heard, Over, AnswerAuthentication, AuthStart, Jumped, Finish, U.Login, Text, LoggedIn;
    ReadHears(c, t, key, k);
    r := OnRead(c, t, key, k).value;
  }

  /**
   * A read event in AUTH_READ. It is answered iff a complete login message has come, or one of another version, and the
   * reply fits; the verdict is that of the user table on the name and the password in the message; it waits for more iff
   * the message is incomplete.
   */
  lemma AuthenticationReads(c: Conn, t: Slots, key: Key, k: Kernel) returns (r: Turn)
    requires c.state == Some(AuthRead) && Reads(c, t, key, k)
    ensures OnRead(c, t, key, k) == Ok(r) && !r.spawned
    ensures var seen := Seen(c, c.authBytes, k);
            && seen != []
            && (r.next == AuthWrite <==> (Presented(seen) || seen[0] != 1) && c.toClient.Space() >= 2)
            && (r.next == AuthRead <==> !Presented(seen) && seen[0] == 1)
            && (r.next == SocksError <==> (Presented(seen) || seen[0] != 1) && c.toClient.Space() < 2)
            && (r.next == AuthRead ==> r.t == t)
            && (r.next == AuthWrite ==> r.t == t[key.fd := Slot(OP_WRITE, Client(key.id))])
            && (forall uname, plen, passwd, rest :: A.IsMessage(seen, uname, plen, passwd, rest) && r.next == AuthWrite ==>
                  && r.c.toClient.contents
                     == c.toClient.contents + [1, if U.Login(k.users, Text(uname), Text(passwd)) == 0 then 0 else 1]
                  && r.c.username == Text(uname) && r.c.toServer.contents == rest)
            && (seen[0] != 1 && r.next == AuthWrite && U.Good(k.users) ==>
                  r.c.toClient.contents == c.toClient.contents + [1, 1] && r.c.username == "")
  {
    hide Reads, OnRead, A.Parse, A.Done, AuthStart, A.IsMessage, Presented, U.Login, Text, U.Good;
    SomethingSeen(c, t, key, k, c.authBytes);
    if Seen(c, c.authBytes, k)[0] != 1 {
      WrongVersion(Seen(c, c.authBytes, k), k.users);
    }
    r := AuthenticationTurn(c, t, key, k);
    CredentialsMean(Seen(c, c.authBytes, k));
  }

  // ---------------------------------------------------------------- the request

  lemma RequestSoFar(c: Conn, t: Slots, id: nat, bs: seq<byte>)
    requires c.state == Some(ReqRead) && Live(c, id, t)
    ensures c.handshake.InRequest? && NoAddress(c)
    ensures R.Parse(ReqStart(), c.reqBytes + c.toServer.contents + bs) == R.Parse(c.handshake.req, c.toServer.contents + bs)
  {
    hide Framed, Addresses, Said, Registered, NegFinished, AuthFinished;
    ConsumesThenFeed(R.Step, R.Done, ReqStart(), c.reqBytes, c.handshake.req, c.toServer.contents + bs);
    assert c.reqBytes + c.toServer.contents + bs == c.reqBytes + (c.toServer.contents + bs);
  }

  /** A CONNECT that starts `seen`. */
  ghost predicate Connects(seen: seq<byte>) {
    exists atyp, n, addr, high, low, rest :: R.IsRequest(seen, atyp, n, addr, high, low, rest)
  }

  /** What the parser makes of a request, or of the start of one. */
  lemma RequestMeans(seen: seq<byte>)
    ensures var (p, left) := R.Parse(ReqStart(), seen);
            && (p.state == R.ReqDone <==> Connects(seen)) && (p.state == R.ReqError <==> R.HeaderError(seen) != 0)
            && (R.Done(p) <==> p.state == R.ReqDone || p.state == R.ReqError)
            && (p.state == R.ReqError ==> p.status == R.HeaderError(seen))
            && (forall atyp: byte, n: byte, addr: seq<byte>, high: byte, low: byte, rest: seq<byte> ::
                  R.IsRequest(seen, atyp, n, addr, high, low, rest) ==>
                  && left == rest && p.atyp == atyp && p.port == 256 * high + low
                  && R.Names(p.address, atyp, if |addr| == 256 then [] else addr))
  {
    hide R.Parse, R.HeaderError, R.Names;
    R.Grammar(ReqStart(), seen);
    forall atyp: byte, n: byte, addr: seq<byte>, high: byte, low: byte, rest: seq<byte> | R.IsRequest(seen, atyp, n, addr, high, low, rest)
      ensures var (p, left) := R.Parse(ReqStart(), seen);
              && left == rest && p.atyp == atyp && p.port == 256 * high + low
              && R.Names(p.address, atyp, if |addr| == 256 then [] else addr)
    {
      R.Reads(ReqStart(), atyp, n, addr, high, low, rest);
    }
  }

  lemma HeardRequest(c: Conn, bs: seq<byte>)
    requires c.handshake.InRequest? && |bs| <= c.toServer.Space()
    ensures var (p, left) := R.Parse(c.handshake.req, c.toServer.contents + bs);
            var c1 := Heard(c, bs);
            && c1.handshake == InRequest(p) && c1.toServer.contents == left && c1.toClient == c.toClient
            && (Over(c1) <==> R.Done(p))
            && c1.clientFd == c.clientFd && c1.originFd == c.originFd && c1.current == c.current && c1.dialed == c.dialed
            && c1.replies == c.replies
  {
    hide R.Step, R.Done;
    UsedPartConsumes(R.Step, R.Done, c.handshake.req, c.toServer.contents + bs);
  }

  /** The bytes of a refusal: the reason, and zeros for the address. */
  function Refusal(reason: byte): seq<byte> { [5, reason, 0, 1, 0, 0, 0, 0, 0, 0] }

  lemma RefusalIsAReply(reason: byte)
    requires reason != 0
    ensures R.Reply(reason, R.NO_ADDRESS) == Refusal(reason)
  {
  }

  /** A refusal is queued whole and the client is watched for writing, or it does not fit and the connection ends. */
  ghost predicate Refused(c: Conn, t: Slots, key: Key, reason: byte, r: Turn) {
    && !r.spawned && r.next == (if c.toClient.Space() >= 10 then ReqWrite else SocksError)
    && (r.next == ReqWrite ==>
          && r.t == t[key.fd := Slot(OP_WRITE, Client(key.id))] && r.c.toServer.contents == c.toServer.contents
          && r.c.toClient.contents == c.toClient.contents + Refusal(reason) && r.c.originFd == -1)
  }

  lemma RequestRefused(c: Conn, t: Slots, key: Key, p: R.Req)
    requires c.handshake == InRequest(p) && p.status != 0 && c.originFd == -1
    requires ValidFd(key.fd) && key.fd in t && t[key.fd].data == Client(key.id)
    ensures var r := RefuseRequest(c, t, key); r.Ok? && Refused(c, t, key, p.status, r.value)
  {
    hide R.Reply;
    RefusalIsAReply(p.status);
  }

  lemma ErrorIsARefusal(c: Conn, t: Slots, key: Key, reason: byte)
    requires c.handshake.InRequest? && reason != 0 && c.originFd == -1
    requires ValidFd(key.fd) && key.fd in t && t[key.fd].data == Client(key.id)
    ensures var r := ErrorReply(c, t, key, reason); r.Ok? && Refused(c, t, key, reason, r.value)
  {
    hide R.Reply;
    RefusalIsAReply(reason);
  }

  /** What is done about a complete request: a refusal for want of memory, a walk over its one address, or a resolver. */
  ghost predicate Handled(c: Conn, t: Slots, key: Key, k: Kernel, r: Turn)
    requires c.handshake.InRequest?
  {
    var p := c.handshake.req;
    if !k.memory then Refused(c, t, key, 1, r)
    else if p.atyp == R.DN then
      && r.spawned && r.next == ReqResolve && r.t == t[key.fd := Slot(OP_NOOP, Client(key.id))] && r.c == c
    else
      !r.spawned && Dialed(c, t, key, k, Target(p.atyp, p.address[..if p.atyp == R.IPV4 then 4 else 16], p.port), r)
  }

  /** The one address has been tried. */
  ghost predicate Dialed(c: Conn, t: Slots, key: Key, k: Kernel, target: Target, r: Turn) {
    exists i :: RP.Walked(c.(current := [target]), t, key, k.attempts, k.bound, i, r)
  }

  /** A walk that starts without an origin looks at the address list, the buffers and the history of dialling only. */
  lemma WalkedAlike(c: Conn, c': Conn, t: Slots, key: Key, k: Kernel, i: nat, r: Turn)
    requires RP.Walked(c, t, key, k.attempts, k.bound, i, r)
    requires c'.current == c.current && c'.toClient == c.toClient && c'.replies == c.replies && c'.clientFd == c.clientFd
    ensures RP.Walked(c', t, key, k.attempts, k.bound, i, r)
  {
    hide R.Reply, Fails;
  }

  lemma WithoutOrigin(c: Conn, t: Slots, key: Key)
    requires c.originFd == -1 && key.fd == c.clientFd && ValidFd(key.fd) && key.fd in t && -1 !in t
    ensures Droppable(c, t, key.id) && t - {c.originFd} == t
  {
    assert t - {-1} == t && c.(originFd := -1) == c;
  }

  lemma RequestHandled(c: Conn, t: Slots, key: Key, k: Kernel) returns (r: Turn)
    requires c.handshake.InRequest? && c.handshake.req.state == R.ReqDone && c.originFd == -1 && key.fd == c.clientFd
    requires ValidFd(key.fd) && key.fd in t && t[key.fd].data == Client(key.id) && -1 !in t
    ensures HandleRequest(c, t, key, k) == Ok(r) && Handled(c, t, key, k, r)
  {
    hide InitiateOriginConnection, ErrorReply, RP.Walked, Refused;
    if !k.memory {
      ErrorIsARefusal(c, t, key, 1);
    } else if c.handshake.req.atyp != R.DN {
      var c1 := OfferDirect(c, TargetOf(c.handshake.req));
      WithoutOrigin(c1, t, key);
      var i: nat;
      i, r := RP.WalkOutcome(c1, t, key, k.attempts, k.bound);
      WalkedAlike(c1, c.(current := c1.current), t, key, k, i, r);
      assert Dialed(c, t, key, k, TargetOf(c.handshake.req), r);
    }
    r := HandleRequest(c, t, key, k).value;
  }

  /** What is done about a message that has come to be `c`: the handler's turn. */
  lemma RequestTurn(c: Conn, t: Slots, key: Key, k: Kernel) returns (c1: Conn, r: Turn)
    requires c.state == Some(ReqRead) && Reads(c, t, key, k)
    ensures var (p, left) := R.Parse(ReqStart(), Seen(c, c.reqBytes, k));
            && c1.handshake == InRequest(p) && c1.toServer.contents == left && c1.toClient == c.toClient
            && c1.clientFd == c.clientFd && c1.originFd == -1 && c1.replies == c.replies
            && OnRead(c, t, key, k) == Ok(Finish(r))
            && (!R.Done(p) ==> r == Turn(c1, t, ReqRead, false))
            && (p.state == R.ReqError ==> Refused(c1, t, key, p.status, r))
            && (p.state == R.ReqDone ==> Handled(c1, t, key, k, r))
  {
    var bs := Incoming(c, k);
    ReadsOnTheClient(c, t, key);
    RequestSoFar(c, t, key.id, bs);
    HeardRequest(c, bs);
    c1 := Heard(c, bs);
    NoSlotBelowZero(c, t, key.id);
    RequestMeans(Seen(c, c.reqBytes, k));
    hide Live, OnRead, R.Parse, Heard, Over, RefuseRequest, HandleRequest, ReqStart, Handled, Refused, R.IsRequest, Connects;
    ReadHears(c, t, key, k);
    var p := c1.handshake.req;
    if !R.Done(p) {
      r := Turn(c1, t, ReqRead, false);
      StillReading(c, bs, r);
    } else if p.state == R.ReqError {
      RequestRefused(c1, t, key, p);
      r := RefuseRequest(c1, t, key).value;
    } else {
      r := RequestHandled(c1, t, key, k);
    }
  }

  lemma NoSlotBelowZero(c: Conn, t: Slots, id: nat)
    requires Live(c, id, t)
    ensures -1 !in t
  {
    hide ConnOk, Watched;
  }

  lemma StillReading(c: Conn, bs: seq<byte>, r: Turn)
    requires Reading(c) && c.state == Some(ReqRead) && |bs| <= c.toServer.Space() && r.c == Heard(c, bs) && r.next == ReqRead
    ensures Finish(r) == r
  {
    hide Heard;
    HeardStays(c, bs);
  }

  /** The name, as the resolver's thread reads it: nothing for a declared length of 0. */
  function NameOf(addr: seq<byte>): seq<byte> { if |addr| == 256 then [] else addr }

  lemma NextAfterHandling(c: Conn, t: Slots, key: Key, k: Kernel, r: Turn)
    requires c.handshake.InRequest? && Handled(c, t, key, k, r)
    ensures r.next != ReqRead
  {
    hide R.Reply, AllFail;
  }

  /**
   * A read event in REQ_READ. It waits for more iff the request is incomplete and its header is right so far; a wrong
   * header is refused with its fault's status. A complete CONNECT is refused for want of memory, or its name goes to a
   * resolver with the client watched for nothing, or its address and no other is dialled.
   */
  lemma RequestReads(c: Conn, t: Slots, key: Key, k: Kernel) returns (c1: Conn, r: Turn)
    requires c.state == Some(ReqRead) && Reads(c, t, key, k)
    ensures OnRead(c, t, key, k) == Ok(Finish(r))
    ensures c1.toClient == c.toClient && c1.clientFd == c.clientFd && c1.originFd == -1 && c1.replies == c.replies
    ensures var seen := Seen(c, c.reqBytes, k);
            && (r.next == ReqRead <==> R.HeaderError(seen) == 0 && !Connects(seen))
            && (r.next == ReqRead ==> r.t == t && !r.spawned)
            && (R.HeaderError(seen) != 0 ==> Refused(c1, t, key, R.HeaderError(seen), r))
            && (forall atyp: byte, n: byte, addr: seq<byte>, high: byte, low: byte, rest: seq<byte> ::
                  R.IsRequest(seen, atyp, n, addr, high, low, rest) ==>
                    && c1.toServer.contents == rest
                    && (!k.memory ==> Refused(c1, t, key, 1, r))
                    && (k.memory && atyp == 3 ==>
                          && r.spawned && r.next == ReqResolve && r.t == t[key.fd := Slot(OP_NOOP, Client(key.id))] && r.c == c1
                          && c1.handshake.InRequest? && R.Names(c1.handshake.req.address, 3, NameOf(addr))
                          && c1.handshake.req.port == 256 * high + low)
                    && (k.memory && atyp != 3 ==>
                          !r.spawned && Dialed(c1, t, key, k, Target(atyp, addr, 256 * high + low), r)))
  {
    hide Reads, OnRead, R.Parse, ReqStart, Refused, Dialed, R.HeaderError, Connects, Finish;
    var seen := Seen(c, c.reqBytes, k);
    c1, r := RequestTurn(c, t, key, k);
    RequestMeans(seen);
    var p := c1.handshake.req;
    if p.state == R.ReqError {
      RefusedIsOver(c1, t, key, p.status, r);
    } else if p.state == R.ReqDone {
      NextAfterHandling(c1, t, key, k, r);
    }
    hide Handled;
    forall atyp: byte, n: byte, addr: seq<byte>, high: byte, low: byte, rest: seq<byte> |
      R.IsRequest(seen, atyp, n, addr, high, low, rest)
      ensures c1.toServer.contents == rest && Served(c1, t, key, k, atyp, addr, 256 * high + low, r)
    {
      IsOneOfThem(seen, atyp, n, addr, high, low, rest);
      ServesTheAddress(c1, t, key, k, atyp, n, addr, 256 * high + low, r);
    }
  }

  lemma IsOneOfThem(seen: seq<byte>, atyp: byte, n: byte, addr: seq<byte>, high: byte, low: byte, rest: seq<byte>)
    requires R.IsRequest(seen, atyp, n, addr, high, low, rest)
    ensures Connects(seen) && atyp in {1, 3, 4} && |addr| == R.AddressLength(atyp, n)
  {
  }

  lemma RefusedIsOver(c: Conn, t: Slots, key: Key, reason: byte, r: Turn)
    requires Refused(c, t, key, reason, r)
    ensures r.next != ReqRead
  {
  }

  /** A complete request has been served, in terms of the bytes of its address. */
  ghost predicate Served(c: Conn, t: Slots, key: Key, k: Kernel, atyp: byte, addr: seq<byte>, port: nat, r: Turn) {
    && (!k.memory ==> Refused(c, t, key, 1, r))
    && (k.memory && atyp == 3 ==>
          && r.spawned && r.next == ReqResolve && r.t == t[key.fd := Slot(OP_NOOP, Client(key.id))] && r.c == c
          && c.handshake.InRequest? && R.Names(c.handshake.req.address, 3, NameOf(addr)) && c.handshake.req.port == port)
    && (k.memory && atyp != 3 ==> !r.spawned && Dialed(c, t, key, k, Target(atyp, addr, port), r))
  }

  lemma ServesTheAddress(c: Conn, t: Slots, key: Key, k: Kernel, atyp: byte, n: byte, addr: seq<byte>, port: nat, r: Turn)
    requires c.handshake.InRequest? && Handled(c, t, key, k, r)
    requires atyp in {1, 3, 4} && |addr| == R.AddressLength(atyp, n)
    requires var p := c.handshake.req; p.atyp == atyp && p.port == port && R.Names(p.address, atyp, NameOf(addr))
    ensures Served(c, t, key, k, atyp, addr, port, r)
  {
    hide Refused, Dialed;
  }

  // ---------------------------------------------------------------- messages in pieces

  /**
   * The pieces of a message: before the last the connection waits, watched for reading as it was, and the last does what
   * one event with the whole message would have done.
   */
  ghost predicate OneByOne(c: Conn, t: Slots, key: Key, ks: seq<Kernel>)
    requires ks != [] && c.state.Some?
  {
    && t[key.fd := Slot(OP_READ, Client(key.id))] == t
    && (forall i :: 0 < i < |ks| ==> Waits(ReadEvents(c, t, key, ks[..i]), t, c.state.value))
    && ReadEvents(c, t, key, ks) == OnRead(c, t, key, AtOnce(ks))
  }

  predicate Waits(r: Result<Turn>, t: Slots, s: SocksState) {
    r.Ok? && r.value.next == s && r.value.c.state == Some(s) && r.value.t == t && !r.value.spawned
  }

  lemma MessageInPieces(c: Conn, t: Slots, key: Key, ks: seq<Kernel>)
    requires Reading(c) && Live(c, key.id, t) && Dispatched(t, key) && ks != [] && AllBring(ks)
    requires |Brought(ks)| <= c.toServer.Space() && Heard(c, Brought(ks)).toServer.contents == []
    ensures OneByOne(c, t, key, ks)
  {
    hide Live, Heard, OnRead, ReadEvents, Reading, Waits, Brings;
    ReadsOnTheClient(c, t, key);
    EventsAreOne(c, t, key, ks);
    forall i | 0 < i < |ks| ensures Waits(ReadEvents(c, t, key, ks[..i]), t, c.state.value) {
      PieceWaits(c, t, key, ks, i);
    }
  }

  lemma PieceWaits(c: Conn, t: Slots, key: Key, ks: seq<Kernel>, i: nat)
    requires Reading(c) && AllBring(ks) && 0 < i < |ks| && |Brought(ks)| <= c.toServer.Space()
    requires Heard(c, Brought(ks)).toServer.contents == []
    ensures Waits(ReadEvents(c, t, key, ks[..i]), t, c.state.value)
  {
    hide Heard, OnRead, ReadEvents, Brings;
    PiecesWait(c, t, key, ks, i);
    HeardStays(c, Brought(ks[..i]));
  }

  lemma MethodsInPieces(c: Conn, t: Slots, key: Key, ks: seq<Kernel>, methods: seq<byte>)
    requires c.state == Some(NegotiationRead) && Live(c, key.id, t) && Dispatched(t, key) && ks != [] && AllBring(ks)
    requires |Brought(ks)| <= c.toServer.Space()
    requires N.IsMessage(c.negBytes + c.toServer.contents + Brought(ks), methods, [])
    ensures OneByOne(c, t, key, ks)
  {
    var bs := Brought(ks);
    NegotiationSoFar(c, t, key.id, bs);
    ListMeans(c.negBytes + c.toServer.contents + bs);
    hide Live, N.Parse, Heard, OneByOne, N.IsMessage, NegStart;
    HeardMethods(c, bs);
    MessageInPieces(c, t, key, ks);
  }

  lemma CredentialsInPieces(c: Conn, t: Slots, key: Key, ks: seq<Kernel>, uname: seq<byte>, plen: byte, passwd: seq<byte>)
    requires c.state == Some(AuthRead) && Live(c, key.id, t) && Dispatched(t, key) && ks != [] && AllBring(ks)
    requires |Brought(ks)| <= c.toServer.Space()
    requires A.IsMessage(c.authBytes + c.toServer.contents + Brought(ks), uname, plen, passwd, [])
    ensures OneByOne(c, t, key, ks)
  {
    var bs := Brought(ks);
    AuthenticationSoFar(c, t, key.id, bs);
    CredentialsMean(c.authBytes + c.toServer.contents + bs);
    hide Live, A.Parse, Heard, OneByOne, A.IsMessage, AuthStart;
    HeardCredentials(c, bs);
    MessageInPieces(c, t, key, ks);
  }

  lemma RequestInPieces(c: Conn, t: Slots, key: Key, ks: seq<Kernel>, atyp: byte, n: byte, addr: seq<byte>, high: byte, low: byte)
    requires c.state == Some(ReqRead) && Live(c, key.id, t) && Dispatched(t, key) && ks != [] && AllBring(ks)
    requires |Brought(ks)| <= c.toServer.Space()
    requires R.IsRequest(c.reqBytes + c.toServer.contents + Brought(ks), atyp, n, addr, high, low, [])
    ensures OneByOne(c, t, key, ks)
  {
    var bs := Brought(ks);
    RequestSoFar(c, t, key.id, bs);
    RequestMeans(c.reqBytes + c.toServer.contents + bs);
    hide Live, R.Parse, Heard, OneByOne, R.IsRequest, ReqStart;
    HeardRequest(c, bs);
    MessageInPieces(c, t, key, ks);
  }
}
