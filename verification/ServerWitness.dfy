/** Runs of the server that end the process, that leave a client without an answer, and that answer it twice. */
module ServerWitness {
  import opened Bytes
  import opened Results
  import B = Buffers
  import opened Incremental
  import opened SelectorTable
  import opened Connection
  import opened Server
  import opened ServerSafety
  import opened ServerTheorems
  import N = NegotiationParser
  import A = AuthenticationParser
  import R = RequestParser
  import RI = RelayInvariant
  import RP = Replies
  import U = Users

  // ---------------------------------------------------------------- growing a run

  lemma {:induction false} OneMoreStep(w0: Process, run: seq<Action>, a: Action)
    requires CanRun(w0, run) && Enabled(Run(w0, run), a) && Step(Run(w0, run), a).Ok?
    ensures CanRun(w0, run + [a]) && Run(w0, run + [a]) == Step(Run(w0, run), a).value
    decreases |run|
  {
    hide Enabled, Step;
    if run == [] {
      assert ([] + [a])[1..] == [];
    } else {
      OneMoreStep(Step(w0, run[0]).value, run[1..], a);
      assert (run + [a])[1..] == run[1..] + [a];
    }
  }

  lemma ReachesNext(w: Process, a: Action)
    requires Reachable(w) && Enabled(w, a) && Step(w, a).Ok?
    ensures Reachable(Step(w, a).value)
  {
    hide Enabled, Step;
    var w0: Process, run: seq<Action> :| Initial(w0) && CanRun(w0, run) && Run(w0, run) == w;
    OneMoreStep(w0, run, a);
  }

  // ---------------------------------------------------------------- one client, on descriptor 5

  const FD: int := 5
  const KEY := Key(FD, 0)

  /** The table that `init_users` leaves. */
  const USERS := U.Table([U.Row("admin", "admin", U.ADMIN, 0)], 1, 10, 10, {0})

  /** A kernel that delivers `bytes`, takes all it is sent, and answers every other call well. */
  function Delivering(bytes: seq<byte>, attempts: seq<Attempt>): Kernel {
    Kernel(Data(bytes), Takes(B.BUFFER_SIZE), attempts, Some(R.NO_ADDRESS), false, true, USERS)
  }

  ghost predicate Stands(w: Process, c: Conn, interest: Interest, place: Place) {
    && Reachable(w) && w.conns == map[0 := c] && w.place == place && w.users == USERS
    && w.t == map[FD := Slot(interest, Client(0))]
    && w.threads == multiset{} && w.jobs == []
  }

  /** Both buffers are empty, nothing has ended, and there is no origin. */
  predicate Quiet(c: Conn) { Queued(c, []) }

  /** The reply waits, and nothing else. */
  predicate Queued(c: Conn, reply: seq<byte>) {
    && c.clientFd == FD && c.originFd == -1 && !c.clientEof && !c.originEof
    && c.toServer == B.Buf(0, [], B.BUFFER_SIZE) && c.toClient == B.Buf(0, reply, B.BUFFER_SIZE)
  }

  lemma ReadStep(w: Process, c: Conn, k: Kernel, r: Turn) returns (w': Process)
    requires Stands(w, c, OP_READ, Idle) && k.attempts == [] && k.users == USERS
    requires OnRead(c, w.t, KEY, k) == Ok(r) && !r.spawned && r.next != SocksError && r.next != SocksDone
    requires r.t == map[FD := Slot(OP_WRITE, Client(0))]
    ensures Stands(w', r.c, OP_WRITE, AfterRead(KEY))
  {
    hide OnRead;
    var a := ReadReady(FD, k);
    w' := Step(w, a).value;
    ReachesNext(w, a);
  }

  lemma WriteStep(w: Process, c: Conn, k: Kernel, r: Turn) returns (w': Process)
    requires Stands(w, c, OP_WRITE, AfterRead(KEY)) && k.attempts == [] && k.users == USERS
    requires OnWrite(c, w.t, KEY, k) == Ok(r) && !r.spawned && r.next != SocksError && r.next != SocksDone
    requires r.t == map[FD := Slot(OP_READ, Client(0))]
    ensures Stands(w', r.c, OP_READ, Idle)
  {
    hide OnWrite;
    var a := WriteReady(FD, k);
    w' := Step(w, a).value;
    ReachesNext(w, a);
  }

  /** The server as it starts, with nothing registered. */
  const FIRST: Process := Process(map[], map[], 0, 0, multiset{}, [], Idle, USERS, map[], [], [], [], {})

  lemma FirstIsReachable()
    ensures Reachable(FIRST) && U.Good(USERS)
  {
    U.InitialIsGood(0);
    assert CanRun(FIRST, []) && Run(FIRST, []) == FIRST;
    assert Initial(FIRST);
  }

  lemma Accepted() returns (w: Process)
    ensures Stands(w, New(FD), OP_READ, Idle)
  {
    FirstIsReachable();
    var a := AcceptClient(FD, true);
    w := Step(FIRST, a).value;
    ReachesNext(FIRST, a);
  }

  // ---------------------------------------------------------------- the handshake

  const READING: Slots := map[FD := Slot(OP_READ, Client(0))]
  const WRITING: Slots := map[FD := Slot(OP_WRITE, Client(0))]

  lemma Offers()
    ensures var r := OnRead(New(FD), READING, KEY, Delivering([5, 1, 2], []));
            && r.Ok? && r.value.next == NegotiationWrite && !r.value.spawned && r.value.t == WRITING
            && r.value.c.state == Some(NegotiationWrite) && Queued(r.value.c, [5, 2])
            && r.value.c.handshake.InNegotiation? && r.value.c.handshake.neg.selected == N.PASS
  {
    hide N.Parse, N.Step;
    var c := First(New(FD));
    assert N.Encode([2]) + [] == [5, 1, 2];
    N.RoundTrip(0, [2], []);
    var c1 := ParseNegotiation(TakeIn(c, [5, 1, 2]), N.Init(0));
    assert TakeIn(c, [5, 1, 2]).toServer.contents == [5, 1, 2];
    assert c1.toServer == B.Buf(0, [], B.BUFFER_SIZE);
    assert N.Done(c1.handshake.neg) && c1.handshake.neg.selected == N.PASS;
    var reply: seq<byte> := [5, 2];
    assert [] + reply == reply;
    assert N.Respond(c1.handshake.neg, c1.toClient) == (0, B.Buf(0, [5, 2], B.BUFFER_SIZE));
    assert NegotiationReady(c, READING, KEY, Delivering([5, 1, 2], [])) == AnswerNegotiation(c1, READING, KEY);
  }

  lemma Drained(c: Conn, n: nat)
    requires Queued(c, c.toClient.contents) && n == |c.toClient.contents|
    ensures Quiet(DrainToClient(c, FD, n))
  {
  }

  lemma Chooses(c: Conn)
    requires c.state == Some(NegotiationWrite) && Queued(c, [5, 2])
    requires c.handshake.InNegotiation? && c.handshake.neg.selected == N.PASS
    ensures var r := OnWrite(c, WRITING, KEY, Delivering([], []));
            && r.Ok? && r.value.next == AuthRead && !r.value.spawned && r.value.t == READING
            && r.value.c.state == Some(AuthRead) && Quiet(r.value.c)
            && r.value.c.handshake == InAuthentication(A.Init(Zeros(), Zeros()))
  {
    Drained(c, 2);
  }

  const NAME: seq<byte> := [97, 100, 109, 105, 110]

  lemma NameIsAdmin()
    ensures RP.Chars(NAME) == "admin" && 0 !in NAME
    ensures U.Login(USERS, "admin", "admin") == 0 && U.Find(USERS.rows, "admin") == 0
  {
  }

  /** The first user logs in with the first password. */
  lemma LogsIn(c: Conn)
    requires c.state == Some(AuthRead) && Quiet(c) && c.handshake == InAuthentication(A.Init(Zeros(), Zeros()))
    ensures |A.Encode(NAME, 5, NAME)| == 13
    ensures var r := OnRead(c, READING, KEY, Delivering(A.Encode(NAME, 5, NAME), []));
            && r.Ok? && r.value.next == AuthWrite && !r.value.spawned && r.value.t == WRITING
            && r.value.c.state == Some(AuthWrite) && Queued(r.value.c, [1, A.AUTHENTICATED])
            && r.value.c.username == "admin"
  {
    hide AuthenticationReady, Zeros, U.Login;
    NameIsAdmin();
    RP.CredentialsAreJudged(c, READING, KEY, Delivering(A.Encode(NAME, 5, NAME), []), NAME, NAME);
    var reply: seq<byte> := [1, A.AUTHENTICATED];
    assert [] + reply == reply;
  }

  /** A message that names nobody is refused. */
  lemma FailsToLogIn(c: Conn)
    requires c.state == Some(AuthRead) && Quiet(c) && c.handshake == InAuthentication(A.Init(Zeros(), Zeros()))
    ensures var r := OnRead(c, READING, KEY, Delivering([0], []));
            && r.Ok? && r.value.next == AuthWrite && !r.value.spawned && r.value.t == WRITING
            && r.value.c.state == Some(AuthWrite) && Queued(r.value.c, [1, A.ACCESS_DENIED])
            && r.value.c.username == ""
  {
    hide A.Step, LoggedIn;
    var p := A.Init(Zeros(), Zeros());
    var c0 := TakeIn(c, [0]);
    var c1 := ParseAuthentication(c0, p);
    assert c0.toServer.contents == [0];
    WrongVersion(p);
    NobodyLogsIn(c1.handshake.auth);
    var reply: seq<byte> := [1, A.ACCESS_DENIED];
    assert [] + reply == reply;
    assert A.Respond(c1.toClient, A.ACCESS_DENIED) == (0, B.Buf(0, reply, B.BUFFER_SIZE));
    assert AuthenticationReady(c, READING, KEY, Delivering([0], [])) == AnswerAuthentication(Named(c1), READING, KEY, false);
  }

  lemma NobodyLogsIn(p: A.Auth)
    requires p.uname == p.passwd == Zeros()
    ensures Text(p.uname) == "" && !LoggedIn(p, USERS) && U.Find(USERS.rows, "") < 0
  {
  }

  lemma WrongVersion(p: A.Auth)
    requires p.state == A.AuthVersion
    ensures var r := A.Parse(p, [0]); A.Done(r.0) && r.1 == [] && r.0.uname == p.uname && r.0.passwd == p.passwd
  {
    assert A.Parse(p, [0]) == A.Parse(A.Step(p, 0), []);
  }

  lemma IsAnswered(c: Conn, verdict: byte)
    requires c.state == Some(AuthWrite) && Queued(c, [1, verdict])
    ensures var r := OnWrite(c, WRITING, KEY, Delivering([], []));
            && r.Ok? && r.value.next == ReqRead && !r.value.spawned && r.value.t == READING
            && r.value.c.state == Some(ReqRead) && Quiet(r.value.c) && r.value.c.username == c.username
            && r.value.c.handshake == InRequest(R.Init(0, Zeros(), Zeros()))
  {
    Drained(c, 2);
  }

  ghost predicate AwaitsRequest(w: Process, c: Conn) {
    && Stands(w, c, OP_READ, Idle)
    && c.state == Some(ReqRead) && Quiet(c) && c.handshake == InRequest(R.Init(0, Zeros(), Zeros()))
  }

  lemma ReadyForTheLogin() returns (w: Process, c: Conn)
    ensures Stands(w, c, OP_READ, Idle)
    ensures c.state == Some(AuthRead) && Quiet(c) && c.handshake == InAuthentication(A.Init(Zeros(), Zeros()))
  {
    hide OnRead, OnWrite, Quiet, Queued;
    w := Accepted();
    Offers();
    var r1 := OnRead(New(FD), READING, KEY, Delivering([5, 1, 2], [])).value;
    w := ReadStep(w, New(FD), Delivering([5, 1, 2], []), r1);
    Chooses(r1.c);
    var r2 := OnWrite(r1.c, WRITING, KEY, Delivering([], [])).value;
    w := WriteStep(w, r1.c, Delivering([], []), r2);
    c := r2.c;
  }

  /** The administrator, ready to send a request. */
  lemma LoggedInClient() returns (w: Process, c: Conn)
    ensures AwaitsRequest(w, c) && c.username == "admin"
  {
    hide OnRead, OnWrite, Quiet, Queued, A.Encode;
    w, c := ReadyForTheLogin();
    LogsIn(c);
    var k := Delivering(A.Encode(NAME, 5, NAME), []);
    var r3 := OnRead(c, READING, KEY, k).value;
    w := ReadStep(w, c, k, r3);
    IsAnswered(r3.c, A.AUTHENTICATED);
    var r4 := OnWrite(r3.c, WRITING, KEY, Delivering([], [])).value;
    w := WriteStep(w, r3.c, Delivering([], []), r4);
    c := r4.c;
  }

  /** A client that was refused, and goes on all the same. */
  lemma RefusedClient() returns (w: Process, c: Conn)
    ensures AwaitsRequest(w, c) && c.username == ""
  {
    hide OnRead, OnWrite, Quiet, Queued;
    w, c := ReadyForTheLogin();
    FailsToLogIn(c);
    var r3 := OnRead(c, READING, KEY, Delivering([0], [])).value;
    w := ReadStep(w, c, Delivering([0], []), r3);
    IsAnswered(r3.c, A.ACCESS_DENIED);
    var r4 := OnWrite(r3.c, WRITING, KEY, Delivering([], [])).value;
    w := WriteStep(w, r3.c, Delivering([], []), r4);
    c := r4.c;
  }

  // ---------------------------------------------------------------- a relay without an origin

  lemma IsRefused(c: Conn)
    requires c.state == Some(ReqRead) && Quiet(c) && c.handshake == InRequest(R.Init(0, Zeros(), Zeros()))
    ensures var r := OnRead(c, READING, KEY, Delivering([0], []));
            && r.Ok? && r.value.next == ReqWrite && !r.value.spawned && r.value.t == WRITING
            && r.value.c.state == Some(ReqWrite) && Queued(r.value.c, R.Reply(R.CON_SERVER_FAILURE, R.NO_ADDRESS))
            && r.value.c.username == c.username
  {
    hide R.Step, R.Reply;
    var p := R.Init(0, Zeros(), Zeros());
    var c0 := TakeIn(c, [0]);
    var c1 := ParseRequest(c0, p);
    assert c0.toServer.contents == [0];
    WrongRequest(p);
    var reply := R.Reply(R.CON_SERVER_FAILURE, R.NO_ADDRESS);
    RefusalFits();
    assert [] + reply == reply;
    assert R.Respond(c1.handshake.req, c1.toClient, R.NO_ADDRESS) == (0, B.Buf(0, reply, B.BUFFER_SIZE));
    assert RequestReady(c, READING, KEY, Delivering([0], [])) == RefuseRequest(c1, READING, KEY);
  }

  lemma RefusalFits()
    ensures |R.Reply(R.CON_SERVER_FAILURE, R.NO_ADDRESS)| == 10
  {
  }

  lemma WrongRequest(p: R.Req)
    requires p.state == R.ReqVersion
    ensures R.Parse(p, [0]) == (p.(state := R.ReqError), [])
  {
    assert R.Parse(p, [0]) == R.Parse(R.Step(p, 0), []);
  }

  lemma EntersRelay(c: Conn)
    requires c.state == Some(ReqWrite) && Queued(c, R.Reply(R.CON_SERVER_FAILURE, R.NO_ADDRESS)) && c.username == "admin"
    ensures var r := OnWrite(c, WRITING, KEY, Delivering([], []));
            && r.Ok? && r.value.next == Copy && !r.value.spawned && r.value.t == READING
            && r.value.c.state == Some(Copy) && Quiet(r.value.c)
  {
    hide R.Reply;
    RefusalFits();
    NameIsAdmin();
    Drained(c, 10);
  }

  /** After a refused request the connection relays to descriptor -1: one more byte of the client's ends it. */
  lemma WildAccessIsReachable() returns (w: Process, a: Action)
    ensures Reachable(w) && Enabled(w, a) && Step(w, a).Crashed?
    ensures a.ReadReady? && var key := KeyFor(w, a.fd); key.id in w.conns && RI.RelayToNowhere(w.conns[key.id], key, a.k)
  {
    hide OnRead, OnWrite, Step;
    var c: Conn;
    w, c := LoggedInClient();
    IsRefused(c);
    var r1 := OnRead(c, READING, KEY, Delivering([0], [])).value;
    w := ReadStep(w, c, Delivering([0], []), r1);
    EntersRelay(r1.c);
    var r2 := OnWrite(r1.c, WRITING, KEY, Delivering([], [])).value;
    w := WriteStep(w, r1.c, Delivering([], []), r2);
    a := ReadReady(FD, Delivering([7], []));
    CrashesAreExactlyThese(w, a);
  }

  // ---------------------------------------------------------------- the log of a user who does not exist

  /** A client that ignores a refused login ends the process as soon as the reply to its request has left. */
  lemma UnknownUserIsReachable() returns (w: Process, a: Action)
    ensures Reachable(w) && Enabled(w, a) && Step(w, a).Crashed? && FatalWrite(w, a)
  {
    hide OnRead, OnWrite, Step, R.Reply;
    var c: Conn;
    w, c := RefusedClient();
    IsRefused(c);
    var r1 := OnRead(c, READING, KEY, Delivering([0], [])).value;
    w := ReadStep(w, c, Delivering([0], []), r1);
    a := WriteReady(FD, Delivering([], []));
    RefusalFits();
    CrashesAreExactlyThese(w, a);
  }

  // ---------------------------------------------------------------- a limit whose size in bytes wraps

  /** A manager raises the limit and adds a user: the row, or the whole table at once, is outside the array. */
  lemma OverrunIsReachable(atOnce: bool) returns (w: Process, a: Action)
    ensures Reachable(w) && Enabled(w, a) && Step(w, a).Crashed? && FatalCommand(w, a)
    ensures if atOnce then a.op.Resize? else a.op.Add?
  {
    hide U.Overruns, U.Do, U.Good, Initial;
    FirstIsReachable();
    U.SizesWrap("b", 1);
    if atOnce {
      w, a := FIRST, Manage(U.Resize(1117984489315730401, true));
    } else {
      var raise := Manage(U.Resize(1117984489315730402, true));
      w, a := Step(FIRST, raise).value, Manage(U.Add("b", "p", 1));
      ReachesNext(FIRST, raise);
    }
  }

  // ---------------------------------------------------------------- an origin that connects at once

  const ORIGIN: int := 6

  const BOTH: Slots := map[FD := Slot(OP_WRITE, Client(0)), ORIGIN := Slot(OP_READ, Client(0))]

  const CONNECT_1_2_3_4: seq<byte> := [5, 1, 0, 1, 1, 2, 3, 4, 0, 80]

  lemma AsksForAnAddress(p: R.Req)
    requires p.state == R.ReqVersion
    ensures var r := R.Parse(p, CONNECT_1_2_3_4); r.0.state == R.ReqDone && r.0.atyp == R.IPV4 && r.1 == []
  {
    hide R.Parse;
    assert R.Encode(R.IPV4, 4, [1, 2, 3, 4], 0, 80) + [] == CONNECT_1_2_3_4;
    R.RoundTrip(p, R.IPV4, [1, 2, 3, 4], 0, 80, []);
  }

  /** What waits for the client after `n` replies of success. */
  function Successes(n: nat): seq<byte> {
    if n == 0 then [] else Successes(n - 1) + R.Reply(R.CON_SUCCEEDED, R.NO_ADDRESS)
  }

  lemma SuccessesAreShort(n: nat)
    requires n <= 2
    ensures |Successes(n)| == 10 * n
  {
    assert |R.Reply(R.CON_SUCCEEDED, R.NO_ADDRESS)| == 10;
    assert n > 0 ==> Successes(n) == Successes(n - 1) + R.Reply(R.CON_SUCCEEDED, R.NO_ADDRESS);
    assert n > 1 ==> Successes(n - 1) == Successes(n - 2) + R.Reply(R.CON_SUCCEEDED, R.NO_ADDRESS);
  }

  function Waiting(n: nat): B.GoodBuf
    requires n <= 2
  {
    SuccessesAreShort(n);
    B.Buf(0, Successes(n), B.BUFFER_SIZE)
  }

  /** With an origin: `n` replies wait. */
  predicate HasOrigin(c: Conn, state: SocksState, n: nat) {
    && c.state == Some(state) && c.clientFd == FD && c.originFd == ORIGIN && !c.clientEof && !c.originEof
    && c.toServer == B.Buf(0, [], B.BUFFER_SIZE) && c.toClient.read == 0 && c.toClient.limit == B.BUFFER_SIZE
    && c.toClient.contents == Successes(n) && c.username == "admin" && c.handshake.InRequest? && c.originAddr.Some? == (state == ReqConnect)
  }

  lemma SuccessIsShort()
    ensures |R.Reply(R.CON_SUCCEEDED, R.NO_ADDRESS)| == |Successes(1)| == 10
  {
  }

  lemma NoSuccesses()
    ensures Successes(0) == []
  {
  }

  lemma SuccessFits(b: B.GoodBuf, n: nat)
    requires b.contents == Successes(n) && n <= 1 && b.read == 0 && b.limit == B.BUFFER_SIZE
    ensures |Successes(n)| == 10 * n
    ensures forall p: R.Req :: p.status == R.CON_SUCCEEDED ==>
              R.Respond(p, b, R.NO_ADDRESS) == (0, B.Buf(0, Successes(n + 1), B.BUFFER_SIZE))
  {
    SuccessIsShort();
    assert Successes(1) == R.Reply(R.CON_SUCCEEDED, R.NO_ADDRESS);
  }

  /** Only the buffer and the history notice a reply. */
  lemma AnswerFields(c: Conn, b: B.GoodBuf, bound: R.SockAddr)
    ensures var c' := Answer(c, b, R.CON_SUCCEEDED, bound);
            c' == c.(toClient := b, replies := c'.replies, answers := c'.answers, cut := c'.cut)
  {
    hide R.Reply;
  }

  lemma ConnectsAtOnce(c: Conn)
    requires Quiet(c) && c.handshake.InRequest? && c.current != [] && c.originAddr.Some? && c.username == "admin"
    requires c.state == Some(ReqRead)
    ensures var r := InitiateOriginConnection(c, READING, KEY, [Opened(ORIGIN, Connected)], Some(R.NO_ADDRESS));
            && r.Ok? && r.value.next == ReqConnect && !r.value.spawned && r.value.t == BOTH
            && HasOrigin(r.value.c.(state := Some(ReqConnect)), ReqConnect, 1) && r.value.c.state == c.state
            && r.value.c.atOnce == c.atOnce + 1
  {
    hide R.Reply, R.Respond, Answer, Successes;
    AnswerFields(c.(originFd := ORIGIN, dialed := c.dialed + [c.current[0]],
                    handshake := InRequest(c.handshake.req.(status := R.CON_SUCCEEDED))),
                 Waiting(1), R.NO_ADDRESS);
    assert Successes(0) == [] by { NoSuccesses(); }
    var c1 := c.(originFd := ORIGIN, dialed := c.dialed + [c.current[0]]);
    var t1 := READING[ORIGIN := Slot(OP_NOOP, Client(0))];
    assert Register(READING, ORIGIN, OP_NOOP, Client(0)) == (Success, t1);
    SuccessFits(c.toClient, 0);
    var r := ConnectedAtOnce(c1, t1, KEY, Some(R.NO_ADDRESS));
    assert TryAddress(c, READING, KEY, Opened(ORIGIN, Connected), Some(R.NO_ADDRESS)) == Settled(r);
    assert r.Ok? && r.value.t == BOTH;
  }

  lemma IsConnected(c: Conn)
    requires c.state == Some(ReqRead) && Quiet(c) && c.handshake == InRequest(R.Init(0, Zeros(), Zeros())) && c.username == "admin"
    ensures var r := OnRead(c, READING, KEY, Delivering(CONNECT_1_2_3_4, [Opened(ORIGIN, Connected)]));
            && r.Ok? && r.value.next == ReqConnect && !r.value.spawned && r.value.t == BOTH
            && HasOrigin(r.value.c, ReqConnect, 1) && r.value.c.atOnce == c.atOnce + 1
  {
    hide R.Parse, R.Step, InitiateOriginConnection, Successes;
    var k := Delivering(CONNECT_1_2_3_4, [Opened(ORIGIN, Connected)]);
    var p := R.Init(0, Zeros(), Zeros());
    var c0 := TakeIn(c, CONNECT_1_2_3_4);
    var c1 := ParseRequest(c0, p);
    assert c0.toServer.contents == CONNECT_1_2_3_4;
    AsksForAnAddress(p);
    var c2 := OfferDirect(c1, TargetOf(c1.handshake.req));
    ConnectsAtOnce(c2);
    assert RequestReady(c, READING, KEY, k) == InitiateOriginConnection(c2, READING, KEY, k.attempts, k.bound);
  }

  /** The process, with the origin's reply waiting. */
  ghost predicate HoldsOrigin(w: Process, c: Conn, place: Place) {
    && Reachable(w) && w.conns == map[0 := c] && w.t == BOTH && w.place == place && w.users == USERS
  }

  lemma ConnectedClient() returns (w: Process, c: Conn)
    ensures HoldsOrigin(w, c, AfterRead(KEY)) && HasOrigin(c, ReqConnect, 1) && c.atOnce > 0
  {
    hide OnRead, OnWrite, HasOrigin, Quiet;
    var w1, c1 := LoggedInClient();
    var k := Delivering(CONNECT_1_2_3_4, [Opened(ORIGIN, Connected)]);
    IsConnected(c1);
    c := OnRead(c1, READING, KEY, k).value.c;
    var a := ReadReady(FD, k);
    w := Step(w1, a).value;
    ReachesNext(w1, a);
  }

  /** An origin that connects at once and sends first is readable in a state without a read handler. */
  lemma AbortIsReachable() returns (w: Process, a: Action)
    ensures Reachable(w) && Enabled(w, a) && Step(w, a) == Crashed(MissingHandler)
    ensures a.ReadReady? && var key := KeyFor(w, a.fd);
            key.id in w.conns && key.fd == w.conns[key.id].originFd && w.conns[key.id].state == Some(ReqConnect)
  {
    hide OnRead, OnWrite, Successes;
    var w1, c := ConnectedClient();
    w := Step(w1, NextFd).value;
    ReachesNext(w1, NextFd);
    a := ReadReady(ORIGIN, Delivering([7], []));
    NoReadHandler(c, w.t, Key(ORIGIN, 0), a.k);
  }

  lemma NoReadHandler(c: Conn, t: Slots, key: Key, k: Kernel)
    requires c.state == Some(ReqConnect)
    ensures OnRead(c, t, key, k) == Crashed(MissingHandler)
  {
  }

  /** The client's write event then queues the second reply, and the next one sends both. */
  lemma IsAnsweredAgain(c: Conn)
    requires HasOrigin(c, ReqConnect, 1)
    ensures var r := OnWrite(c, BOTH, KEY, Delivering([], []));
            && r.Ok? && r.value.next == ReqWrite && !r.value.spawned && r.value.t == BOTH
            && HasOrigin(r.value.c, ReqWrite, 2) && r.value.c.atOnce == c.atOnce
  {
    hide R.Reply, R.Respond, Answer, Successes;
    SuccessFits(c.toClient, 1);
    AnswerFields(Release(c.(handshake := InRequest(c.handshake.req.(status := R.CON_SUCCEEDED)))).value,
                 Waiting(2), R.NO_ADDRESS);
    assert BOTH[FD := Slot(OP_WRITE, Client(0))] == BOTH && BOTH[ORIGIN := Slot(OP_READ, Client(0))] == BOTH;
  }

  lemma SendsBoth(c: Conn)
    requires HasOrigin(c, ReqWrite, 2)
    ensures var r := OnWrite(c, BOTH, KEY, Delivering([], []));
            && r.Ok? && r.value.next == Copy && !r.value.spawned && r.value.c.state == Some(Copy)
            && r.value.c.atOnce == c.atOnce
  {
    hide R.Reply;
    assert Successes(2) == Successes(1) + R.Reply(R.CON_SUCCEEDED, R.NO_ADDRESS);
    SuccessIsShort();
    NameIsAdmin();
  }

  /** A connect that succeeds at once is answered twice: the second reply reaches the client as relayed data. */
  lemma TwoRepliesAreReachable() returns (w: Process)
    ensures Reachable(w) && 0 in w.conns && w.conns[0].state == Some(Copy) && |w.conns[0].answers| >= 2
  {
    hide OnRead, OnWrite, HasOrigin;
    var w1, c1 := ConnectedClient();
    IsAnsweredAgain(c1);
    var a := WriteReady(FD, Delivering([], []));
    OriginOf(c1);
    var c2 := OnWrite(c1, BOTH, KEY, Delivering([], [])).value.c;
    var w2 := Step(w1, a).value;
    ReachesNext(w1, a);
    assert w2.conns == map[0 := c2] && w2.t == BOTH && w2.place == Idle;
    SendsBoth(c2);
    w := Step(w2, a).value;
    ReachesNext(w2, a);
    RepliesToTheRequest(w, 0);
  }

  lemma OriginOf(c: Conn)
    ensures HasOrigin(c, ReqConnect, 1) ==> c.originFd == ORIGIN
  {
  }
}
