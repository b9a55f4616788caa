/** Runs that leave a client without an answer, and runs that stall it for ever. */
module StallWitness {
  import opened Bytes
  import opened Results
  import opened SelectorTable
  import opened Connection
  import opened Server
  import opened ServerTheorems
  import opened ServerStall
  import opened ServerWitness
  import R = RequestParser
  import RI = RelayInvariant
  import RP = Replies
  import W = OriginWalk

  /** The connect is in progress: only the origin is watched. */
  const DIALING: Slots := map[FD := Slot(OP_NOOP, Client(0)), ORIGIN := Slot(OP_WRITE, Client(0))]

  const WAITING: Slots := map[FD := Slot(OP_NOOP, Client(0))]

  const ORIGIN_KEY := Key(ORIGIN, 0)

  /** SO_ERROR is set, and a further connect is made on the descriptor that was just closed. */
  function Retrying(result: ConnectResult): Kernel { Delivering([], [Opened(ORIGIN, result)]).(soError := true) }

  const FAILING := Retrying(InProgress)

  ghost predicate Dials(c: Conn, n: nat) {
    && c.state == Some(ReqConnect) && c.clientFd == FD && c.originFd == ORIGIN && |c.current| == n
    && c.toClient.contents == [] && c.toClient.Space() >= 10 && c.handshake.InRequest? && c.answers == []
  }

  /** A walk whose first connect is in progress. */
  lemma GoesInProgress(c: Conn, t: Slots)
    requires c.clientFd == FD && c.originFd == -1 && c.current != []
    requires t == READING || t == WAITING
    ensures var r := InitiateOriginConnection(c, t, KEY, [Opened(ORIGIN, InProgress)], Some(R.NO_ADDRESS));
            && r.Ok? && r.value.next == ReqConnect && !r.value.spawned && r.value.t == DIALING
            && r.value.c == c.(originFd := ORIGIN, dialed := c.dialed + [c.current[0]])
  {
    var c1 := c.(originFd := ORIGIN, dialed := c.dialed + [c.current[0]]);
    var t1 := t[ORIGIN := Slot(OP_NOOP, Client(0))];
    assert Register(t, ORIGIN, OP_NOOP, Client(0)) == (Success, t1);
    assert t1[ORIGIN := Slot(OP_WRITE, Client(0))][FD := Slot(OP_NOOP, Client(0))] == DIALING;
    assert TryAddress(c, t, KEY, Opened(ORIGIN, InProgress), Some(R.NO_ADDRESS)) == Settled(Go(c1, DIALING, ReqConnect));
  }

  // ---------------------------------------------------------------- one address, no answer

  lemma IsDialing(c: Conn)
    requires c.state == Some(ReqRead) && Quiet(c) && c.handshake == InRequest(R.Init(0, Zeros(), Zeros())) && c.answers == []
    ensures var r := OnRead(c, READING, KEY, Delivering(CONNECT_1_2_3_4, [Opened(ORIGIN, InProgress)]));
            r.Ok? && r.value.next == ReqConnect && !r.value.spawned && r.value.t == DIALING && Dials(r.value.c, 1)
  {
    hide R.Parse, R.Step, InitiateOriginConnection;
    var k := Delivering(CONNECT_1_2_3_4, [Opened(ORIGIN, InProgress)]);
    var c0 := TakeIn(c, CONNECT_1_2_3_4);
    var c1 := ParseRequest(c0, c.handshake.req);
    assert c0.toServer.contents == CONNECT_1_2_3_4;
    AsksForAnAddress(c.handshake.req);
    var c2 := OfferDirect(c1, TargetOf(c1.handshake.req));
    GoesInProgress(c2, READING);
    assert RequestReady(c, READING, KEY, k) == InitiateOriginConnection(c2, READING, KEY, k.attempts, k.bound);
  }

  /** Nothing has been said about a request that is being read. */
  lemma NotYetAnswered(w: Process, c: Conn)
    requires AwaitsRequest(w, c)
    ensures c.answers == []
  {
    hide Reachable;
    ReachableLive(w, 0);
  }

  ghost predicate InTheAir(w: Process, c: Conn, n: nat) {
    && Reachable(w) && w.conns == map[0 := c] && w.t == DIALING && w.place == Idle && w.users == USERS && Dials(c, n)
  }

  lemma DialsTheOnlyOne() returns (w: Process, c: Conn)
    ensures InTheAir(w, c, 1)
  {
    hide OnRead, Quiet, Dials;
    var w1, c1 := LoggedInClient();
    NotYetAnswered(w1, c1);
    var k := Delivering(CONNECT_1_2_3_4, [Opened(ORIGIN, InProgress)]);
    IsDialing(c1);
    c := OnRead(c1, READING, KEY, k).value.c;
    var a := ReadReady(FD, k);
    var w2 := Step(w1, a).value;
    ReachesNext(w1, a);
    w := Step(w2, NextFd).value;
    ReachesNext(w2, NextFd);
  }

  lemma FailsInSilence(c: Conn)
    requires Dials(c, 1) && RI.Live(c, 0, DIALING)
    ensures var r := OnWrite(c, DIALING, ORIGIN_KEY, FAILING);
            r.Ok? && r.value.next == SocksError && r.value.c.replies == c.replies
  {
    hide RequestConnect, RI.Live;
    RP.FailureIsNotTold(c, DIALING, ORIGIN_KEY, FAILING);
  }

  /** A single address, in progress and then refused: the connection ends and no reply was ever queued. */
  lemma FailureIsNotTold() returns (w: Process, a: Action)
    ensures Reachable(w) && Enabled(w, a) && a.WriteReady? && KeyFor(w, a.fd) == ORIGIN_KEY && 0 in w.conns
    ensures var r := OnWrite(w.conns[0], w.t, ORIGIN_KEY, a.k);
            r.Ok? && r.value.next == SocksError && r.value.c.replies == w.conns[0].replies && w.conns[0].answers == []
  {
    hide OnWrite, Reachable, RI.Live;
    var c: Conn;
    w, c := DialsTheOnlyOne();
    a := WriteReady(ORIGIN, FAILING);
    ReachableLive(w, 0);
    FailsInSilence(c);
  }

  // ---------------------------------------------------------------- two addresses, and the client stalls

  const CONNECT_NAME: seq<byte> := [5, 1, 0, 3, 1, 120, 0, 80]

  const JOB := Job(FD, 0)

  const FOUND: seq<Target> := [Target(R.IPV4, [1, 2, 3, 4], 80), Target(R.IPV4, [1, 2, 3, 5], 80)]

  lemma AsksForAName(p: R.Req)
    requires p.state == R.ReqVersion
    ensures var r := R.Parse(p, CONNECT_NAME); r.0.state == R.ReqDone && r.0.atyp == R.DN && r.1 == []
  {
    hide R.Parse;
    assert R.Encode(R.DN, 1, [120], 0, 80) + [] == CONNECT_NAME;
    R.RoundTrip(p, R.DN, [120], 0, 80, []);
  }

  lemma IsResolving(c: Conn)
    requires c.state == Some(ReqRead) && Quiet(c) && c.handshake == InRequest(R.Init(0, Zeros(), Zeros())) && c.answers == []
    ensures var r := OnRead(c, READING, KEY, Delivering(CONNECT_NAME, []));
            && r.Ok? && r.value.next == ReqResolve && r.value.spawned && r.value.t == WAITING
            && r.value.c.state == Some(ReqResolve) && Quiet(r.value.c) && r.value.c.answers == []
            && r.value.c.handshake.InRequest?
  {
    hide R.Parse, R.Step, InitiateOriginConnection;
    var k := Delivering(CONNECT_NAME, []);
    var c0 := TakeIn(c, CONNECT_NAME);
    var c1 := ParseRequest(c0, c.handshake.req);
    assert c0.toServer.contents == CONNECT_NAME;
    AsksForAName(c.handshake.req);
    assert RequestReady(c, READING, KEY, k) == HandleRequest(c1, READING, KEY, k);
  }

  ghost predicate Resolves(w: Process, c: Conn, threads: multiset<Thread>, jobs: seq<Job>, place: Place) {
    && Reachable(w) && w.conns == map[0 := c] && w.t == WAITING && w.users == USERS
    && w.threads == threads && w.jobs == jobs && w.place == place
  }

  lemma StartsToResolve() returns (w: Process, c: Conn)
    ensures Resolves(w, c, multiset{Thread(JOB, false)}, [], Idle)
    ensures c.state == Some(ReqResolve) && Quiet(c) && c.answers == [] && c.handshake.InRequest?
  {
    hide OnRead, Quiet;
    var w1, c1 := LoggedInClient();
    NotYetAnswered(w1, c1);
    IsResolving(c1);
    var k := Delivering(CONNECT_NAME, []);
    c := OnRead(c1, READING, KEY, k).value.c;
    var w2 := Step(w1, ReadReady(FD, k)).value;
    ReachesNext(w1, ReadReady(FD, k));
    w := Step(w2, NextFd).value;
    ReachesNext(w2, NextFd);
  }

  lemma Hears() returns (w: Process, c: Conn)
    ensures Resolves(w, c, multiset{Thread(JOB, true)}, [], Idle)
    ensures c.state == Some(ReqResolve) && Quiet(c) && c.answers == [] && c.handshake.InRequest?
    ensures c.originAddr.Some? && c.current == FOUND
  {
    hide Quiet;
    var w1, c1 := StartsToResolve();
    var a := ThreadResolves(JOB, FOUND);
    w := Step(w1, a).value;
    ReachesNext(w1, a);
    c := StoreAnswer(c1, FOUND);
    StoringIsQuiet(c1);
  }

  /** The name has two addresses, and the selector's thread is about to hear of them. */
  lemma HearsOfTwo() returns (w: Process, c: Conn)
    ensures Resolves(w, c, multiset{}, [JOB], Notifying([JOB]))
    ensures c.state == Some(ReqResolve) && Quiet(c) && c.answers == [] && c.handshake.InRequest?
    ensures c.originAddr.Some? && c.current == FOUND
  {
    hide Quiet;
    var w2: Process;
    w2, c := Hears();
    var w3 := Step(w2, ThreadNotifies(JOB, true)).value;
    ReachesNext(w2, ThreadNotifies(JOB, true));
    assert [JOB] + [] == [JOB];
    w := Step(w3, TakeJobs).value;
    ReachesNext(w3, TakeJobs);
  }

  lemma StoringIsQuiet(c: Conn)
    requires Quiet(c)
    ensures Quiet(StoreAnswer(c, FOUND))
  {
  }

  lemma DialsTheFirst(c: Conn)
    requires c.state == Some(ReqResolve) && Quiet(c) && c.answers == [] && c.handshake.InRequest?
    requires c.originAddr.Some? && c.current == FOUND
    ensures var r := OnBlock(c, WAITING, KEY, Delivering([], [Opened(ORIGIN, InProgress)]));
            r.Ok? && r.value.next == ReqConnect && !r.value.spawned && r.value.t == DIALING && Dials(r.value.c, 2)
  {
    hide InitiateOriginConnection;
    GoesInProgress(c, WAITING);
  }

  lemma DialsOneOfTwo() returns (w: Process, c: Conn)
    ensures InTheAir(w, c, 2)
  {
    hide OnBlock, Quiet, Dials;
    var w1, c1 := HearsOfTwo();
    DialsTheFirst(c1);
    var k := Delivering([], [Opened(ORIGIN, InProgress)]);
    c := OnBlock(c1, WAITING, KEY, k).value.c;
    var w2 := Step(w1, NotifyOne(k)).value;
    ReachesNext(w1, NotifyOne(k));
    assert w2.place == Notifying([]);
    w := Step(w2, ResetJobs).value;
    ReachesNext(w2, ResetJobs);
  }

  /** The retry, in progress or connected at once, is on the same descriptor: nobody is watched for writing any more. */
  lemma RetriesUnwatched(c: Conn, result: ConnectResult) returns (c': Conn, t': Slots)
    requires Dials(c, 2) && RI.Live(c, 0, DIALING) && !result.Refused?
    ensures OnWrite(c, DIALING, ORIGIN_KEY, Retrying(result)) == Ok(Turn(c', t', ReqConnect, false))
    ensures c'.state == Some(ReqConnect) && c'.clientFd == FD && c'.originFd == ORIGIN
    ensures t' == DIALING[ORIGIN := Slot(if result.InProgress? then OP_NOOP else OP_READ, Client(0))]
    ensures if result.InProgress? then c'.replies == c.replies
            else c'.replies == c.replies + R.Reply(R.CON_SUCCEEDED, R.NO_ADDRESS)
  {
    hide RequestConnect, RI.Live, R.Reply;
    var k := Retrying(result);
    var i := RP.RetryFromTheOrigin(c, DIALING, ORIGIN_KEY, k);
    assert W.Nth(k.attempts, 0) == Opened(ORIGIN, result);
    assert !W.Fails(DIALING - {ORIGIN}, 0, W.Nth(k.attempts, 0));
    assert i == 0;
    RP.ErrorsAreShort(R.CON_SUCCEEDED);
    var turn := OnWrite(c, DIALING, ORIGIN_KEY, k).value;
    c', t' := turn.c, turn.t;
  }

  /** The first connect fails, and the retry ends either way: in progress, or connected with a reply queued. */
  lemma StallIsReachable(result: ConnectResult) returns (w: Process)
    requires !result.Refused?
    ensures Reachable(w) && Stalled(w, 0) && w.place == Idle && w.conns[0].state == Some(ReqConnect)
    ensures w.conns[0].originFd == ORIGIN && FD in w.t && ORIGIN in w.t && w.users == USERS
    ensures w.t[FD] == Slot(OP_NOOP, Client(0))
    ensures w.t[ORIGIN] == Slot(if result.InProgress? then OP_NOOP else OP_READ, Client(0))
  {
    hide OnWrite, RI.Live;
    var w1, c := DialsOneOfTwo();
    ReachableLive(w1, 0);
    var a := WriteReady(ORIGIN, Retrying(result));
    var c', t' := RetriesUnwatched(c, result);
    w := Step(w1, a).value;
    ReachesNext(w1, a);
    assert w.conns == map[0 := c'] && w.t == t';
  }

  /** After a retry that connected at once, the origin's first data ends the process. */
  lemma StallCanEndTheProcess() returns (w: Process, a: Action)
    ensures Reachable(w) && Stalled(w, 0) && Enabled(w, a) && Concerns(w, a, 0) && Step(w, a).Crashed?
  {
    hide Reachable, Stalled, Step, RI.Live;
    w := StallIsReachable(Connected);
    a := ReadReady(ORIGIN, Delivering([0], []));
    ReachableInv(w);
    StalledEventIsFatal(w, a, 0);
  }

  // ---------------------------------------------------------------- a name that is never resolved

  /** No thread could be started for the name, or there was no memory for its job: the client waits for ever. */
  lemma LostJobIsReachable(started: bool) returns (w: Process)
    ensures Reachable(w) && Stalled(w, 0) && w.conns[0].state == Some(ReqResolve)
  {
    var w1, c: Conn;
    if started {
      w1, c := Hears();
      w := Step(w1, ThreadNotifies(JOB, false)).value;
      ReachesNext(w1, ThreadNotifies(JOB, false));
    } else {
      w1, c := StartsToResolve();
      w := Step(w1, ThreadFails(JOB)).value;
      ReachesNext(w1, ThreadFails(JOB));
    }
  }
}
