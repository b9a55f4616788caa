/** What the invariant says about every state the server can reach, from its start, under any schedule. */
module ServerTheorems {
  import opened Bytes
  import opened Results
  import opened Incremental
  import opened SelectorTable
  import opened Connection
  import opened ConnectionInvariant
  import opened RelayInvariant
  import opened Server
  import opened ServerInvariant
  import opened ServerSafety
  import N = NegotiationParser
  import R = RequestParser
  import A = AuthenticationParser
  import SM = StateMachine
  import U = Users

  ghost predicate Reachable(w: Process) {
    exists w0: Process, run: seq<Action> :: Initial(w0) && CanRun(w0, run) && Run(w0, run) == w
  }

  lemma InitialInv(w: Process)
    requires Initial(w)
    ensures Inv(w)
  {
  }

  lemma ReachableInv(w: Process)
    requires Reachable(w)
    ensures Inv(w)
  {
    hide Inv, Initial, CanRun, Run;
    var w0: Process, run: seq<Action> :| Initial(w0) && CanRun(w0, run) && Run(w0, run) == w;
    InitialInv(w0);
    RunIsSafe(w0, run);
  }

  lemma ReachableLive(w: Process, id: nat)
    requires Reachable(w) && id in w.conns
    ensures Live(w.conns[id], id, w.t)
  {
    hide Live;
    ReachableInv(w);
  }

  /** A connection that exists now, or did: its last contents. */
  predicate Known(w: Process, id: nat) { id in w.conns || id in w.freed }

  function Record(w: Process, id: nat): Conn
    requires Known(w, id)
  {
    if id in w.conns then w.conns[id] else w.freed[id]
  }

  /**
   * End to end, for every connection there ever was: the bytes received are, in order, those the three parsers
   * used, those the origin got, and those still unread; the origin's share is a prefix of what follows the
   * handshake in the client's stream; and the client was sent a prefix of the replies, in their order, and the
   * origin's bytes.
   */
  lemma StreamsAreFramed(w: Process, id: nat)
    requires Reachable(w) && Known(w, id)
    ensures var c := Record(w, id);
            && c.received == c.negBytes + c.authBytes + c.reqBytes + c.toOrigin + c.toServer.contents
            && (c.toOrigin != [] ==> c.toOrigin + c.toServer.contents == AfterHandshake(c.received))
            && c.toOrigin <= AfterHandshake(c.received)
            && c.replies + c.fromOrigin == c.sent + c.toClient.contents
            && c.sent <= c.replies + c.fromOrigin
            && Spoken(c.replies, c.greeting, c.verdict, c.answers, c.cut)
  {
    ReachableInv(w);
    var c := Record(w, id);
    assert Framed(c) by {
      if id in w.conns {
        assert Live(c, id, w.t);
      } else {
        assert Buried(c);
      }
    }
    if c.toOrigin != [] {
      OriginSeesTheTail(c);
    }
  }

  /** A relaying connection has nothing of the client's stream but what follows the request. */
  lemma RelayCarriesTheTail(w: Process, id: nat)
    requires Reachable(w) && id in w.conns && w.conns[id].state == Some(Copy)
    ensures var c := w.conns[id]; c.toOrigin + c.toServer.contents == AfterHandshake(c.received)
  {
    ReachableLive(w, id);
    OriginSeesTheTail(w.conns[id]);
  }

  lemma LiveIsRegistered(c: Conn, id: nat, t: Slots)
    requires Live(c, id, t)
    ensures Registered(c, id, t)
  {
  }

  /** Objects and descriptors: what is live is registered to itself alone, and the rest was freed, once. */
  lemma DescriptorsAndObjects(w: Process)
    requires Reachable(w)
    ensures forall id :: id in w.conns ==>
              var c := w.conns[id];
              && c.clientFd in w.t && w.t[c.clientFd].data == Client(id)
              && (c.originFd != -1 ==> c.originFd in w.t && w.t[c.originFd].data == Client(id))
    ensures forall fd :: OwnedByClient(w.t, fd) ==>
              && w.t[fd].data.id in w.conns
              && (fd == w.conns[w.t[fd].data.id].clientFd || fd == w.conns[w.t[fd].data.id].originFd)
    ensures w.connections == |w.conns|
    ensures forall id: nat :: id < w.nextId <==> (id in w.conns) != (id in w.freed)
  {
    hide Live, Reachable;
    ReachableInv(w);
    forall id | id in w.conns
      ensures Registered(w.conns[id], id, w.t)
    {
      LiveIsRegistered(w.conns[id], id, w.t);
    }
    assert w.conns.Keys !! w.freed.Keys;
    assert forall id :: id in w.conns ==> id !in w.freed;
  }

  /** A callback never gets a freed object: its key's attachment is live and owns the descriptor. */
  lemma CallbacksGetLiveObjects(w: Process, a: Action)
    requires Reachable(w) && Enabled(w, a)
    ensures a.ReadReady? || a.WriteReady? ==>
              var key := KeyFor(w, a.fd); key.id in w.conns && w.t[a.fd].data == Client(key.id)
    ensures a.NotifyOne? ==>
              var job := w.place.rest[0]; job.id in w.conns && job.fd in w.t && w.t[job.fd].data == Client(job.id)
  {
    ReachableInv(w);
    if a.NotifyOne? {
      HeadFindsItsConnection(w);
    }
  }

  /** From accept to REQ_RESOLVE the client is watched for exactly the events its state has a handler for. */
  lemma InterestsMatchHandlers(w: Process, id: nat)
    requires Reachable(w) && id in w.conns
    requires w.conns[id].state == None
          || w.conns[id].state.value in {NegotiationRead, NegotiationWrite, AuthRead, AuthWrite, ReqRead, ReqResolve}
    ensures var c := w.conns[id];
            var handlers := Handlers(First(c).state.value);
            && c.originFd == -1 && c.clientFd in w.t
            && (w.t[c.clientFd].interest.read <==> SM.Read in handlers)
            && (w.t[c.clientFd].interest.write <==> SM.Write in handlers)
  {
    ReachableLive(w, id);
  }

  /**
   * In COPY each side is watched for exactly one event, never both for writing; a side that is still open and that bytes
   * wait for is watched for writing, except an origin that nothing has gone to yet.
   */
  lemma RelayIsWatched(w: Process, id: nat)
    requires Reachable(w) && id in w.conns && w.conns[id].state == Some(Copy)
    ensures var c := w.conns[id];
            && c.clientFd in w.t && w.t[c.clientFd].interest in {OP_READ, OP_WRITE}
            && (c.originFd == -1 ==> w.t[c.clientFd].interest == OP_READ)
            && (c.originFd != -1 ==>
                  && c.originFd in w.t && w.t[c.originFd].interest in {OP_READ, OP_WRITE}
                  && !(w.t[c.clientFd].interest.write && w.t[c.originFd].interest.write)
                  && (c.toClient.contents != [] && !c.clientEof ==> w.t[c.clientFd].interest.write)
                  && (c.toServer.contents != [] && !c.originEof && c.toOrigin != [] ==> w.t[c.originFd].interest.write))
  {
    hide ConnOk, Reachable;
    ReachableLive(w, id);
  }

  /**
   * A descriptor that `accept` returns, ready and with its object allocated, becomes a live connection watched for reading,
   * however many there are; without that, or with no slot for it, nothing else changes.
   */
  lemma NewClientIsServed(w: Process, fd: int, prepared: bool) returns (w': Process)
    requires Reachable(w) && Enabled(w, AcceptClient(fd, prepared))
    ensures Step(w, AcceptClient(fd, prepared)) == Ok(w')
    ensures if prepared && ValidFd(fd) then
              && w.nextId !in w.conns && w'.conns == w.conns[w.nextId := New(fd)]
              && w'.t == w.t[fd := Slot(OP_READ, Client(w.nextId))] && w'.connections == w.connections + 1
              && (forall k: Kernel :: k.users == w.users && Unopened(k.attempts, w'.t) ==> Enabled(w', ReadReady(fd, k)))
            else w'.conns == w.conns && w'.t == w.t && w'.connections == w.connections
  {
    hide Inv, Reachable, New;
    ReachableInv(w);
    NextIsNew(w);
    w' := Accept(w, fd, prepared);
  }

  lemma NextIsNew(w: Process)
    requires Inv(w)
    ensures w.nextId !in w.conns
  {
    hide ConnsOk, JobsOk, LogOk, Buried;
  }

  /** Jobs: each queued one was dispatched or waits, and finds its connection still resolving at its descriptor. */
  lemma JobsAreConserved(w: Process)
    requires Reachable(w)
    ensures multiset(w.queued) == multiset(w.dispatched) + multiset(Outstanding(w))
    ensures w.dropped == []
    ensures forall j :: j in Outstanding(w) ==>
              Resolving(w.conns, j.id) && w.conns[j.id].clientFd == j.fd && j.fd in w.t && w.t[j.fd].data == Client(j.id)
    ensures forall i, j :: 0 <= i < j < |Outstanding(w)| ==> Outstanding(w)[i] != Outstanding(w)[j]
    ensures forall id :: Resolving(w.conns, id) ==> HasJob(w.threads, Outstanding(w), w.lost, Job(w.conns[id].clientFd, id))
  {
    ReachableInv(w);
    forall j | j in Outstanding(w)
      ensures Awaits(w.conns, j) && j.fd in w.t && w.t[j.fd].data == Client(j.id)
    {
      assert Awaits(w.conns, j);
      assert Live(w.conns[j.id], j.id, w.t);
    }
  }

  /** Addresses: one list at most, released once at most by its own deallocator, and by the time of the free. */
  lemma AddressesAreReleasedOnce(w: Process, id: nat)
    requires Reachable(w) && Known(w, id)
    ensures var c := Record(w, id);
            && |c.obtained| <= 1
            && c.obtained == c.released + (if c.originAddr.Some? then [c.originAddr.value.source] else [])
            && (id in w.freed ==> c.originAddr == None)
            && (c.originAddr.Some? ==> c.handshake.InRequest?)
            && (c.originAddr.Some? ==> (c.originAddr.value.source == Getaddrinfo <==> c.handshake.req.atyp == R.DN))
  {
    ReachableInv(w);
    if id in w.conns {
      assert Live(w.conns[id], id, w.t);
    } else {
      assert Buried(w.freed[id]);
    }
  }

  /** A numeric request dials the address it names and no other; a name dials only what the resolver offered. */
  lemma OnlyTheRequestedAddressIsDialed(w: Process, id: nat)
    requires Reachable(w) && id in w.conns
    ensures var c := w.conns[id];
            && (forall x :: x in c.dialed ==> x in c.offered)
            && (c.handshake.InRequest? && c.handshake.req.atyp != R.DN ==>
                  forall x :: x in c.dialed ==> x == TargetOf(c.handshake.req))
            && (Late(c) ==>
                  var p := R.Parse(ReqStart(), c.reqBytes).0;
                  p.atyp == c.handshake.req.atyp && TargetOf(p) == TargetOf(c.handshake.req))
  {
    ReachableLive(w, id);
    hide Framed, Registered, Watched, Consumes;
  }

  lemma OfferedExactly(bs: seq<byte>) returns (methods: seq<byte>)
    requires var p := N.Parse(NegStart(), bs).0; NegOver(bs, p) && p.state == N.NegDone && p.selected == N.PASS
    ensures |methods| <= 255 && bs == N.Encode(methods) && N.PASS in methods
  {
    N.Grammar(0, bs);
    var rest: seq<byte>;
    methods, rest :| N.IsMessage(bs, methods, rest);
    N.RoundTrip(0, methods, rest);
  }

  /** A client gets past the negotiation only with a complete method list that offers 0x02. */
  lemma MethodWasOffered(w: Process, id: nat) returns (methods: seq<byte>)
    requires Reachable(w) && id in w.conns && w.conns[id].state.Some?
    requires w.conns[id].state.value !in {NegotiationRead, NegotiationWrite}
    ensures |methods| <= 255 && w.conns[id].negBytes == N.Encode(methods) && N.PASS in methods
  {
    hide Framed, Addresses, Registered, Watched, Reachable;
    ReachableLive(w, id);
    methods := OfferedExactly(w.conns[id].negBytes);
  }

  lemma RequestedExactly(bs: seq<byte>) returns (atyp: byte, n: byte, addr: seq<byte>, high: byte, low: byte)
    requires var p := R.Parse(ReqStart(), bs).0; ReqOver(bs, p) && p.state == R.ReqDone
    ensures R.IsRequest(bs, atyp, n, addr, high, low, [])
    ensures var p := R.Parse(ReqStart(), bs).0;
            p.atyp == atyp && (atyp != R.DN ==> TargetOf(p) == Target(atyp, addr, 256 * high + low))
  {
    R.Grammar(ReqStart(), bs);
    var rest: seq<byte>;
    atyp, n, addr, high, low, rest :| R.IsRequest(bs, atyp, n, addr, high, low, rest);
    R.Reads(ReqStart(), atyp, n, addr, high, low, rest);
  }

  /** An origin is dialled only for a complete CONNECT request; a numeric one dials just the address it carries. */
  lemma DialsWhatWasRequested(w: Process, id: nat) returns (atyp: byte, n: byte, addr: seq<byte>, high: byte, low: byte)
    requires Reachable(w) && id in w.conns && w.conns[id].dialed != []
    ensures var c := w.conns[id];
            && R.IsRequest(c.reqBytes, atyp, n, addr, high, low, [])
            && (atyp != R.DN ==> forall x :: x in c.dialed ==> x == Target(atyp, addr, 256 * high + low))
  {
    hide Framed, Registered, Watched, Consumes, Reachable;
    ReachableLive(w, id);
    var c := w.conns[id];
    assert c.dialed[0] in c.offered;
    assert Late(c);
    atyp, n, addr, high, low := RequestedExactly(c.reqBytes);
    OnlyTheRequestedAddressIsDialed(w, id);
  }

  /** In the states without a read handler, a read event can only be the origin's. */
  lemma OnlyTheOriginReads(c: Conn, t: Slots, key: Key)
    requires Live(c, key.id, t) && Dispatched(t, key) && t[key.fd].interest.read
    requires c.state == Some(ReqConnect) || c.state == Some(ReqWrite)
    ensures key.fd == c.originFd
  {
  }

  /** An origin readable in a state without a read handler, or client data for a relay without an origin. */
  ghost predicate FatalRead(w: Process, a: Action)
    requires Enabled(w, a)
  {
    && a.ReadReady?
    && var key := KeyFor(w, a.fd);
    && key.id in w.conns
    && var c := w.conns[key.id];
    || (c.state == Some(ReqConnect) && key.fd == c.originFd)
    || (c.state == Some(ReqWrite) && key.fd == c.originFd)
    || RelayToNowhere(c, key, a.k)
  }

  /** The last byte of the reply leaves, and the user that the client named is not in the table. */
  ghost predicate FatalWrite(w: Process, a: Action)
    requires Enabled(w, a)
  {
    && a.WriteReady?
    && var key := KeyFor(w, a.fd);
    && key.id in w.conns
    && var c := w.conns[key.id];
    && c.state == Some(ReqWrite) && a.k.send.Takes? && a.k.send.n >= |c.toClient.contents| > 0
    && U.Find(w.users.rows, c.username) < 0
  }

  /**
   * A manager's command leaves the user table's array: a row is added past its end, or a limit whose size in bytes
   * wraps is granted an array that is too short for the rows.
   */
  ghost predicate FatalCommand(w: Process, a: Action) { a.Manage? && U.Overruns(w.users, a.op) }

  lemma FatalReads(w: Process, a: Action)
    requires Inv(w) && Enabled(w, a) && a.ReadReady?
    ensures EndsProcess(w, a) <==> FatalRead(w, a)
  {
    var key := KeyFor(w, a.fd);
    OwnedSlot(w, a.fd);
    hide Live, Inv;
    if w.conns[key.id].state == Some(ReqConnect) || w.conns[key.id].state == Some(ReqWrite) {
      OnlyTheOriginReads(w.conns[key.id], w.t, key);
    }
  }

  lemma CrashesByInv(w: Process, a: Action)
    requires Inv(w) && Enabled(w, a)
    ensures Step(w, a).Crashed? <==> FatalRead(w, a) || FatalWrite(w, a) || FatalCommand(w, a)
  {
    hide Step, Inv;
    StepIsSafe(w, a);
    if a.ReadReady? {
      FatalReads(w, a);
    }
  }

  /** The process ends at a step exactly when it is one of these, whatever has happened before. */
  lemma CrashesAreExactlyThese(w: Process, a: Action)
    requires Reachable(w) && Enabled(w, a)
    ensures Step(w, a).Crashed? <==> FatalRead(w, a) || FatalWrite(w, a) || FatalCommand(w, a)
  {
    hide Step, Inv, Reachable, FatalRead, FatalWrite, FatalCommand;
    ReachableInv(w);
    CrashesByInv(w, a);
  }

  // ---------------------------------------------------------------- the users

  /** The users and the jobs are as they were. */
  predicate SameAside(w: Process, w': Process) {
    w'.users == w.users && w'.jobs == w.jobs && w'.lost == w.lost
  }

  lemma UnregisterIsLocal(w: Process, fd: int)
    ensures UnregisterFd(w, fd).Ok? ==> SameAside(w, UnregisterFd(w, fd).value)
  {
    hide Release;
  }

  lemma DoneIsLocal(w: Process, id: nat)
    ensures Done(w, id).Ok? ==> SameAside(w, Done(w, id).value)
  {
    hide UnregisterFd;
    if id in w.conns {
      UnregisterIsLocal(w, w.conns[id].clientFd);
      var w1 := UnregisterFd(w, w.conns[id].clientFd);
      if w1.Ok? {
        UnregisterIsLocal(w1.value, w.conns[id].originFd);
      }
    }
  }

  lemma SettleIsLocal(w: Process, key: Key, r: Turn)
    ensures Settle(w, key, r).Ok? ==> SameAside(w, Settle(w, key, r).value)
  {
    hide Done, SpawnedBy;
    DoneIsLocal(AfterTurn(w, key, r), key.id);
  }

  lemma CallbacksKeepUsers(w: Process, key: Key, k: Kernel)
    ensures SocksRead(w, key, k).Ok? ==> SocksRead(w, key, k).value.users == w.users
    ensures SocksWrite(w, key, k).Ok? ==> SocksWrite(w, key, k).value.users == w.users
    ensures SocksBlock(w, key, k).Ok? ==> SocksBlock(w, key, k).value.users == w.users
  {
    hide OnRead, OnWrite, OnBlock, Settle;
    if key.id in w.conns {
      var c := w.conns[key.id];
      if OnRead(c, w.t, key, k).Ok? { SettleIsLocal(w, key, OnRead(c, w.t, key, k).value); }
      if OnWrite(c, w.t, key, k).Ok? { SettleIsLocal(w, key, OnWrite(c, w.t, key, k).value); }
      if OnBlock(c, w.t, key, k).Ok? { SettleIsLocal(w, key, OnBlock(c, w.t, key, k).value); }
    }
  }

  lemma OnlyManagersChangeUsers(w: Process, a: Action)
    requires Enabled(w, a) && Step(w, a).Ok?
    ensures Step(w, a).value.users == if a.Manage? then U.Do(w.users, a.op) else w.users
  {
    hide SocksRead, SocksWrite, SocksBlock, U.Do;
    match a
    case ReadReady(fd, k) => CallbacksKeepUsers(w, KeyFor(w, fd), k);
    case WriteReady(fd, k) => CallbacksKeepUsers(w, KeyFor(w, fd), k);
    case NotifyOne(k) =>
      var job := w.place.rest[0];
      if job.fd in w.t && w.t[job.fd].data.Client? {
        CallbacksKeepUsers(AtHead(w), Key(job.fd, w.t[job.fd].data.id), k);
      }
    case _ =>
  }

  lemma {:induction false} RunKeepsUsers(w: Process, run: seq<Action>)
    requires U.Good(w.users) && CanRun(w, run)
    ensures U.Good(Run(w, run).users)
    decreases |run|
  {
    hide U.Good, U.Do, SocksRead, SocksWrite, Dispatch;
    if run != [] {
      OnlyManagersChangeUsers(w, run[0]);
      if run[0].Manage? {
        U.OverrunsBreak(w.users, run[0].op);
      }
      RunKeepsUsers(Step(w, run[0]).value, run[1..]);
    }
  }

  /** The user table stays in order beside everything else. */
  lemma UsersAreGood(w: Process)
    requires Reachable(w)
    ensures U.Good(w.users)
  {
    var w0: Process, run: seq<Action> :| Initial(w0) && CanRun(w0, run) && Run(w0, run) == w;
    RunKeepsUsers(w0, run);
  }

  /** The user a connection logs for is the one its login message names. */
  lemma LogsForTheNamedUser(w: Process, id: nat)
    requires Reachable(w) && id in w.conns && Late(w.conns[id])
    ensures var c := w.conns[id];
            c.username == Text(A.Parse(AuthStart(), c.authBytes).0.uname)
  {
  }

  // ---------------------------------------------------------------- what the client is told

  /** Past the login, the replies are the method reply, the login's, and the whole replies to the request. */
  lemma RepliesInOrder(w: Process, id: nat) returns (v: byte)
    requires Reachable(w) && id in w.conns && w.conns[id].state.Some?
    requires w.conns[id].state.value !in {NegotiationRead, NegotiationWrite, AuthRead}
    ensures var c := w.conns[id];
            var said := [5, N.PASS] + [1, v] + Joined(c.answers);
            v in {0, 1} && c.replies == said && c.sent <= said + c.fromOrigin
  {
    hide Phase, Addresses, Registered, Watched, Reachable, HandshakeOver, Joined;
    ReachableLive(w, id);
    var c := w.conns[id];
    v :| c.verdict <= [1, v] && (v == 0 || v == 1);
    assert c.verdict == [1, v];
    var said := [5, N.PASS] + [1, v] + Joined(c.answers);
    assert said + [] == said;
    assert c.replies + c.fromOrigin == c.sent + c.toClient.contents;
  }

  /**
   * A request that has its reply has exactly one, unless a connect succeeded at once: each of those adds a success
   * before it. The last is a success if and only if there is an origin.
   */
  lemma RepliesToTheRequest(w: Process, id: nat)
    requires Reachable(w) && id in w.conns && w.conns[id].state in {Some(ReqWrite), Some(Copy)}
    ensures var c := w.conns[id];
            && |c.answers| == c.atOnce + 1
            && (|c.answers| == 1 <==> c.atOnce == 0)
            && (forall i :: 0 <= i < c.atOnce ==> c.answers[i].status == R.CON_SUCCEEDED)
            && (c.answers[c.atOnce].status == R.CON_SUCCEEDED <==> c.originFd != -1)
  {
    hide Phase, Addresses, Registered, Watched, Reachable, Framed;
    ReachableLive(w, id);
    var c := w.conns[id];
    assert forall i :: 0 <= i < c.atOnce ==> c.answers[i] == c.answers[..c.atOnce][i];
  }
}
