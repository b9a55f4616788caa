/** The relay, the events of one connection, and what a finished handshake says about the stream. */
module RelayInvariant {
  import opened Bytes
  import opened Results
  import opened Buffers
  import opened Incremental
  import opened SelectorTable
  import opened Connection
  import opened ConnectionInvariant
  import N = NegotiationParser
  import A = AuthenticationParser
  import R = RequestParser
  import SM = StateMachine

  lemma DrainToServerFramed(c: Conn, fd: int, n: nat)
    requires Framed(c) && Late(c) && n <= |c.toServer.contents| && fd != c.clientFd
    ensures Framed(DrainToServer(c, fd, n))
  {
    var before := c.negBytes + c.authBytes + c.reqBytes;
    var bs, rest := c.toServer.contents[..n], c.toServer.Drop(n).contents;
    assert c.toServer.contents == bs + rest;
    assert before + c.toOrigin + (bs + rest) == before + (c.toOrigin + bs) + rest;
  }

  lemma TakeInFromOriginFramed(c: Conn, bs: seq<byte>)
    requires Framed(c) && |bs| <= c.toClient.Space()
    ensures Framed(TakeInFromOrigin(c, bs))
  {
    assert c.replies + (c.fromOrigin + bs) == c.replies + c.fromOrigin + bs;
    assert c.sent + c.toClient.contents + bs == c.sent + (c.toClient.contents + bs);
  }

  /** A connection that is relaying, with what a callback has kept so far. */
  ghost predicate Relaying(c0: Conn, t0: Slots, id: nat, c: Conn, t: Slots) {
    Sound(c0, t0, id, c, t) && Late(c) && Replied(c) && c0.state == Some(Copy)
  }

  lemma CopyKeeps(c0: Conn, t0: Slots, id: nat, c: Conn, t: Slots, next: SocksState)
    requires Relaying(c0, t0, id, c, t) && (next == Copy || Terminal(next))
    requires next == Copy ==> Watched(c, t)
    ensures Keeps(c0, t0, id, Go(c, t, next))
  {
    if next == Copy {
      LandKeeps(c0, t0, id, c, t, next);
    } else {
      EndKeeps(c0, t0, id, c, t, next);
    }
  }

  lemma SetInterestRelays(c0: Conn, t0: Slots, id: nat, c: Conn, t: Slots, fd: int, i: Interest)
    requires Relaying(c0, t0, id, c, t) && (fd == c.clientFd || fd == c.originFd)
    ensures Relaying(c0, t0, id, c, SetInterest(t, fd, i).1)
  {
    if fd != -1 {
      SetInterestLinked(c, id, t, fd, i);
    }
  }

  lemma DrainToClientRelays(c: Conn, t: Slots, id: nat, n: nat)
    requires c.state == Some(Copy) && ConnOk(c) && Registered(c, id, t) && n <= |c.toClient.contents|
    ensures Relaying(c, t, id, DrainToClient(c, c.clientFd, n), t)
  {
    hide Spoken, AllSucceed, NegOver, AuthOver, ReqOver;
    DrainToClientFramed(c, n);
  }

  lemma DrainToServerRelays(c: Conn, t: Slots, id: nat, fd: int, n: nat)
    requires c.state == Some(Copy) && ConnOk(c) && Registered(c, id, t) && fd != c.clientFd && n <= |c.toServer.contents|
    ensures Relaying(c, t, id, DrainToServer(c, fd, n), t)
  {
    hide Spoken, AllSucceed, NegOver, AuthOver, ReqOver;
    DrainToServerFramed(c, fd, n);
  }

  lemma DrainRelays(c: Conn, t: Slots, key: Key, toClient: bool, n: nat)
    requires c.state == Some(Copy) && ConnOk(c) && Linked(c, key.id, t) && Dispatched(t, key)
    requires toClient <==> key.fd == c.clientFd
    requires n <= |ToDrain(c, toClient).contents|
    ensures Relaying(c, t, key.id, if toClient then DrainToClient(c, key.fd, n) else DrainToServer(c, key.fd, n), t)
  {
    hide Relaying, ConnOk, Registered;
    if toClient {
      DrainToClientRelays(c, t, key.id, n);
    } else {
      DrainToServerRelays(c, t, key.id, key.fd, n);
    }
  }

  /** The drained side has been waiting to write, so the other one is read; the tail leaves both watched as they should. */
  lemma CopySentWatched(c: Conn, t: Slots, id: nat, c1: Conn, key: Key, toClient: bool)
    requires Registered(c, id, t) && Watched(c, t) && c.state == Some(Copy) && c1.state == Some(Copy)
    requires key.fd == (if toClient then c.clientFd else c.originFd) && key.fd in t && t[key.fd].interest == OP_WRITE
    requires c1.clientFd == c.clientFd && c1.originFd == c.originFd && c1.clientEof == c.clientEof && c1.originEof == c.originEof
    requires if toClient then c1.toServer == c.toServer && c1.toOrigin == c.toOrigin else c1.toClient == c.toClient
    ensures var source := if toClient then c.originFd else c.clientFd;
            && SetInterest(t, source, OP_READ).1 == t
            && Watched(c1, if ToDrain(c1, toClient).contents == [] then (if toClient then t else SetInterest(t, key.fd, OP_READ).1)
                           else SetInterest(t, key.fd, OP_WRITE).1)
  {
    var source := if toClient then c.originFd else c.clientFd;
    if source in t {
      assert t[source := Slot(OP_READ, t[source].data)] == t;
    }
    assert t[key.fd := Slot(OP_WRITE, t[key.fd].data)] == t;
  }

  lemma CopySentKeeps(c0: Conn, t0: Slots, c: Conn, t: Slots, key: Key, toClient: bool)
    requires Relaying(c0, t0, key.id, c, t) && (key.fd == c.clientFd || key.fd == c.originFd)
    requires Registered(c, key.id, t)
    requires var t1 := if ToDrain(c, toClient).contents == [] then (if toClient then t else SetInterest(t, key.fd, OP_READ).1)
                       else SetInterest(t, key.fd, OP_WRITE).1;
             c.clientFd in t1 && (c.originFd == -1 || c.originFd in t1) && Watched(c, t1)
    ensures Keeps(c0, t0, key.id, CopySent(c, t, key, toClient))
  {
    hide Framed, Addresses, SameOthers, Grows, Keeps, Watched;
    SetInterestRelays(c0, t0, key.id, c, t, key.fd, OP_READ);
    SetInterestRelays(c0, t0, key.id, c, t, key.fd, OP_WRITE);
    if ToDrain(c, toClient).contents == [] {
      CopyKeeps(c0, t0, key.id, c, if !toClient then SetInterest(t, key.fd, OP_READ).1 else t,
                if c.clientEof || BothOver(c) then SocksDone else Copy);
    } else {
      CopyKeeps(c0, t0, key.id, c, SetInterest(t, key.fd, OP_WRITE).1, Copy);
    }
  }

  /** The fields of the drained connection that the watching depends on. */
  lemma DrainedFields(c: Conn, key: Key, toClient: bool, n: nat)
    requires n <= |ToDrain(c, toClient).contents|
    ensures var c1 := if toClient then DrainToClient(c, key.fd, n) else DrainToServer(c, key.fd, n);
            && c1.state == c.state && c1.clientFd == c.clientFd && c1.originFd == c.originFd
            && c1.clientEof == c.clientEof && c1.originEof == c.originEof
            && (if toClient then c1.toServer == c.toServer && (key.fd == c.clientFd ==> c1.toOrigin == c.toOrigin)
                else c1.toClient == c.toClient)
  {
  }

  lemma CopySendToKeeps(c: Conn, t: Slots, key: Key, k: Kernel, toClient: bool, source: int, sourceEof: bool)
    requires c.state == Some(Copy) && ConnOk(c) && Linked(c, key.id, t) && Dispatched(t, key)
    requires t[key.fd].interest == OP_WRITE
    requires key.fd == if toClient then c.clientFd else c.originFd
    requires toClient <==> key.fd == c.clientFd
    requires source == if toClient then c.originFd else c.clientFd
    ensures Keeps(c, t, key.id, CopySendTo(c, t, key, k, toClient, source, sourceEof))
  {
    hide Framed, Addresses, SameOthers, Grows, Keeps, RelayWatched;
    SelfSound(c, t, key.id);
    var available := |ToDrain(c, toClient).contents|;
    if available == 0 {
      SetInterestRelays(c, t, key.id, c, t, key.fd, OP_READ);
      IdleWatched(c, t, key, toClient);
      CopyKeeps(c, t, key.id, c, SetInterest(t, key.fd, OP_READ).1,
                if (toClient && c.clientEof) || BothOver(c) then SocksDone else Copy);
    } else if k.send.SendAgain? {
      CopyKeeps(c, t, key.id, c, t, Copy);
    } else if k.send.SendFails? || Taken(k.send.n, available) == 0 {
      CopyKeeps(c, t, key.id, c, t, SocksError);
    } else {
      var n := Taken(k.send.n, available);
      DrainRelays(c, t, key, toClient, n);
      DrainedFields(c, key, toClient, n);
      var c1 := if toClient then DrainToClient(c, key.fd, n) else DrainToServer(c, key.fd, n);
      CopySentWatched(c, t, key.id, c1, key, toClient);
      CopySentKeeps(c, t, c1, t, key, toClient);
    }
  }

  /** A side with nothing to write goes back to being read. */
  lemma IdleWatched(c: Conn, t: Slots, key: Key, toClient: bool)
    requires c.state == Some(Copy) && Linked(c, key.id, t) && Dispatched(t, key) && ToDrain(c, toClient).contents == []
    requires key.fd == if toClient then c.clientFd else c.originFd
    ensures var t1 := SetInterest(t, key.fd, OP_READ).1;
            c.clientFd in t1 && (c.originFd == -1 || c.originFd in t1) && Watched(c, t1)
  {
  }

  lemma CopySendKeeps(c: Conn, t: Slots, key: Key, k: Kernel)
    requires c.state == Some(Copy) && ConnOk(c) && Linked(c, key.id, t) && Dispatched(t, key)
    requires t[key.fd].interest == OP_WRITE
    ensures Keeps(c, t, key.id, CopySend(c, t, key, k))
  {
    hide Framed, Addresses, SameOthers, Grows, Keeps;
    if key.fd == c.clientFd {
      CopySendToKeeps(c, t, key, k, true, c.originFd, c.originEof);
    } else {
      CopySendToKeeps(c, t, key, k, false, c.clientFd, c.clientEof);
    }
  }

  /** A handler's result may be the finished result of a nested event, reached after some sound steps. */
  lemma NestedKeeps(c0: Conn, t0: Slots, id: nat, c: Conn, t: Slots, r: Turn)
    requires Relaying(c0, t0, id, c, t) && Keeps(c, t, id, Ok(r))
    ensures Keeps(c0, t0, id, Ok(Finish(r)))
  {
  }

  lemma PassOnKeeps(c0: Conn, t0: Slots, c: Conn, t: Slots, key: Key, k: Kernel, target: int, targetEof: bool)
    requires Relaying(c0, t0, key.id, c, t) && (target == c.clientFd || target == c.originFd)
    requires if targetEof then Watched(c, t) else target != -1 && Watched(c, SetInterest(t, target, OP_WRITE).1)
    ensures Keeps(c0, t0, key.id, PassOn(c, t, key, k, target, targetEof))
  {
    hide Framed, Addresses, SameOthers, Grows, Keeps, RelayWatched;
    if targetEof {
      CopyKeeps(c0, t0, key.id, c, t, Copy);
    } else {
      SetInterestRelays(c0, t0, key.id, c, t, target, OP_WRITE);
      var t1 := SetInterest(t, target, OP_WRITE).1;
      CopySendKeeps(c, t1, Key(target, key.id), k);
      NestedKeeps(c0, t0, key.id, c, t1, CopySend(c, t1, Key(target, key.id), k).value);
    }
  }

  /** The side that sends is being read, so the other one may be woken to write. */
  lemma FilledWatched(c: Conn, t: Slots, key: Key, fromClient: bool, bs: seq<byte>)
    requires c.state == Some(Copy) && Linked(c, key.id, t) && key.fd in t && t[key.fd].interest.read
    requires key.fd == (if fromClient then c.clientFd else c.originFd) && |bs| <= ToFill(c, fromClient).Space()
    ensures var (target, over) := if fromClient then (c.originFd, c.originEof) else (c.clientFd, c.clientEof);
            var t1 := if over then t else SetInterest(t, target, OP_WRITE).1;
            over || target != -1 ==>
              c.clientFd in t1 && (c.originFd == -1 || c.originFd in t1) && Watched(Fill(c, fromClient, bs), t1)
  {
  }

  lemma TakeInRelays(c: Conn, t: Slots, id: nat, bs: seq<byte>)
    requires c.state == Some(Copy) && ConnOk(c) && Registered(c, id, t) && |bs| <= c.toServer.Space()
    ensures Relaying(c, t, id, TakeIn(c, bs), t)
  {
    hide Spoken, AllSucceed, NegOver, AuthOver, ReqOver;
    TakeInFramed(c, bs);
  }

  lemma TakeInFromOriginRelays(c: Conn, t: Slots, id: nat, bs: seq<byte>)
    requires c.state == Some(Copy) && ConnOk(c) && Registered(c, id, t) && |bs| <= c.toClient.Space()
    ensures Relaying(c, t, id, TakeInFromOrigin(c, bs), t)
  {
    hide Spoken, AllSucceed, NegOver, AuthOver, ReqOver;
    TakeInFromOriginFramed(c, bs);
  }

  lemma FillRelays(c: Conn, t: Slots, id: nat, fromClient: bool, bs: seq<byte>)
    requires c.state == Some(Copy) && ConnOk(c) && Registered(c, id, t) && |bs| <= ToFill(c, fromClient).Space()
    ensures Relaying(c, t, id, Fill(c, fromClient, bs), t)
  {
    hide Relaying, ConnOk, Registered;
    if fromClient {
      TakeInRelays(c, t, id, bs);
    } else {
      TakeInFromOriginRelays(c, t, id, bs);
    }
  }

  lemma EofRelays(c: Conn, t: Slots, id: nat, fromClient: bool)
    requires c.state == Some(Copy) && ConnOk(c) && Registered(c, id, t)
    ensures Relaying(c, t, id, AtEof(c, fromClient), t)
  {
    hide Spoken, AllSucceed, NegOver, AuthOver, ReqOver, TargetOf;
    var c1 := AtEof(c, fromClient);
    assert Late(c1) by { hide Addresses, Framed, Replied; }
    assert Replied(c1) by { hide Addresses, Framed, Late; }
    assert Addresses(c1) by { hide Framed, Stage; }
    assert Framed(c1) by { hide Addresses, Stage, Requested; }
    hide Addresses, Framed, Stage, Late, Replied;
  }

  /** Data for a peer that does not exist. */
  ghost predicate Nowhere(c: Conn, k: Kernel, fromClient: bool, target: int, targetEof: bool) {
    target == -1 && !targetEof && ToFill(c, fromClient).Space() > 0 && k.recv.Data? && k.recv.bytes != []
  }

  lemma CopyReadyFromKeeps(c: Conn, t: Slots, key: Key, k: Kernel, fromClient: bool, target: int, targetEof: bool)
    requires c.state == Some(Copy) && ConnOk(c) && Linked(c, key.id, t) && Dispatched(t, key) && t[key.fd].interest.read
    requires key.fd == if fromClient then c.clientFd else c.originFd
    requires target == if fromClient then c.originFd else c.clientFd
    requires targetEof == if fromClient then c.originEof else c.clientEof
    requires !Nowhere(c, k, fromClient, target, targetEof)
    ensures Keeps(c, t, key.id, CopyReadyFrom(c, t, key, k, fromClient, target, targetEof))
  {
    hide Framed, Addresses, SameOthers, Grows, Keeps, RelayWatched;
    SelfSound(c, t, key.id);
    var space := ToFill(c, fromClient).Space();
    assert Relaying(c, t, key.id, c, t);
    if space == 0 || k.recv.RecvAgain? {
      CopyKeeps(c, t, key.id, c, t, Copy);
    } else if k.recv.RecvFails? {
      CopyKeeps(c, t, key.id, c, t, SocksError);
    } else if k.recv.bytes == [] {
      EofRelays(c, t, key.id, fromClient);
      EofWatched(c, t, fromClient);
      var c1 := AtEof(c, fromClient);
      CopyKeeps(c, t, key.id, c1, t, if BothOver(c1) then SocksDone else Copy);
    } else {
      var bs := Delivered(k.recv.bytes, space);
      FillRelays(c, t, key.id, fromClient, bs);
      FilledWatched(c, t, key, fromClient, bs);
      var c1 := Fill(c, fromClient, bs);
      assert target == c1.clientFd || target == c1.originFd;
      PassOnKeeps(c, t, c1, t, key, k, target, targetEof);
      assert CopyReadyFrom(c, t, key, k, fromClient, target, targetEof) == PassOn(c1, t, key, k, target, targetEof);
    }
  }

  lemma EofWatched(c: Conn, t: Slots, fromClient: bool)
    requires c.state == Some(Copy) && c.clientFd in t && (c.originFd == -1 || c.originFd in t) && Watched(c, t)
    ensures Watched(AtEof(c, fromClient), t)
  {
  }

  /** COPY entered after an error reply, and the client sends on. */
  ghost predicate RelayToNowhere(c: Conn, key: Key, k: Kernel) {
    c.state == Some(Copy) && key.fd == c.clientFd && Nowhere(c, k, true, c.originFd, c.originEof)
  }

  lemma CopyReadyKeeps(c: Conn, t: Slots, key: Key, k: Kernel)
    requires c.state == Some(Copy) && ConnOk(c) && Linked(c, key.id, t) && Dispatched(t, key)
    requires t[key.fd].interest.read && !RelayToNowhere(c, key, k)
    ensures Keeps(c, t, key.id, CopyReady(c, t, key, k))
  {
    hide Framed, Addresses, SameOthers, Grows, Keeps;
    if key.fd == c.clientFd {
      CopyReadyFromKeeps(c, t, key, k, true, c.originFd, c.originEof);
    } else {
      CopyReadyFromKeeps(c, t, key, k, false, c.clientFd, c.clientEof);
    }
  }

  lemma CopyReadyCrashes(c: Conn, t: Slots, key: Key, k: Kernel)
    requires RelayToNowhere(c, key, k) && OnlyValidFds(t)
    ensures CopyReady(c, t, key, k) == Crashed(WildAccess)
  {
    var c1 := TakeIn(c, Delivered(k.recv.bytes, c.toServer.Space()));
    assert CopyReady(c, t, key, k) == PassOn(c1, t, key, k, -1, false);
  }

  // ---------------------------------------------------------------- any event of one connection

  ghost predicate Live(c: Conn, id: nat, t: Slots) {
    ConnOk(c) && Linked(c, id, t) && (c.state.Some? ==> !Terminal(c.state.value))
  }

  /** Exactly when a read event brings the process down. */
  ghost predicate ReadCrashes(c: Conn, key: Key, k: Kernel) {
    c.state == Some(ReqConnect) || c.state == Some(ReqWrite) || RelayToNowhere(c, key, k)
  }

  lemma FirstOk(c: Conn, id: nat, t: Slots)
    requires Live(c, id, t)
    ensures Live(First(c), id, t) && First(c).state.Some?
    ensures c.state.Some? ==> First(c) == c
    ensures c.state == None ==> First(c).state == Some(NegotiationRead)
    ensures Grows(c, First(c)) && First(c).clientFd == c.clientFd
  {
  }

  lemma FinishKeeps(c0: Conn, c: Conn, t: Slots, id: nat, r: Turn)
    requires Keeps(c, t, id, Ok(r)) && Grows(c0, c) && c.clientFd == c0.clientFd
    requires c0 == c || c.state == Some(NegotiationRead)
    ensures Keeps(c0, t, id, Ok(Finish(r))) && Finish(r).c.state == Some(r.next)
  {
  }

  lemma ReadHandlerKeeps(c: Conn, t: Slots, key: Key, k: Kernel)
    requires Live(c, key.id, t) && Dispatched(t, key) && t[key.fd].interest.read && FreshFds(k.attempts, t)
    requires c.state.Some? && !ReadCrashes(c, key, k)
    ensures SM.Read in Handlers(c.state.value) && Keeps(c, t, key.id, ReadHandler(c, t, key, k))
  {
    match c.state.value {
      case NegotiationRead => NegotiationReadyKeeps(c, t, key, k);
      case AuthRead => AuthenticationReadyKeeps(c, t, key, k);
      case ReqRead => RequestReadyKeeps(c, t, key, k);
      case Copy => CopyReadyKeeps(c, t, key, k);
      case _ => assert false;
    }
  }

  lemma OnReadKeeps(c: Conn, t: Slots, key: Key, k: Kernel)
    requires Live(c, key.id, t) && Dispatched(t, key) && t[key.fd].interest.read && FreshFds(k.attempts, t)
    requires !ReadCrashes(c, key, k)
    ensures Keeps(c, t, key.id, OnRead(c, t, key, k))
    ensures OnRead(c, t, key, k).value.c.state == Some(OnRead(c, t, key, k).value.next)
  {
    hide Framed, Addresses, Grows, SameOthers, ReadHandler;
    FirstOk(c, key.id, t);
    ReadHandlerKeeps(First(c), t, key, k);
    FinishKeeps(c, First(c), t, key.id, ReadHandler(First(c), t, key, k).value);
  }

  lemma OnReadCrashes(c: Conn, t: Slots, key: Key, k: Kernel)
    requires Live(c, key.id, t) && ReadCrashes(c, key, k)
    ensures OnRead(c, t, key, k).Crashed?
  {
    if c.state == Some(Copy) {
      CopyReadyCrashes(c, t, key, k);
    }
  }

  lemma WriteHandlerKeeps(c: Conn, t: Slots, key: Key, k: Kernel)
    requires Live(c, key.id, t) && Dispatched(t, key) && t[key.fd].interest.write
    requires FreshFds(k.attempts, t - {c.originFd}) && !LogsNobody(c, k)
    ensures c.state.Some? && SM.Write in Handlers(c.state.value)
    ensures Keeps(c, t, key.id, WriteHandler(c, t, key, k))
  {
    match c.state {
      case Some(NegotiationWrite) => NegotiationSendKeeps(c, t, key, k);
      case Some(AuthWrite) => AuthenticationSendKeeps(c, t, key, k);
      case Some(ReqConnect) => RequestConnectKeeps(c, t, key, k);
      case Some(ReqWrite) => RequestSendKeeps(c, t, key, k);
      case Some(Copy) => CopySendKeeps(c, t, key, k);
      case _ => assert false;
    }
  }

  lemma OnWriteKeeps(c: Conn, t: Slots, key: Key, k: Kernel)
    requires Live(c, key.id, t) && Dispatched(t, key) && t[key.fd].interest.write
    requires FreshFds(k.attempts, t - {c.originFd}) && !LogsNobody(c, k)
    ensures Keeps(c, t, key.id, OnWrite(c, t, key, k))
    ensures OnWrite(c, t, key, k).value.c.state == Some(OnWrite(c, t, key, k).value.next)
  {
    hide Framed, Addresses, Grows, SameOthers, WriteHandler;
    WriteHandlerKeeps(c, t, key, k);
    FinishKeeps(c, c, t, key.id, WriteHandler(c, t, key, k).value);
  }

  lemma OnWriteCrashes(c: Conn, t: Slots, key: Key, k: Kernel)
    requires Live(c, key.id, t) && Dispatched(t, key) && LogsNobody(c, k)
    ensures OnWrite(c, t, key, k) == Crashed(WildAccess)
  {
    hide RequestSend, ConnOk;
    RequestSendCrashes(c, t, key, k);
  }

  lemma OnBlockKeeps(c: Conn, t: Slots, key: Key, k: Kernel)
    requires Live(c, key.id, t) && Dispatched(t, key) && c.state == Some(ReqResolve)
    requires FreshFds(k.attempts, t)
    ensures Keeps(c, t, key.id, OnBlock(c, t, key, k))
    ensures OnBlock(c, t, key, k).value.c.state == Some(OnBlock(c, t, key, k).value.next)
  {
    hide Framed, Addresses, Grows, SameOthers;
    RequestResolveKeeps(c, t, key, k);
    FinishKeeps(c, c, t, key.id, RequestResolve(c, t, key, k).value);
  }

  // ---------------------------------------------------------------- end to end

  /** What follows the handshake in a client's stream, a function of the stream alone. */
  function AfterHandshake(stream: seq<byte>): seq<byte> {
    R.Parse(ReqStart(), A.Parse(AuthStart(), N.Parse(NegStart(), stream).1).1).1
  }

  /**
   * However the stream was cut into `recv` chunks: once the request is over, what went to the origin and
   * what waits in the buffer are together exactly what follows the request's last port byte.
   */
  lemma OriginSeesTheTail(c: Conn)
    requires Framed(c) && HandshakeOver(c)
    ensures c.toOrigin + c.toServer.contents == AfterHandshake(c.received)
    ensures c.toOrigin <= AfterHandshake(c.received)
  {
    var tail := c.toOrigin + c.toServer.contents;
    assert c.received == c.negBytes + (c.authBytes + (c.reqBytes + tail));
    DoneStops(N.Step, N.Done, NegStart(), c.negBytes, N.Parse(NegStart(), c.negBytes).0, c.authBytes + (c.reqBytes + tail));
    DoneStops(A.Step, A.Done, AuthStart(), c.authBytes, A.Parse(AuthStart(), c.authBytes).0, c.reqBytes + tail);
    DoneStops(R.Step, R.Done, ReqStart(), c.reqBytes, R.Parse(ReqStart(), c.reqBytes).0, tail);
  }
}
