/** What an event does to a relay, from the end-of-stream flags, the unread bytes and the kernel's answers alone. */
module RelayEvents {
  import opened Bytes
  import opened Results
  import opened Buffers
  import opened SelectorTable
  import opened Connection
  import opened ConnectionInvariant
  import opened RelayInvariant

  /** How many of `n` bytes that wait `send` takes. */
  function Accepted(send: Send, n: nat): nat {
    if !send.Takes? then 0 else if send.n <= n then send.n else n
  }

  /** `send` is called, and fails or takes nothing. */
  predicate Breaks(send: Send, waiting: seq<byte>) { waiting != [] && (send.SendFails? || send == Takes(0)) }

  /** A connection in COPY whose event `key` stands for. */
  ghost predicate Relays(c: Conn, t: Slots, key: Key) {
    c.state == Some(Copy) && Live(c, key.id, t) && Dispatched(t, key)
  }

  lemma RelaySides(c: Conn, t: Slots, key: Key)
    requires Relays(c, t, key)
    ensures c.clientFd in t && t[c.clientFd].data == Client(key.id) && ValidFd(c.clientFd)
    ensures c.originFd != -1 ==>
              c.originFd in t && t[c.originFd].data == Client(key.id) && ValidFd(c.originFd) && c.originFd != c.clientFd
    ensures key.fd == c.clientFd || (key.fd == c.originFd && key.fd != -1)
    ensures c.originFd == -1 ==> t[c.clientFd].interest == OP_READ
    ensures c.originFd != -1 ==> RelayWatched(c, t[c.clientFd].interest, t[c.originFd].interest)
  {
    hide ConnOk;
  }

  /** What is unread on the way to a side, and what has arrived there. */
  function Unread(c: Conn, toClient: bool): seq<byte> { if toClient then c.toClient.contents else c.toServer.contents }

  function Arrived(c: Conn, toClient: bool): seq<byte> { if toClient then c.sent else c.toOrigin }

  /** `n` of the bytes that wait for a side have gone there; nothing else has changed but the state. */
  predicate Forwarded(c: Conn, waiting: seq<byte>, n: nat, toClient: bool, c': Conn)
    requires n <= |waiting|
  {
    && Unread(c', toClient) == waiting[n..] && Arrived(c', toClient) == Arrived(c, toClient) + waiting[..n]
    && Unread(c', !toClient) == Unread(c, !toClient) && Arrived(c', !toClient) == Arrived(c, !toClient)
    && c'.clientFd == c.clientFd && c'.originFd == c.originFd
    && c'.clientEof == c.clientEof && c'.originEof == c.originEof
  }

  /** The side that a relay wakes or keeps waiting: back to reading only when the origin has been sent all there was. */
  function Rewatched(t: Slots, side: int, id: nat, idle: bool): Slots {
    t[side := Slot(if idle then OP_READ else OP_WRITE, Client(id))]
  }

  /** Where one attempt to send leaves a relay: `r` is the turn it ends with. */
  ghost predicate SentOnce(c: Conn, t: Slots, key: Key, k: Kernel, toClient: bool, r: Turn) {
    var waiting := Unread(c, toClient);
    var n := Accepted(k.send, |waiting|);
    && !r.spawned && r.c.state == c.state
    && Forwarded(c, waiting, n, toClient, r.c)
    && r.next in {Copy, SocksDone, SocksError}
    && (r.next == SocksError <==> Breaks(k.send, waiting))
    && (r.next == SocksDone <==>
          && n == |waiting| && c.clientEof
          && (toClient || waiting != [] || (c.originEof && c.toClient.contents == [])))
    && r.t == Rewatched(t, key.fd, key.id, n == |waiting| && (waiting == [] || !toClient))
  }

  /** The side is watched for writing, and the other one, if there is one, for reading. */
  ghost predicate Poised(c: Conn, t: Slots, key: Key, toClient: bool) {
    && (toClient <==> key.fd == c.clientFd)
    && ValidFd(key.fd) && key.fd in t && t[key.fd] == Slot(OP_WRITE, Client(key.id))
    && var source := if toClient then c.originFd else c.clientFd;
       source in t ==> t[source].interest == OP_READ
  }

  lemma NothingToSend(c: Conn, t: Slots, key: Key, k: Kernel, toClient: bool, source: int, sourceEof: bool)
    requires Poised(c, t, key, toClient) && Unread(c, toClient) == []
    ensures var r := CopySendTo(c, t, key, k, toClient, source, sourceEof);
            r.Ok? && SentOnce(c, t, key, k, toClient, r.value)
  {
  }

  lemma NothingSent(c: Conn, t: Slots, key: Key, k: Kernel, toClient: bool, source: int, sourceEof: bool)
    requires Poised(c, t, key, toClient) && Unread(c, toClient) != [] && Accepted(k.send, |Unread(c, toClient)|) == 0
    ensures var r := CopySendTo(c, t, key, k, toClient, source, sourceEof);
            r.Ok? && SentOnce(c, t, key, k, toClient, r.value)
  {
    hide CopySent, SetInterest;
    var waiting := Unread(c, toClient);
    assert waiting[0..] == waiting && Arrived(c, toClient) + waiting[..0] == Arrived(c, toClient);
    assert t[key.fd := Slot(OP_WRITE, Client(key.id))] == t;
  }

  lemma SomethingSent(c: Conn, t: Slots, key: Key, k: Kernel, toClient: bool, source: int, sourceEof: bool)
    requires Poised(c, t, key, toClient) && Accepted(k.send, |Unread(c, toClient)|) > 0
    requires source == if toClient then c.originFd else c.clientFd
    ensures var r := CopySendTo(c, t, key, k, toClient, source, sourceEof);
            r.Ok? && SentOnce(c, t, key, k, toClient, r.value)
  {
    var waiting := Unread(c, toClient);
    var n := Accepted(k.send, |waiting|);
    assert waiting[|waiting|..] == [];
    if source in t {
      assert t[source := Slot(OP_READ, t[source].data)] == t;
    }
    assert t[key.fd := Slot(OP_WRITE, Client(key.id))] == t;
    var c1 := if toClient then DrainToClient(c, key.fd, n) else DrainToServer(c, key.fd, n);
    assert Forwarded(c, waiting, n, toClient, c1);
    assert CopySendTo(c, t, key, k, toClient, source, sourceEof) == CopySent(c1, t, key, toClient);
  }

  lemma Sends(c: Conn, t: Slots, key: Key, k: Kernel, toClient: bool)
    requires Poised(c, t, key, toClient) && key.fd == if toClient then c.clientFd else c.originFd
    ensures var r := CopySend(c, t, key, k); r.Ok? && SentOnce(c, t, key, k, toClient, r.value)
  {
    hide SentOnce, CopySendTo;
    var (source, over) := if toClient then (c.originFd, c.originEof) else (c.clientFd, c.clientEof);
    assert CopySend(c, t, key, k) == CopySendTo(c, t, key, k, toClient, source, over);
    if Unread(c, toClient) == [] {
      NothingToSend(c, t, key, k, toClient, source, over);
    } else if Accepted(k.send, |Unread(c, toClient)|) == 0 {
      NothingSent(c, t, key, k, toClient, source, over);
    } else {
      SomethingSent(c, t, key, k, toClient, source, over);
    }
  }

  lemma IsPoised(c: Conn, t: Slots, key: Key)
    requires Relays(c, t, key) && t[key.fd].interest == OP_WRITE
    ensures Poised(c, t, key, key.fd == c.clientFd) && (key.fd == c.clientFd || key.fd == c.originFd)
  {
    RelaySides(c, t, key);
    hide Live;
  }

  // ---------------------------------------------------------------- the write event

  lemma WriteIsASend(c: Conn, t: Slots, key: Key, k: Kernel)
    requires c.state == Some(Copy) && CopySend(c, t, key, k).Ok?
    ensures OnWrite(c, t, key, k) == Ok(Finish(CopySend(c, t, key, k).value))
  {
    hide CopySend;
  }

  /** A turn of the relay that has landed in its state. */
  lemma Lands(r: Turn)
    requires r.c.state == Some(Copy) && r.next in {Copy, SocksDone, SocksError}
    ensures Finish(r) == r.(c := r.c.(state := Some(r.next)))
  {
  }

  /** The turn of an event in COPY, once the state has changed. */
  ghost predicate Sent(c: Conn, t: Slots, key: Key, k: Kernel, toClient: bool, r: Turn) {
    r.c.state == Some(r.next) && SentOnce(c, t, key, k, toClient, r.(c := r.c.(state := Some(Copy))))
  }

  lemma PoisedSends(c: Conn, t: Slots, key: Key, k: Kernel, toClient: bool) returns (r: Turn)
    requires c.state == Some(Copy) && Poised(c, t, key, toClient) && key.fd == if toClient then c.clientFd else c.originFd
    ensures OnWrite(c, t, key, k) == Ok(r) && Sent(c, t, key, k, toClient, r)
  {
    hide CopySend, OnWrite, SentOnce, Poised;
    Sends(c, t, key, k, toClient);
    var turn := CopySend(c, t, key, k).value;
    WriteIsASend(c, t, key, k);
    StaysInCopy(c, t, key, k, toClient, turn);
    Lands(turn);
    r := Finish(turn);
    assert r.(c := r.c.(state := Some(Copy))) == turn;
  }

  lemma StaysInCopy(c: Conn, t: Slots, key: Key, k: Kernel, toClient: bool, r: Turn)
    requires c.state == Some(Copy) && SentOnce(c, t, key, k, toClient, r)
    ensures r.c.state == Some(Copy) && r.next in {Copy, SocksDone, SocksError}
  {
  }

  /**
   * A write event in COPY, for the side whose descriptor it is: the first bytes that wait for it leave, as many as `send`
   * takes. It ends in an error iff `send` fails or takes nothing; the relay is over iff nothing is left and the client has
   * said its end of stream, where an event with nothing to send to the origin needs the origin's too.
   */
  lemma RelayWrites(c: Conn, t: Slots, key: Key, k: Kernel) returns (r: Turn)
    requires Relays(c, t, key) && t[key.fd].interest.write
    ensures OnWrite(c, t, key, k) == Ok(r) && !r.spawned && r.c.state == Some(r.next)
    ensures var toClient := key.fd == c.clientFd;
            var waiting := Unread(c, toClient);
            var n := Accepted(k.send, |waiting|);
            && Forwarded(c, waiting, n, toClient, r.c)
            && r.next in {Copy, SocksDone, SocksError}
            && (r.next == SocksError <==> Breaks(k.send, waiting))
            && (r.next == SocksDone <==>
                  && n == |waiting| && c.clientEof
                  && (toClient || waiting != [] || (c.originEof && c.toClient.contents == [])))
            && r.t == t[key.fd := Slot(if n == |waiting| && (waiting == [] || !toClient) then OP_READ else OP_WRITE, Client(key.id))]
  {
    IsPoised(c, t, key);
    hide OnWrite, Live, Poised, Relays, Forwarded;
    var toClient := key.fd == c.clientFd;
    r := PoisedSends(c, t, key, k, toClient);
    SameForwardedAfter(c, Unread(c, toClient), Accepted(k.send, |Unread(c, toClient)|), toClient, r.c);
  }

  lemma SameForwardedAfter(c: Conn, waiting: seq<byte>, n: nat, toClient: bool, c': Conn)
    requires n <= |waiting| && Forwarded(c, waiting, n, toClient, c'.(state := Some(Copy)))
    ensures Forwarded(c, waiting, n, toClient, c')
  {
  }

  // ---------------------------------------------------------------- the read event

  /** Bytes that arrive from a side wait for the other one. */
  ghost predicate Took(c: Conn, fromClient: bool, bs: seq<byte>, c': Conn) {
    && Unread(c', !fromClient) == Unread(c, !fromClient) + bs && Unread(c', fromClient) == Unread(c, fromClient)
    && Arrived(c', true) == Arrived(c, true) && Arrived(c', false) == Arrived(c, false)
    && c'.clientFd == c.clientFd && c'.originFd == c.originFd
    && c'.clientEof == c.clientEof && c'.originEof == c.originEof && c'.state == c.state
  }

  lemma FillTakes(c: Conn, fromClient: bool, bs: seq<byte>)
    requires |bs| <= ToFill(c, fromClient).Space()
    ensures Took(c, fromClient, bs, Fill(c, fromClient, bs))
  {
  }

  /** What arrives when there is room, and whether it is for a side that is still open. */
  function Arriving(c: Conn, k: Kernel, fromClient: bool): seq<byte> {
    if k.recv.Data? then Delivered(k.recv.bytes, ToFill(c, fromClient).Space()) else []
  }

  predicate SideIsOver(c: Conn, fromClient: bool) { if fromClient then c.originEof else c.clientEof }

  /** Data is taken in, and no more, for a side that has been shut down. */
  lemma TakesForNobody(c: Conn, t: Slots, key: Key, k: Kernel, fromClient: bool)
    requires c.state == Some(Copy) && key.fd == (if fromClient then c.clientFd else c.originFd)
    requires fromClient || c.originFd != c.clientFd
    requires Arriving(c, k, fromClient) != [] && SideIsOver(c, fromClient)
    ensures OnRead(c, t, key, k) == Ok(Turn(Fill(c, fromClient, Arriving(c, k, fromClient)), t, Copy, false))
  {
  }

  /** The read event hands the data over to the other side's write event. */
  lemma PassesOn(c: Conn, t: Slots, key: Key, k: Kernel, fromClient: bool, target: int, r: Turn)
    requires c.state == Some(Copy) && key.fd == (if fromClient then c.clientFd else c.originFd)
    requires fromClient || c.originFd != c.clientFd
    requires target == if fromClient then c.originFd else c.clientFd
    requires Arriving(c, k, fromClient) != [] && !SideIsOver(c, fromClient)
    requires ValidFd(target) && target in t && t[target].data == Client(key.id)
    requires OnWrite(Fill(c, fromClient, Arriving(c, k, fromClient)), Rewatched(t, target, key.id, false), Key(target, key.id), k) == Ok(r)
    requires r.c.state == Some(r.next)
    ensures OnRead(c, t, key, k) == Ok(r)
  {
    hide OnWrite;
    assert Finish(r) == r;
  }

  lemma FilledIsPoised(c: Conn, t: Slots, key: Key, k: Kernel, fromClient: bool, target: int)
    requires Relays(c, t, key) && t[key.fd].interest.read && key.fd == (if fromClient then c.clientFd else c.originFd)
    requires target == (if fromClient then c.originFd else c.clientFd) && target != -1 && Arriving(c, k, fromClient) != []
    ensures ValidFd(target) && target in t && t[target].data == Client(key.id)
    ensures Poised(Fill(c, fromClient, Arriving(c, k, fromClient)), Rewatched(t, target, key.id, false), Key(target, key.id), !fromClient)
  {
    RelaySides(c, t, key);
    hide Live;
  }

  /**
   * Data that arrives for a side that is open joins what waits for it, and its write event runs at once: as much of it all
   * leaves, in order, as `send` takes. If any is left, that side is watched for writing.
   */
  lemma DataIsPassedOn(c: Conn, t: Slots, key: Key, k: Kernel) returns (r: Turn)
    requires Relays(c, t, key) && t[key.fd].interest.read
    requires var fromClient := key.fd == c.clientFd;
             Arriving(c, k, fromClient) != [] && !SideIsOver(c, fromClient) && (fromClient ==> c.originFd != -1)
    ensures OnRead(c, t, key, k) == Ok(r) && !r.spawned && r.c.state == Some(r.next)
    ensures var fromClient := key.fd == c.clientFd;
            var target := if fromClient then c.originFd else c.clientFd;
            var waiting := Unread(c, !fromClient) + Arriving(c, k, fromClient);
            var n := Accepted(k.send, |waiting|);
            && Forwarded(c, waiting, n, !fromClient, r.c)
            && r.next in {Copy, SocksDone, SocksError}
            && (r.next == SocksError <==> Breaks(k.send, waiting))
            && (r.next == SocksDone <==> n == |waiting| && c.clientEof)
            && r.t == t[target := Slot(if n == |waiting| && fromClient then OP_READ else OP_WRITE, Client(key.id))]
  {
    var fromClient := key.fd == c.clientFd;
    var target := if fromClient then c.originFd else c.clientFd;
    RelaySides(c, t, key);
    FilledIsPoised(c, t, key, k, fromClient, target);
    FillTakes(c, fromClient, Arriving(c, k, fromClient));
    hide OnWrite, OnRead, Live, Poised, RelayWatched, Fill, Relays, Sent;
    var c1 := Fill(c, fromClient, Arriving(c, k, fromClient));
    var t1 := Rewatched(t, target, key.id, false);
    r := PoisedSends(c1, t1, Key(target, key.id), k, !fromClient);
    TookAndSent(c, t, k, fromClient, Arriving(c, k, fromClient), c1, Key(target, key.id), r);
    PassesOn(c, t, key, k, fromClient, target, r);
  }

  lemma TookAndSent(c: Conn, t: Slots, k: Kernel, fromClient: bool, bs: seq<byte>, c1: Conn, side: Key, r: Turn)
    requires Took(c, fromClient, bs, c1) && bs != []
    requires Sent(c1, Rewatched(t, side.fd, side.id, false), side, k, !fromClient, r)
    ensures var waiting := Unread(c, !fromClient) + bs;
            var n := Accepted(k.send, |waiting|);
            && !r.spawned && r.c.state == Some(r.next) && Forwarded(c, waiting, n, !fromClient, r.c)
            && r.next in {Copy, SocksDone, SocksError}
            && (r.next == SocksError <==> Breaks(k.send, waiting))
            && (r.next == SocksDone <==> n == |waiting| && c.clientEof)
            && r.t == t[side.fd := Slot(if n == |waiting| && fromClient then OP_READ else OP_WRITE, Client(side.id))]
  {
    var waiting := Unread(c, !fromClient) + bs;
    assert Unread(c1, !fromClient) == waiting && waiting != [];
    SameForwarded(c, c1, waiting, Accepted(k.send, |waiting|), !fromClient, r.c);
  }

  lemma SameForwarded(c: Conn, c1: Conn, waiting: seq<byte>, n: nat, toClient: bool, c': Conn)
    requires n <= |waiting| && Forwarded(c1, waiting, n, toClient, c'.(state := Some(Copy)))
    requires Unread(c1, !toClient) == Unread(c, !toClient) && Arrived(c1, true) == Arrived(c, true)
    requires Arrived(c1, false) == Arrived(c, false) && c1.clientFd == c.clientFd && c1.originFd == c.originFd
    requires c1.clientEof == c.clientEof && c1.originEof == c.originEof
    ensures Forwarded(c, waiting, n, toClient, c')
  {
  }

  /** Every other read event in COPY: no room or no data yet, a failure, an end of stream, or data for a side that is over. */
  lemma RelayReads(c: Conn, t: Slots, key: Key, k: Kernel)
    requires Relays(c, t, key) && t[key.fd].interest.read
    ensures var fromClient := key.fd == c.clientFd;
            var room := ToFill(c, fromClient).Space();
            var r := OnRead(c, t, key, k);
            && (room == 0 || k.recv.RecvAgain? ==> r == Ok(Turn(c, t, Copy, false)))
            && (room > 0 && k.recv.RecvFails? ==> r == Ok(Turn(c.(state := Some(SocksError)), t, SocksError, false)))
            && (room > 0 && k.recv == Data([]) ==>
                  var next := if c.toClient.contents == [] && c.toServer.contents == [] then SocksDone else Copy;
                  r == Ok(Turn(c.(state := Some(next),
                                  clientEof := fromClient || c.clientEof || c.toClient.contents == [],
                                  originEof := !fromClient || c.originEof || c.toServer.contents == []), t, next, false)))
            && (Arriving(c, k, fromClient) != [] && SideIsOver(c, fromClient) ==>
                  r.Ok? && r.value.next == Copy && r.value.t == t && !r.value.spawned
                  && Took(c, fromClient, Arriving(c, k, fromClient), r.value.c))
  {
    RelaySides(c, t, key);
    hide Live, RelayWatched, OnRead, Fill, Took, Relays;
    var fromClient := key.fd == c.clientFd;
    if Arriving(c, k, fromClient) != [] && SideIsOver(c, fromClient) {
      TakesForNobody(c, t, key, k, fromClient);
      FillTakes(c, fromClient, Arriving(c, k, fromClient));
    } else if ToFill(c, fromClient).Space() == 0 || !k.recv.Data? {
      WaitsOrFails(c, t, key, k, fromClient);
    } else if k.recv == Data([]) {
      HearsTheEnd(c, t, key, k, fromClient);
    }
  }

  lemma WaitsOrFails(c: Conn, t: Slots, key: Key, k: Kernel, fromClient: bool)
    requires c.state == Some(Copy) && key.fd == (if fromClient then c.clientFd else c.originFd)
    requires fromClient || c.originFd != c.clientFd
    requires ToFill(c, fromClient).Space() == 0 || !k.recv.Data?
    ensures OnRead(c, t, key, k) == if ToFill(c, fromClient).Space() == 0 || k.recv.RecvAgain? then Ok(Turn(c, t, Copy, false))
                                    else Ok(Turn(c.(state := Some(SocksError)), t, SocksError, false))
  {
  }

  lemma HearsTheEnd(c: Conn, t: Slots, key: Key, k: Kernel, fromClient: bool)
    requires c.state == Some(Copy) && key.fd == (if fromClient then c.clientFd else c.originFd)
    requires fromClient || c.originFd != c.clientFd
    requires ToFill(c, fromClient).Space() > 0 && k.recv == Data([])
    ensures var next := if c.toClient.contents == [] && c.toServer.contents == [] then SocksDone else Copy;
            OnRead(c, t, key, k) == Ok(Turn(c.(state := Some(next),
                                               clientEof := fromClient || c.clientEof || c.toClient.contents == [],
                                               originEof := !fromClient || c.originEof || c.toServer.contents == []), t, next, false))
  {
  }

  // ---------------------------------------------------------------- what follows

  /** While no end of stream has been said and no call fails, no event takes a connection out of COPY. */
  lemma RelayGoesOn(c: Conn, t: Slots, key: Key, k: Kernel)
    requires Relays(c, t, key) && c.originFd != -1 && !c.clientEof && !c.originEof
    requires !k.recv.RecvFails? && k.recv != Data([]) && !k.send.SendFails? && k.send != Takes(0)
    ensures t[key.fd].interest.read ==> var r := OnRead(c, t, key, k); r.Ok? && r.value.next == Copy
    ensures t[key.fd].interest.write ==> var r := OnWrite(c, t, key, k); r.Ok? && r.value.next == Copy
    ensures t[key.fd].interest in {OP_READ, OP_WRITE}
  {
    RelaySides(c, t, key);
    hide Live, OnRead, OnWrite;
    var fromClient := key.fd == c.clientFd;
    if t[key.fd].interest.read {
      RelayReads(c, t, key, k);
      if ToFill(c, fromClient).Space() > 0 && k.recv.Data? {
        var _ := DataIsPassedOn(c, t, key, k);
      }
    } else {
      var _ := RelayWrites(c, t, key, k);
    }
  }

  /** A client that has said its end of stream is answered no more: the relay ends at once, or when its last bytes have left. */
  lemma HalfCloseEndsTheRelay(c: Conn, t: Slots, key: Key, k: Kernel)
    requires Relays(c, t, key) && key.fd == c.clientFd && t[key.fd].interest.read && !c.clientEof
    requires k.recv == Data([]) && c.toServer.Space() > 0 && c.originFd != -1
    ensures var r := OnRead(c, t, key, k);
            && r.Ok? && r.value.c.clientEof && c.toClient.contents == []
            && (r.value.next == SocksDone <==> c.toServer.contents == [])
            && (r.value.next == Copy <==> c.toServer.contents != [])
  {
    RelaySides(c, t, key);
    RelayReads(c, t, key, k);
    hide Live, OnRead;
  }

  /** A client has said its end of stream while bytes of it wait that the origin is not watched for. */
  ghost predicate Stranded(c: Conn, t: Slots) {
    && c.state == Some(Copy) && c.clientEof && c.toServer.contents != []
    && c.originFd in t && t[c.originFd].interest == OP_READ
  }

  /** Such bytes came with the request, and never leave: no event but more data of the client would send them. */
  lemma StrandedBytesAreLost(c: Conn, t: Slots, key: Key, k: Kernel)
    requires Relays(c, t, key) && Stranded(c, t) && c.originFd != -1
    requires key.fd == c.clientFd ==> !k.recv.Data? || k.recv.bytes == []
    ensures c.toOrigin == [] || c.originEof
    ensures var r := if t[key.fd].interest.read then OnRead(c, t, key, k) else OnWrite(c, t, key, k);
            && r.Ok? && r.value.c.toOrigin == c.toOrigin && r.value.c.toServer.contents == c.toServer.contents
            && (r.value.next == Copy ==> Stranded(r.value.c, r.value.t))
  {
    RelaySides(c, t, key);
    hide Live, OnRead, OnWrite;
    if t[key.fd].interest.read {
      RelayReads(c, t, key, k);
    } else {
      var _ := RelayWrites(c, t, key, k);
    }
  }

  // ---------------------------------------------------------------- any table at all

  /** The slot of a descriptor after `interest` was set there, if it was. */
  predicate SetTo(t: Slots, t': Slots, fd: int, changed: bool, interest: Interest)
    requires fd in t
  {
    fd in t' && t'[fd] == if changed then Slot(interest, t[fd].data) else t[fd]
  }

  /** What an attempt to send leaves of any table. */
  ghost predicate Woken(c: Conn, t: Slots, key: Key, k: Kernel, toClient: bool, source: int, sourceEof: bool, t': Slots)
    requires key.fd in t && source in t
  {
    var waiting := Unread(c, toClient);
    var n := Accepted(k.send, |waiting|);
    var room := (if n == |waiting| then ToDrain(c, toClient).limit else ToDrain(c, toClient).Space()) > 0;
    && t'.Keys == t.Keys
    && SetTo(t, t', source, n > 0 && !sourceEof && room, OP_READ)
    && SetTo(t, t', key.fd, waiting == [] || (n > 0 && (n < |waiting| || !toClient)), if n == |waiting| then OP_READ else OP_WRITE)
    && (forall fd :: fd in t && fd != key.fd && fd != source ==> t'[fd] == t[fd])
  }

  lemma TailWakes(c: Conn, t: Slots, t1: Slots, key: Key, toClient: bool, source: int, wake: bool)
    requires ValidFd(key.fd) && key.fd in t && ValidFd(source) && source in t && source != key.fd
    requires t1 == if wake then SetInterest(t, source, OP_READ).1 else t
    ensures var r := CopySent(c, t1, key, toClient);
            var left := ToDrain(c, toClient).contents;
            && r.Ok? && r.value.t.Keys == t.Keys
            && SetTo(t, r.value.t, source, wake, OP_READ)
            && SetTo(t, r.value.t, key.fd, left != [] || !toClient, if left == [] then OP_READ else OP_WRITE)
            && (forall fd :: fd in t && fd != key.fd && fd != source ==> r.value.t[fd] == t[fd])
  {
  }

  /**
   * What one attempt to send does to any table, whatever was watched before: the side that is drained goes back to reading
   * when it has nothing to write, or is the origin and has written all, and is watched for writing when some is left; a
   * source that is open is read again once there is room.
   */
  lemma SendingWakesTheSource(c: Conn, t: Slots, key: Key, k: Kernel, toClient: bool, source: int, sourceEof: bool)
    requires ValidFd(key.fd) && key.fd in t && ValidFd(source) && source in t && source != key.fd
    ensures var r := CopySendTo(c, t, key, k, toClient, source, sourceEof);
            r.Ok? && Woken(c, t, key, k, toClient, source, sourceEof, r.value.t)
  {
    hide CopySent;
    var waiting := Unread(c, toClient);
    var n := Accepted(k.send, |waiting|);
    if n > 0 {
      var c1 := if toClient then DrainToClient(c, key.fd, n) else DrainToServer(c, key.fd, n);
      var wake := !sourceEof && ToDrain(c1, toClient).Space() > 0;
      TailWakes(c1, t, if wake then SetInterest(t, source, OP_READ).1 else t, key, toClient, source, wake);
      DrainedSpace(c, key, toClient, n);
    }
  }

  lemma DrainedSpace(c: Conn, key: Key, toClient: bool, n: nat)
    requires n <= |Unread(c, toClient)|
    ensures var c1 := if toClient then DrainToClient(c, key.fd, n) else DrainToServer(c, key.fd, n);
            && ToDrain(c1, toClient).Space() == (if n == |Unread(c, toClient)| then ToDrain(c, toClient).limit else ToDrain(c, toClient).Space())
            && ToDrain(c1, toClient).contents == Unread(c, toClient)[n..]
  {
  }

  /** An event on a descriptor that is neither side's is an error. */
  lemma NeitherSide(c: Conn, t: Slots, key: Key, k: Kernel)
    requires c.state == Some(Copy) && key.fd != c.clientFd && key.fd != c.originFd
    ensures OnRead(c, t, key, k) == OnWrite(c, t, key, k) == Ok(Turn(c.(state := Some(SocksError)), t, SocksError, false))
  {
  }
}
