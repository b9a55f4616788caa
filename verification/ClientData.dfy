/**
 * `struct client_data` and its handlers in place: negotiation.c, authentication.c, request.c, copy.c and the
 * stm.c entry points, on the buffers, parsers and selector of the other modules. Each method does to the
 * objects what the function of the same name in `Connection` does to their values.
 */
module ClientObject {
  import opened Bytes
  import opened Results
  import opened Buffers
  import opened Incremental
  import opened SelectorTable
  import C = Connection
  import N = NegotiationParser
  import A = AuthenticationParser
  import R = RequestParser
  import S = Selectors
  import SM = StateMachine
  import P = Server
  import CI = ConnectionInvariant
  import RI = RelayInvariant
  import SI = ServerInvariant
  import SS = ServerSafety
  import U = Users

  type Selector = S.Selector<C.Owner>

  /** Which parser the union holds; the others' storage is not looked at. */
  datatype Phase = Negotiating | Authenticating | Requesting

  lemma LeftOverNegotiation(p: N.Neg, b: GoodBuf)
    ensures var left := N.Parse(p, b.contents).1;
            && |left| <= |b.contents|
            && (if left == b.contents then b else b.Drop(|b.contents| - |left|)) == Leaving(b, left)
  {
    UsedPartConsumes(N.Step, N.Done, p, b.contents);
  }

  lemma LeftOverAuthentication(p: A.Auth, b: GoodBuf)
    ensures var left := A.Parse(p, b.contents).1;
            && |left| <= |b.contents|
            && (if left == b.contents then b else b.Drop(|b.contents| - |left|)) == Leaving(b, left)
  {
    UsedPartConsumes(A.Step, A.Done, p, b.contents);
  }

  lemma LeftOverRequest(p: R.Req, b: GoodBuf)
    ensures var left := R.Parse(p, b.contents).1;
            && |left| <= |b.contents|
            && (if left == b.contents then b else b.Drop(|b.contents| - |left|)) == Leaving(b, left)
  {
    UsedPartConsumes(R.Step, R.Done, p, b.contents);
  }

  /** `selector_unregister_fd` on a descriptor that, if it is registered, is this connection's. */
  lemma UnregisterOwn(w: P.Process, id: nat, fd: int)
    requires id in w.conns && fd != -1 && (fd in w.t ==> w.t[fd].data == C.Client(id))
    ensures var r := P.UnregisterFd(w, fd);
            var c := C.CloseHook(w.conns[id], fd);
            && (r.Ok? <==> ValidFd(fd) && fd in w.t && (C.Closed(c) ==> C.Release(c).Ok?))
            && (r.Ok? ==>
                  && r.value.t == w.t - {fd} && (id in r.value.conns <==> !C.Closed(c))
                  && if C.Closed(c) then id in r.value.freed && r.value.freed[id] == C.Release(c).value
                     else r.value.conns[id] == c)
  {
    hide C.Release;
  }

  lemma DropOriginIs(c: C.Conn, t: C.Slots, id: nat)
    ensures C.DropOrigin(c, t, id) ==
            if !ValidFd(c.originFd) || c.originFd !in t then Ok((c.(originFd := -1), t))
            else if t[c.originFd].data != C.Client(id) || c.clientFd == -1 then Crashed(WildAccess)
            else Ok((C.CloseHook(c, c.originFd).(originFd := -1), t - {c.originFd}))
  {
  }

  /** After a callback that keeps the invariant, the connection's descriptors are its own. */
  lemma OwnsItsSlots(w: P.Process, key: C.Key, r: C.Turn)
    requires SI.CameBack(w, key, r)
    ensures var w1 := P.AfterTurn(w, key, r);
            && key.id in w1.conns && w1.conns[key.id] == r.c && w1.t == r.t
            && (forall fd :: fd in w1.t && fd != -1 && (fd == r.c.clientFd || fd == r.c.originFd) ==>
                  w1.t[fd].data == C.Client(key.id))
  {
    hide SI.CountOk, SI.ConnsOk, SI.JobsOk, SI.LogOk, CI.ConnOk, CI.Watched, CI.SameOthers, CI.Grows;
    assert r.c == C.Jump(r.c, r.next);
  }

  /** A read callback that returns has kept the invariant, since the others are fatal. */
  lemma ReadCameBack(w: P.Process, key: C.Key, k: C.Kernel, r: C.Turn)
    requires key.id in w.conns && C.OnRead(w.conns[key.id], w.t, key, k) == Ok(r)
    requires P.Enabled(w, P.ReadReady(key.fd, k)) && P.KeyFor(w, key.fd) == key && SI.Inv(w)
    ensures SI.CameBack(w, key, r)
  {
    hide RI.Live, SI.Inv, C.OnRead, SI.CameBack, RI.ReadCrashes;
    SS.OwnedSlot(w, key.fd);
    if SS.EndsProcess(w, P.ReadReady(key.fd, k)) {
      RI.OnReadCrashes(w.conns[key.id], w.t, key, k);
    } else {
      SS.ReadComesBack(w, key.fd, k);
    }
  }

  lemma WriteCameBack(w: P.Process, key: C.Key, k: C.Kernel, r: C.Turn)
    requires key.id in w.conns && C.OnWrite(w.conns[key.id], w.t, key, k) == Ok(r)
    requires P.Enabled(w, P.WriteReady(key.fd, k)) && P.KeyFor(w, key.fd) == key && SI.Inv(w)
    ensures SI.CameBack(w, key, r)
  {
    hide RI.Live, SI.Inv, C.OnWrite, SI.CameBack, CI.LogsNobody;
    SS.OwnedSlot(w, key.fd);
    if SS.EndsProcess(w, P.WriteReady(key.fd, k)) {
      RI.OnWriteCrashes(w.conns[key.id], w.t, key, k);
    } else {
      SS.WriteComesBack(w, key.fd, k);
    }
  }

  lemma BlockCameBack(w: P.Process, k: C.Kernel)
    requires SI.Inv(w) && P.Enabled(w, P.NotifyOne(k))
    ensures var key := C.Key(w.place.rest[0].fd, w.place.rest[0].id);
            && key.id in w.conns && C.OnBlock(w.conns[key.id], w.t, key, k).Ok?
            && SI.CameBack(SS.AtHead(w), key, C.OnBlock(w.conns[key.id], w.t, key, k).value)
  {
    hide SI.CameBack, C.OnBlock, SI.ConnsOk, SI.JobsOk, SI.LogOk, SI.CountOk, CI.Keeps, RI.Live;
    var key := C.Key(w.place.rest[0].fd, w.place.rest[0].id);
    SS.HeadFindsItsConnection(w);
    RI.OnBlockKeeps(w.conns[key.id], w.t, key, k);
    SS.KeptIsOk(w.conns[key.id], w.t, key.id, C.OnBlock(w.conns[key.id], w.t, key, k));
    var r := C.OnBlock(w.conns[key.id], w.t, key, k).value;
    SS.ResolvedLeaves(w.conns[key.id], w.t, key.id, r);
    SS.HeadComesBack(w, r);
  }

  lemma ReleaseFails(c: C.Conn)
    ensures C.Release(c).Ok? <==> c.originAddr.Some? ==> c.handshake.InRequest?
  {
  }

  class ClientData {
    var state: Option<C.SocksState>
    var phase: Phase
    const negotiation: N.Parser
    const auth: A.Parser
    const request: R.Parser
    var clientFd: int
    var originFd: int
    var clientEof: bool
    var originEof: bool
    const toServer: Buffer
    const toClient: Buffer
    var originAddr: Option<C.AddressList>
    var current: seq<C.Target>
    var username: string
    ghost var log: C.Conn

    ghost function AuthRepr(): set<object> { {auth, auth.uname, auth.passwd} }

    ghost function RequestRepr(): set<object> { {request, request.address, request.buffer} }

    ghost function Repr(): set<object> {
      {this, negotiation, toServer, toServer.data, toClient, toClient.data} + AuthRepr() + RequestRepr()
    }

    ghost predicate Valid()
      reads Repr()
      ensures Valid() ==> toServer.Valid() && toClient.Valid() && auth.Valid() && request.Valid()
    {
      && toServer != toClient && toServer.data != toClient.data
      && toServer.Valid() && toClient.Valid()
      && toServer.data !in {auth.uname, auth.passwd, request.address, request.buffer}
      && toClient.data !in {auth.uname, auth.passwd, request.address, request.buffer}
      && auth.uname !in {request.address, request.buffer} && auth.passwd !in {request.address, request.buffer}
      && auth.Valid() && request.Valid()
    }

    ghost function Parser(): C.Handshake
      reads Repr()
      requires Valid()
    {
      match phase
      case Negotiating => C.InNegotiation(negotiation.View())
      case Authenticating => C.InAuthentication(auth.View())
      case Requesting => C.InRequest(request.View())
    }

    /** The connection as a value; the history is what `log` has recorded. */
    ghost function View(): (c: C.Conn)
      reads Repr()
      requires Valid()
      ensures c.state == state && c.clientFd == clientFd && c.originFd == originFd
      ensures c.clientEof == clientEof && c.originEof == originEof
      ensures c.originAddr == originAddr && c.current == current && c.username == username
      ensures c.handshake == Parser() && c.toServer == toServer.View() && c.toClient == toClient.View()
    {
      log.(state := state, handshake := Parser(), clientFd := clientFd, originFd := originFd,
           clientEof := clientEof, originEof := originEof, toServer := toServer.View(), toClient := toClient.View(),
           originAddr := originAddr, current := current, username := username)
    }

    /** `socksv5_new`: null without memory. */
    static method New(fd: int, memory: bool) returns (c: ClientData?)
      ensures c != null <==> memory
      ensures c != null ==> c.Valid() && fresh(c) && fresh(c.Repr()) && c.View() == C.New(fd)
    {
      if !memory {
        return null;
      }
      c := new ClientData(fd);
    }

    constructor (fd: int)
      ensures Valid() && fresh(Repr()) && View() == C.New(fd)
    {
      state := None;
      phase := Negotiating;
      negotiation := new N.Parser();
      auth := new A.Parser();
      request := new R.Parser();
      clientFd, originFd, clientEof, originEof := fd, -1, false, false;
      toServer := new Buffer(BUFFER_SIZE);
      toClient := new Buffer(BUFFER_SIZE);
      originAddr, current, username := None, [], "";
      log := C.New(fd);
    }

    // -------------------------------------------------------------- bytes in and out

    /** `recv` into `client_to_sv` and `buffer_write_adv`. */
    method TakeIn(bs: seq<byte>)
      requires Valid() && |bs| <= toServer.View().Space()
      modifies this`log, toServer, toServer.data
      ensures Valid() && View() == C.TakeIn(old(View()), bs)
    {
      toServer.Receive(bs);
      toServer.WriteAdv(|bs|);
      log := log.(received := log.received + bs);
    }

    method TakeInFromOrigin(bs: seq<byte>)
      requires Valid() && |bs| <= toClient.View().Space()
      modifies this`log, toClient, toClient.data
      ensures Valid() && View() == C.TakeInFromOrigin(old(View()), bs)
    {
      toClient.Receive(bs);
      toClient.WriteAdv(|bs|);
      log := log.(fromOrigin := log.fromOrigin + bs);
    }

    /** `send` of `n` bytes of `sv_to_client` on `fd` and `buffer_read_adv`. */
    method DrainToClient(fd: int, n: nat)
      requires Valid() && n <= |toClient.View().contents|
      modifies this`log, toClient, toClient.data
      ensures Valid() && View() == C.DrainToClient(old(View()), fd, n)
    {
      ghost var bs := toClient.View().contents[..n];
      toClient.ReadAdv(n);
      assert Valid() && Parser() == old(Parser());
      log := if fd == clientFd then log.(sent := log.sent + bs) else log.(toOrigin := log.toOrigin + bs);
    }

    method DrainToServer(fd: int, n: nat)
      requires Valid() && n <= |toServer.View().contents|
      modifies this`log, toServer, toServer.data
      ensures Valid() && View() == C.DrainToServer(old(View()), fd, n)
    {
      ghost var bs := toServer.View().contents[..n];
      toServer.ReadAdv(n);
      assert Valid() && Parser() == old(Parser());
      log := if fd == clientFd then log.(sent := log.sent + bs) else log.(toOrigin := log.toOrigin + bs);
    }

    // -------------------------------------------------------------- parsers and replies

    method ParseNegotiation()
      requires Valid() && phase.Negotiating?
      modifies this`log, negotiation, toServer, toServer.data
      ensures Valid() && View() == C.ParseNegotiation(old(View()), old(negotiation.View()))
    {
      hide N.Parse, N.Step;
      ghost var p, input := negotiation.View(), toServer.View().contents;
      LeftOverNegotiation(p, toServer.View());
      negotiation.Run(toServer);
      log := log.(negBytes := log.negBytes + input[..|input| - |N.Parse(p, input).1|]);
    }

    method ParseAuthentication()
      requires Valid() && phase.Authenticating?
      modifies this`log, AuthRepr(), toServer, toServer.data
      ensures Valid() && View() == C.ParseAuthentication(old(View()), old(auth.View()))
    {
      hide A.Parse, A.Step;
      ghost var p, input := auth.View(), toServer.View().contents;
      LeftOverAuthentication(p, toServer.View());
      auth.Run(toServer);
      log := log.(authBytes := log.authBytes + input[..|input| - |A.Parse(p, input).1|]);
    }

    method ParseRequest()
      requires Valid() && phase.Requesting?
      modifies this`log, RequestRepr(), toServer, toServer.data
      ensures Valid() && View() == C.ParseRequest(old(View()), old(request.View()))
    {
      hide R.Parse, R.Step;
      ghost var p, input := request.View(), toServer.View().contents;
      LeftOverRequest(p, toServer.View());
      request.Run(toServer);
      log := log.(reqBytes := log.reqBytes + input[..|input| - |R.Parse(p, input).1|]);
    }

    method RespondNegotiation() returns (failed: int)
      requires Valid() && phase.Negotiating?
      modifies this`log, toClient, toClient.data
      ensures Valid()
      ensures var (f, b) := N.Respond(old(negotiation.View()), old(toClient.View()));
              failed == f && View() == C.Greet(old(View()), b)
    {
      ghost var was := toClient.View();
      failed := negotiation.GenerateResponse(toClient);
      ghost var added := Added(was, toClient.View());
      log := log.(replies := log.replies + added, greeting := added);
    }

    method RespondAuthentication(authenticated: byte) returns (failed: int)
      requires Valid()
      modifies this`log, toClient, toClient.data
      ensures Valid()
      ensures var (f, b) := A.Respond(old(toClient.View()), authenticated);
              failed == f && View() == C.Judge(old(View()), b)
    {
      ghost var was := toClient.View();
      failed := A.GenerateResponse(toClient, authenticated);
      ghost var added := Added(was, toClient.View());
      log := log.(replies := log.replies + added, verdict := added);
    }

    method RespondRequest(bound: R.SockAddr) returns (failed: int)
      requires Valid() && phase.Requesting?
      modifies this`log, toClient, toClient.data
      ensures Valid()
      ensures var (f, b) := R.Respond(old(request.View()), old(toClient.View()), bound);
              failed == f && View() == C.Answer(old(View()), b, old(request.View()).status, bound)
    {
      hide R.Reply;
      ghost var was := toClient.View();
      failed := request.GenerateResponse(toClient, bound);
      ghost var added := Added(was, toClient.View());
      log := log.(replies := log.replies + added);
      ghost var status := request.connectionStatus;
      log := if added == R.Reply(status, bound) then log.(answers := log.answers + [C.Answered(status, bound)])
             else log.(cut := added);
    }

    // -------------------------------------------------------------- stm.c

    /** The union's bytes outside the fields that `initialize_auth_parser` sets, taken as zero. */
    method ClearAuthentication()
      requires Valid()
      modifies AuthRepr()
      ensures Valid() && auth.uname[..] == auth.passwd[..] == Zeros()
    {
      forall i | 0 <= i < auth.uname.Length {
        auth.uname[i] := 0;
      }
      forall i | 0 <= i < auth.passwd.Length {
        auth.passwd[i] := 0;
      }
      assert auth.uname[..] == Zeros() && auth.passwd[..] == Zeros();
    }

    /** The union's bytes outside the fields that `initialize_request_parser` sets, taken as zero. */
    method ClearRequest()
      requires Valid()
      modifies RequestRepr()
      ensures Valid() && request.atyp == 0 && request.address[..] == request.buffer[..] == Zeros()
    {
      request.currentState, request.bytesRead, request.atyp := R.ReqVersion, 0, 0;
      forall i | 0 <= i < request.address.Length {
        request.address[i] := 0;
      }
      forall i | 0 <= i < request.buffer.Length {
        request.buffer[i] := 0;
      }
      assert request.address[..] == Zeros() && request.buffer[..] == Zeros();
    }

    /** `negotiation_read_init` on arrival. */
    method ArriveNegotiation()
      requires Valid()
      modifies this`phase, negotiation
      ensures Valid() && View() == C.Arrive(old(View()), C.NegotiationRead)
    {
      if !phase.Negotiating? {
        negotiation.methodQuantity := 0;
      }
      negotiation.Initialize();
      phase := Negotiating;
    }

    /** `authentication_read_init` on arrival. */
    method ArriveAuthentication()
      requires Valid()
      modifies this`phase, AuthRepr()
      ensures Valid() && View() == C.Arrive(old(View()), C.AuthRead)
    {
      hide A.Init, Zeros;
      ClearAuthentication();
      auth.Initialize();
      phase := Authenticating;
      assert Parser() == C.InAuthentication(A.Init(Zeros(), Zeros()));
    }

    /** `request_read_init` on arrival. */
    method ArriveRequest()
      requires Valid()
      modifies this`phase, RequestRepr()
      ensures Valid() && View() == C.Arrive(old(View()), C.ReqRead)
    {
      hide R.Init, Zeros;
      ClearRequest();
      request.Initialize();
      phase := Requesting;
      assert Parser() == C.InRequest(R.Init(0, Zeros(), Zeros()));
    }

    /** The on_arrival hooks, which overwrite the union. */
    method Arrive(s: C.SocksState)
      requires Valid()
      modifies this`phase, negotiation, AuthRepr(), RequestRepr()
      ensures Valid() && View() == C.Arrive(old(View()), s)
    {
      if s == C.NegotiationRead {
        ArriveNegotiation();
      } else if s == C.AuthRead {
        ArriveAuthentication();
      } else if s == C.ReqRead {
        ArriveRequest();
      }
    }

    method SetState(s: C.SocksState)
      requires Valid()
      modifies this`state
      ensures Valid() && View() == old(View()).(state := Some(s))
    {
      state := Some(s);
    }

    method First()
      requires Valid()
      modifies Repr()
      ensures Valid() && View() == C.First(old(View()))
    {
      hide ClientData.View, ClientData.Valid, C.Arrive;
      if state == None {
        SetState(C.NegotiationRead);
        Arrive(C.NegotiationRead);
      }
    }

    method Jump(next: C.SocksState)
      requires Valid()
      modifies Repr()
      ensures Valid() && View() == C.Jump(old(View()), next)
    {
      hide ClientData.View, ClientData.Valid, C.Arrive;
      if SM.Moves(state, next) {
        SetState(next);
        Arrive(next);
      }
    }

    // -------------------------------------------------------------- handlers

    /** A selector of the size the server uses, apart from this object's memory. */
    ghost predicate Ready(sel: Selector)
      reads Repr(), sel, sel.fds
      ensures Ready(sel) ==> Valid() && sel.Valid() && sel !in Repr() && sel.fds !in Repr()
    {
      && Valid() && sel.Valid() && sel.fds.Length == ITEMS_MAX_SIZE + 1
      && sel !in Repr() && sel.fds !in Repr()
    }

    /** A handler did what `r` says: it came back with `next`, or the process is lost. */
    ghost predicate Did(sel: Selector, r: Result<C.Turn>, ok: bool, next: C.SocksState, spawned: bool)
      reads Repr(), sel, sel.fds
    {
      && (ok <==> r.Ok?)
      && (ok ==> Ready(sel) && r.value == C.Turn(View(), sel.View(), next, spawned))
    }

    /** `selector_set_interest`; nothing of the connection changes. */
    method Watch(sel: Selector, fd: int, interest: Interest) returns (status: Status)
      requires Ready(sel)
      modifies sel, sel.fds
      ensures Ready(sel) && View() == old(View()) && sel.fds == old(sel.fds)
      ensures (status, sel.View()) == SetInterest(old(sel.View()), fd, interest)
    {
      status := sel.SetInterest(fd, interest);
    }

    /** `send` on `fd` from one of the buffers; the selector does not notice. */
    method Drain(ghost sel: Selector, fd: int, n: nat, draining: bool)
      requires Ready(sel) && n <= |C.ToDrain(View(), draining).contents|
      modifies Repr()
      ensures Ready(sel) && sel.View() == old(sel.View())
      ensures View() == if draining then C.DrainToClient(old(View()), fd, n) else C.DrainToServer(old(View()), fd, n)
    {
      if draining {
        DrainToClient(fd, n);
      } else {
        DrainToServer(fd, n);
      }
    }

    /** `recv` and one call of the parser; the selector does not notice. */
    method ReceiveNegotiation(ghost sel: Selector, bs: seq<byte>)
      requires Ready(sel) && phase.Negotiating? && |bs| <= toServer.View().Space()
      modifies Repr()
      ensures Ready(sel) && sel.View() == old(sel.View()) && phase.Negotiating?
      ensures View() == C.ParseNegotiation(C.TakeIn(old(View()), bs), old(negotiation.View()))
    {
      hide ClientData.View, ClientData.Valid, C.TakeIn, C.ParseNegotiation;
      TakeIn(bs);
      ParseNegotiation();
    }

    /** `recv` and one call of the parser; the selector does not notice. */
    method ReceiveAuthentication(ghost sel: Selector, bs: seq<byte>)
      requires Ready(sel) && phase.Authenticating? && |bs| <= toServer.View().Space()
      modifies Repr()
      ensures Ready(sel) && sel.View() == old(sel.View()) && phase.Authenticating?
      ensures View() == C.ParseAuthentication(C.TakeIn(old(View()), bs), old(auth.View()))
    {
      hide ClientData.View, ClientData.Valid, C.TakeIn, C.ParseAuthentication;
      TakeIn(bs);
      ParseAuthentication();
    }

    /** `recv` and one call of the parser; the selector does not notice. */
    method ReceiveRequest(ghost sel: Selector, bs: seq<byte>)
      requires Ready(sel) && phase.Requesting? && |bs| <= toServer.View().Space()
      modifies Repr()
      ensures Ready(sel) && sel.View() == old(sel.View()) && phase.Requesting?
      ensures View() == C.ParseRequest(C.TakeIn(old(View()), bs), old(request.View()))
    {
      hide ClientData.View, ClientData.Valid, C.TakeIn, C.ParseRequest;
      TakeIn(bs);
      ParseRequest();
    }

    /** `generate_negotiation_response`; the selector does not notice. */
    method ReplyNegotiation(ghost sel: Selector) returns (failed: int)
      requires Ready(sel) && phase.Negotiating?
      modifies Repr()
      ensures Ready(sel) && sel.View() == old(sel.View())
      ensures var (f, b) := N.Respond(old(negotiation.View()), old(toClient.View()));
              failed == f && View() == C.Greet(old(View()), b)
    {
      hide N.Respond, C.Greet;
      failed := RespondNegotiation();
    }

    /** `auth_generate_response`; the selector does not notice. */
    method ReplyAuthentication(ghost sel: Selector, authenticated: byte) returns (failed: int)
      requires Ready(sel)
      modifies Repr()
      ensures Ready(sel) && sel.View() == old(sel.View())
      ensures var (f, b) := A.Respond(old(toClient.View()), authenticated);
              failed == f && View() == C.Judge(old(View()), b)
    {
      hide A.Respond, C.Judge;
      failed := RespondAuthentication(authenticated);
    }

    method AnswerNegotiation(sel: Selector, key: C.Key) returns (ok: bool, next: C.SocksState)
      requires Ready(sel)
      modifies Repr(), sel, sel.fds
      ensures sel.fds == old(sel.fds)
      ensures Did(sel, C.AnswerNegotiation(old(View()), old(sel.View()), key), ok, next, false)
    {
      hide ClientData.Ready, ClientData.View, ClientData.Valid, SetInterest, N.Respond, C.Greet;
      if !phase.Negotiating? {
        return false, C.SocksError;
      }
      var status := Watch(sel, key.fd, OP_WRITE);
      if status != Success {
        return true, C.SocksError;
      }
      var failed := ReplyNegotiation(sel);
      return true, if failed != 0 then C.SocksError else C.NegotiationWrite;
    }

    method NegotiationReady(sel: Selector, key: C.Key, k: C.Kernel) returns (ok: bool, next: C.SocksState)
      requires Ready(sel)
      modifies Repr(), sel, sel.fds
      ensures sel.fds == old(sel.fds)
      ensures Did(sel, C.NegotiationReady(old(View()), old(sel.View()), key, k), ok, next, false)
    {
      hide ClientData.Ready, ClientData.View, ClientData.Valid, C.TakeIn, C.ParseNegotiation, C.AnswerNegotiation;
      if !toServer.CanWrite() {
        return true, C.NegotiationRead;
      }
      if !k.recv.Data? || k.recv.bytes == [] {
        return true, C.SocksError;
      }
      if !phase.Negotiating? {
        return false, C.SocksError;
      }
      ReceiveNegotiation(sel, C.Delivered(k.recv.bytes, toServer.data.Length - toServer.write));
      if !negotiation.IsDone() {
        return true, C.NegotiationRead;
      }
      ok, next := AnswerNegotiation(sel, key);
    }

    method NegotiationSend(sel: Selector, key: C.Key, k: C.Kernel) returns (ok: bool, next: C.SocksState)
      requires Ready(sel)
      modifies Repr(), sel, sel.fds
      ensures sel.fds == old(sel.fds)
      ensures Did(sel, C.NegotiationSend(old(View()), old(sel.View()), key, k), ok, next, false)
    {
      hide ClientData.Ready, ClientData.View, ClientData.Valid, SetInterest, C.DrainToClient;
      var n := if k.send.Takes? then C.Taken(k.send.n, toClient.write - toClient.read) else 0;
      if n == 0 {
        return true, C.SocksError;
      }
      Drain(sel, key.fd, n, true);
      if toClient.CanRead() {
        return true, C.NegotiationWrite;
      }
      if !phase.Negotiating? {
        return false, C.SocksError;
      }
      if negotiation.selectedMethod == N.NOT_ACCEPTABLE {
        return true, C.SocksError;
      }
      var status := Watch(sel, key.fd, OP_READ);
      return true, if status != Success then C.SocksError else C.AuthRead;
    }

    method AnswerAuthentication(sel: Selector, key: C.Key, login: bool) returns (ok: bool, next: C.SocksState)
      requires Ready(sel)
      modifies Repr(), sel, sel.fds
      ensures sel.fds == old(sel.fds)
      ensures Did(sel, C.AnswerAuthentication(old(View()), old(sel.View()), key, login), ok, next, false)
    {
      hide ClientData.Ready, ClientData.View, ClientData.Valid, SetInterest, A.Respond, C.Judge;
      var failed := ReplyAuthentication(sel, if login then A.AUTHENTICATED else A.ACCESS_DENIED);
      if failed != 0 {
        return true, C.SocksError;
      }
      var status := Watch(sel, key.fd, OP_WRITE);
      return true, if status != Success then C.SocksError else C.AuthWrite;
    }

    /** `strcpy` of the user name out of the parser. */
    method CopyName(ghost sel: Selector)
      requires Ready(sel) && phase.Authenticating?
      modifies this`username
      ensures Ready(sel) && sel.View() == old(sel.View()) && View() == C.Named(old(View()))
    {
      username := Text(auth.uname[..]);
    }

    method AuthenticationReady(sel: Selector, key: C.Key, k: C.Kernel) returns (ok: bool, next: C.SocksState)
      requires Ready(sel)
      modifies Repr(), sel, sel.fds
      ensures sel.fds == old(sel.fds)
      ensures Did(sel, C.AuthenticationReady(old(View()), old(sel.View()), key, k), ok, next, false)
    {
      hide ClientData.Ready, ClientData.View, ClientData.Valid, C.TakeIn, C.ParseAuthentication, C.AnswerAuthentication;
      if !toServer.CanWrite() {
        return true, C.AuthRead;
      }
      if !k.recv.Data? || k.recv.bytes == [] {
        return true, C.SocksError;
      }
      if !phase.Authenticating? {
        return false, C.SocksError;
      }
      ReceiveAuthentication(sel, C.Delivered(k.recv.bytes, toServer.data.Length - toServer.write));
      if !auth.IsDone() {
        return true, C.AuthRead;
      }
      var login := U.Login(k.users, Text(auth.uname[..]), Text(auth.passwd[..]));
      CopyName(sel);
      ok, next := AnswerAuthentication(sel, key, login >= 0);
    }

    method AuthenticationSend(sel: Selector, key: C.Key, k: C.Kernel) returns (ok: bool, next: C.SocksState)
      requires Ready(sel)
      modifies Repr(), sel, sel.fds
      ensures sel.fds == old(sel.fds)
      ensures Did(sel, C.AuthenticationSend(old(View()), old(sel.View()), key, k), ok, next, false)
    {
      hide ClientData.Ready, ClientData.View, ClientData.Valid, SetInterest, C.DrainToClient;
      var n := if k.send.Takes? then C.Taken(k.send.n, toClient.write - toClient.read) else 0;
      if n == 0 {
        return true, C.SocksError;
      }
      Drain(sel, key.fd, n, true);
      if toClient.CanRead() {
        return true, C.AuthWrite;
      }
      var status := Watch(sel, key.fd, OP_READ);
      return true, if status != Success then C.SocksError else C.ReqRead;
    }

    // -------------------------------------------------------------- copy.c

    predicate BothOver()
      reads this, toServer, toClient
      requires toServer.Valid() && toClient.Valid()
    {
      clientEof && !toServer.CanRead() && originEof && !toClient.CanRead()
    }

    /** `copy_write`. */
    method CopySend(sel: Selector, key: C.Key, k: C.Kernel) returns (ok: bool, next: C.SocksState)
      requires Ready(sel)
      modifies Repr(), sel, sel.fds
      ensures sel.fds == old(sel.fds)
      ensures Did(sel, C.CopySend(old(View()), old(sel.View()), key, k), ok, next, false)
    {
      if key.fd == clientFd {
        ok, next := CopySendTo(sel, key, k, true, originFd, originEof);
      } else if key.fd == originFd {
        ok, next := CopySendTo(sel, key, k, false, clientFd, clientEof);
      } else {
        return true, C.SocksError;
      }
    }

    /** `copy_write` with nothing to send. */
    method CopyIdle(sel: Selector, key: C.Key, draining: bool) returns (ok: bool, next: C.SocksState)
      requires Ready(sel)
      modifies sel, sel.fds
      ensures sel.fds == old(sel.fds)
      ensures var c := old(View());
              Did(sel, C.Go(c, SetInterest(old(sel.View()), key.fd, OP_READ).1,
                            if (draining && c.clientEof) || C.BothOver(c) then C.SocksDone else C.Copy), ok, next, false)
    {
      hide ClientData.Ready, ClientData.View, ClientData.Valid, SetInterest;
      var _ := Watch(sel, key.fd, OP_READ);
      return true, if (draining && clientEof) || BothOver() then C.SocksDone else C.Copy;
    }

    method CopySendTo(sel: Selector, key: C.Key, k: C.Kernel, draining: bool, source: int, sourceEof: bool)
      returns (ok: bool, next: C.SocksState)
      requires Ready(sel)
      modifies Repr(), sel, sel.fds
      ensures sel.fds == old(sel.fds)
      ensures Did(sel, C.CopySendTo(old(View()), old(sel.View()), key, k, draining, source, sourceEof), ok, next, false)
    {
      hide C.BothOver, ClientData.Ready, ClientData.View, ClientData.Valid, SetInterest, C.CopySent, C.DrainToClient, C.DrainToServer;
      var buffer := if draining then toClient else toServer;
      var available := buffer.write - buffer.read;
      if available == 0 {
        ok, next := CopyIdle(sel, key, draining);
        return;
      }
      if k.send.SendAgain? {
        return true, C.Copy;
      }
      if k.send.SendFails? || C.Taken(k.send.n, available) == 0 {
        return true, C.SocksError;
      }
      ok, next := CopyTaken(sel, key, C.Taken(k.send.n, available), draining, source, sourceEof);
    }

    /** The first part of `handle_write_data`: advance the buffer and wake the source. */
    method CopyTaken(sel: Selector, key: C.Key, n: nat, draining: bool, source: int, sourceEof: bool)
      returns (ok: bool, next: C.SocksState)
      requires Ready(sel) && n <= |C.ToDrain(View(), draining).contents|
      modifies Repr(), sel, sel.fds
      ensures sel.fds == old(sel.fds)
      ensures var c := if draining then C.DrainToClient(old(View()), key.fd, n) else C.DrainToServer(old(View()), key.fd, n);
              var t := old(sel.View());
              var wake := !sourceEof && C.ToDrain(c, draining).Space() > 0;
              Did(sel, C.CopySent(c, if wake then SetInterest(t, source, OP_READ).1 else t, key, draining), ok, next, false)
    {
      hide C.CopySent, C.DrainToClient, C.DrainToServer;
      var buffer := if draining then toClient else toServer;
      Drain(sel, key.fd, n, draining);
      if !sourceEof {
        if buffer.CanWrite() {
          var _ := Watch(sel, source, OP_READ);
        }
      }
      ok, next := CopySent(sel, key, draining);
    }

    /** The tail of `handle_write_data`. */
    method CopySent(sel: Selector, key: C.Key, draining: bool) returns (ok: bool, next: C.SocksState)
      requires Ready(sel)
      modifies Repr(), sel, sel.fds
      ensures sel.fds == old(sel.fds)
      ensures Did(sel, C.CopySent(old(View()), old(sel.View()), key, draining), ok, next, false)
    {
      var buffer := if draining then toClient else toServer;
      if !buffer.CanRead() {
        if !draining {
          var _ := Watch(sel, key.fd, OP_READ);
        }
        return true, if clientEof || BothOver() then C.SocksDone else C.Copy;
      }
      var _ := Watch(sel, key.fd, OP_WRITE);
      return true, C.Copy;
    }

    method CopyReady(sel: Selector, key: C.Key, k: C.Kernel) returns (ok: bool, next: C.SocksState)
      requires Ready(sel)
      modifies Repr(), sel, sel.fds
      ensures sel.fds == old(sel.fds)
      ensures Did(sel, C.CopyReady(old(View()), old(sel.View()), key, k), ok, next, false)
    {
      if key.fd == clientFd {
        ok, next := CopyReadyFrom(sel, key, k, true, originFd, originEof);
      } else if key.fd == originFd {
        ok, next := CopyReadyFrom(sel, key, k, false, clientFd, clientEof);
      } else {
        return true, C.SocksError;
      }
    }

    /** Data from either side; the selector does not notice. */
    method Fill(ghost sel: Selector, fromClient: bool, bs: seq<byte>)
      requires Ready(sel) && |bs| <= C.ToFill(View(), fromClient).Space()
      modifies Repr()
      ensures Ready(sel) && sel.View() == old(sel.View())
      ensures View() == C.Fill(old(View()), fromClient, bs)
    {
      if fromClient {
        TakeIn(bs);
      } else {
        TakeInFromOrigin(bs);
      }
    }

    /** The flags of `handle_read_data` when `recv` returns 0 on the client's side. */
    method MarkClientEof()
      requires Valid()
      modifies this`clientEof, this`originEof
      ensures Valid() && View() == C.AtEof(old(View()), true)
    {
      clientEof := true;
      if !toServer.CanRead() && !originEof {
        originEof := true;
      }
    }

    method MarkOriginEof()
      requires Valid()
      modifies this`clientEof, this`originEof
      ensures Valid() && View() == C.AtEof(old(View()), false)
    {
      originEof := true;
      if !toClient.CanRead() && !clientEof {
        clientEof := true;
      }
    }

    method MarkEof(ghost sel: Selector, fromClient: bool)
      requires Ready(sel)
      modifies this`clientEof, this`originEof
      ensures Ready(sel) && sel.View() == old(sel.View())
      ensures View() == C.AtEof(old(View()), fromClient)
    {
      hide C.AtEof;
      if fromClient {
        MarkClientEof();
      } else {
        MarkOriginEof();
      }
    }

    /** `recv` has returned 0. */
    method CopyEof(sel: Selector, fromClient: bool) returns (ok: bool, next: C.SocksState)
      requires Ready(sel)
      modifies this`clientEof, this`originEof
      ensures var c := C.AtEof(old(View()), fromClient);
              Did(sel, C.Go(c, old(sel.View()), if C.BothOver(c) then C.SocksDone else C.Copy), ok, next, false)
    {
      hide ClientData.Ready, ClientData.View, ClientData.Valid, C.AtEof;
      MarkEof(sel, fromClient);
      return true, if BothOver() then C.SocksDone else C.Copy;
    }

    method CopyReadyFrom(sel: Selector, key: C.Key, k: C.Kernel, fromClient: bool, target: int, targetEof: bool)
      returns (ok: bool, next: C.SocksState)
      requires Ready(sel)
      modifies Repr(), sel, sel.fds
      ensures sel.fds == old(sel.fds)
      ensures Did(sel, C.CopyReadyFrom(old(View()), old(sel.View()), key, k, fromClient, target, targetEof), ok, next, false)
    {
      hide C.BothOver, ClientData.Ready, ClientData.View, ClientData.Valid, C.PassOn, C.Fill, C.AtEof, C.TakeIn, C.TakeInFromOrigin;
      var buffer := if fromClient then toServer else toClient;
      var space := buffer.data.Length - buffer.write;
      if space == 0 || k.recv.RecvAgain? {
        return true, C.Copy;
      }
      if k.recv.RecvFails? {
        return true, C.SocksError;
      }
      if k.recv.bytes == [] {
        ok, next := CopyEof(sel, fromClient);
        return;
      }
      ok, next := CopyData(sel, key, k, fromClient, C.Delivered(k.recv.bytes, space), target, targetEof);
    }

    method CopyData(sel: Selector, key: C.Key, k: C.Kernel, fromClient: bool, bs: seq<byte>, target: int, targetEof: bool)
      returns (ok: bool, next: C.SocksState)
      requires Ready(sel) && |bs| <= C.ToFill(View(), fromClient).Space()
      modifies Repr(), sel, sel.fds
      ensures sel.fds == old(sel.fds)
      ensures Did(sel, C.PassOn(C.Fill(old(View()), fromClient, bs), old(sel.View()), key, k, target, targetEof), ok, next, false)
    {
      hide C.PassOn, C.Fill;
      Fill(sel, fromClient, bs);
      ok, next := PassOn(sel, key, k, target, targetEof);
    }

    /** The tail of `handle_read_data`: a nested write event on the target. */
    method PassOn(sel: Selector, key: C.Key, k: C.Kernel, target: int, targetEof: bool)
      returns (ok: bool, next: C.SocksState)
      requires Ready(sel)
      modifies Repr(), sel, sel.fds
      ensures sel.fds == old(sel.fds)
      ensures Did(sel, C.PassOn(old(View()), old(sel.View()), key, k, target, targetEof), ok, next, false)
    {
      hide ClientData.Ready, ClientData.View, ClientData.Valid, C.OnWrite;
      if targetEof {
        return true, C.Copy;
      }
      var _ := Watch(sel, target, OP_WRITE);
      if target !in sel.View() || sel.View()[target].data != C.Client(key.id) {
        return false, C.SocksError;
      }
      ok, next := OnWrite(sel, C.Key(target, key.id), k);
    }

    /** `jump`; the selector does not notice. */
    method JumpTo(ghost sel: Selector, next: C.SocksState)
      requires Ready(sel)
      modifies Repr()
      ensures Ready(sel) && sel.View() == old(sel.View())
      ensures View() == C.Jump(old(View()), next)
    {
      hide C.Jump;
      Jump(next);
    }

    // -------------------------------------------------------------- request.c

    method RequestSend(sel: Selector, key: C.Key, k: C.Kernel) returns (ok: bool, next: C.SocksState)
      requires Ready(sel)
      modifies Repr(), sel, sel.fds
      ensures sel.fds == old(sel.fds)
      ensures Did(sel, C.RequestSend(old(View()), old(sel.View()), key, k), ok, next, false)
    {
      hide ClientData.Ready, ClientData.View, ClientData.Valid, SetInterest, C.DrainToClient, U.Find;
      if k.send.SendAgain? {
        return true, C.ReqWrite;
      }
      if k.send.SendFails? || C.Taken(k.send.n, toClient.write - toClient.read) == 0 {
        return true, C.SocksError;
      }
      Drain(sel, key.fd, C.Taken(k.send.n, toClient.write - toClient.read), true);
      if toClient.CanRead() {
        return true, C.ReqWrite;
      }
      var status := Watch(sel, key.fd, OP_READ);
      if status != Success {
        return true, C.SocksError;
      }
      if U.Find(k.users.rows, username) < 0 {
        return false, C.SocksError;
      }
      return true, C.Copy;
    }

    /** `req_generate_response`; the selector does not notice. */
    method Reply(ghost sel: Selector, bound: R.SockAddr) returns (failed: int)
      requires Ready(sel) && phase.Requesting?
      modifies Repr()
      ensures Ready(sel) && sel.View() == old(sel.View()) && phase == old(phase)
      ensures var (f, b) := R.Respond(old(request.View()), old(toClient.View()), bound);
              failed == f && View() == C.Answer(old(View()), b, old(request.View()).status, bound)
    {
      hide R.Respond, C.Answer;
      failed := RespondRequest(bound);
    }

    /** Write the request parser's state and status. */
    method SetStatus(ghost sel: Selector, st: R.State, status: byte)
      requires Ready(sel) && phase.Requesting? && (st == request.currentState || st == R.ReqError)
      modifies request
      ensures Ready(sel) && sel.View() == old(sel.View())
      ensures request.View() == old(request.View()).(state := st, status := status)
      ensures View() == old(View()).(handshake := C.InRequest(old(request.View()).(state := st, status := status)))
    {
      request.currentState := st;
      request.connectionStatus := status;
    }

    method ErrorReply(sel: Selector, key: C.Key, reason: byte) returns (ok: bool, next: C.SocksState)
      requires Ready(sel)
      modifies Repr(), sel, sel.fds
      ensures sel.fds == old(sel.fds)
      ensures Did(sel, C.ErrorReply(old(View()), old(sel.View()), key, reason), ok, next, false)
    {
      hide ClientData.Ready, ClientData.View, ClientData.Valid, SetInterest, R.Respond, C.Answer;
      if !phase.Requesting? {
        return false, C.SocksError;
      }
      SetStatus(sel, R.ReqError, reason);
      var status := Watch(sel, key.fd, OP_WRITE);
      if status != Success {
        return true, C.SocksError;
      }
      var failed := Reply(sel, R.NO_ADDRESS);
      return true, if failed != 0 then C.SocksError else C.ReqWrite;
    }

    method RefuseRequest(sel: Selector, key: C.Key) returns (ok: bool, next: C.SocksState)
      requires Ready(sel)
      modifies Repr(), sel, sel.fds
      ensures sel.fds == old(sel.fds)
      ensures Did(sel, C.RefuseRequest(old(View()), old(sel.View()), key), ok, next, false)
    {
      hide R.Respond, C.Answer;
      if !phase.Requesting? {
        return false, C.SocksError;
      }
      var failed := Reply(sel, R.NO_ADDRESS);
      if failed != 0 {
        return true, C.SocksError;
      }
      var status := Watch(sel, key.fd, OP_WRITE);
      return true, if status != Success then C.SocksError else C.ReqWrite;
    }

    /** What `socksv5_close` does to the fields. */
    method HangUp(ghost sel: Selector, fd: int)
      requires Ready(sel)
      modifies this`clientFd, this`originFd
      ensures Ready(sel) && sel.View() == old(sel.View()) && View() == C.CloseHook(old(View()), fd)
      ensures fd == old(clientFd) ==> clientFd == -1 && originFd == old(originFd)
    {
      if fd == clientFd {
        clientFd := -1;
      } else if fd == originFd {
        originFd := -1;
      }
    }

    /** `origin_fd = -1`. */
    method ForgetOrigin(ghost sel: Selector)
      requires Ready(sel)
      modifies this`originFd
      ensures Ready(sel) && sel.View() == old(sel.View()) && View() == old(View()).(originFd := -1)
    {
      originFd := -1;
    }

    /** `selector_unregister_fd`, apart from its close hook. */
    method Close(sel: Selector, fd: int)
      requires Ready(sel) && ValidFd(fd) && fd in sel.View()
      modifies sel, sel.fds
      ensures Ready(sel) && View() == old(View()) && sel.fds == old(sel.fds)
      ensures sel.View() == old(sel.View()) - {fd}
    {
      var _ := sel.Unregister(fd);
    }

    /** `selector_unregister_fd` of the origin, with `socksv5_close`, and `origin_fd = -1`. */
    method DropOrigin(sel: Selector, id: nat) returns (ok: bool)
      requires Ready(sel)
      modifies this`clientFd, this`originFd, sel, sel.fds
      ensures sel.fds == old(sel.fds)
      ensures var r := C.DropOrigin(old(View()), old(sel.View()), id);
              && (ok <==> r.Ok?)
              && (ok ==> Ready(sel) && r.value == (View(), sel.View()))
    {
      hide C.DropOrigin, C.CloseHook, C.Closed, ClientData.Ready, ClientData.View, ClientData.Valid;
      DropOriginIs(View(), sel.View(), id);
      var fd := originFd;
      if ValidFd(fd) && fd in sel.View() {
        if sel.View()[fd].data != C.Client(id) || clientFd == -1 {
          return false;
        }
        HangUp(sel, fd);
        Close(sel, fd);
      }
      ForgetOrigin(sel);
      return true;
    }

    /** Two calls of `selector_set_interest`, the second only if the first succeeds. */
    method WatchBoth(sel: Selector, fd1: int, i1: Interest, fd2: int, i2: Interest) returns (both: bool)
      requires Ready(sel)
      modifies sel, sel.fds
      ensures Ready(sel) && View() == old(View()) && sel.fds == old(sel.fds)
      ensures var (status1, t1) := SetInterest(old(sel.View()), fd1, i1);
              if status1 != Success then !both && sel.View() == t1
              else var (status2, t2) := SetInterest(t1, fd2, i2); both == (status2 == Success) && sel.View() == t2
    {
      hide ClientData.Ready, ClientData.View, ClientData.Valid, SetInterest;
      both := false;
      var status1 := Watch(sel, fd1, i1);
      if status1 == Success {
        var status2 := Watch(sel, fd2, i2);
        both := status2 == Success;
      }
    }

    /** The reply of a connect that succeeds at once. */
    method ReplyAtOnce(ghost sel: Selector, bound: R.SockAddr) returns (failed: int)
      requires Ready(sel) && phase.Requesting?
      modifies Repr()
      ensures Ready(sel) && sel.View() == old(sel.View()) && phase == old(phase)
      ensures var (f, b) := R.Respond(old(request.View()), old(toClient.View()), bound);
              && failed == f
              && View() == C.Answer(old(View()), b, old(request.View()).status, bound).(atOnce := old(View()).atOnce + 1)
    {
      hide ClientData.Ready, ClientData.View, ClientData.Valid, R.Respond;
      failed := Reply(sel, bound);
      CountAtOnce(sel);
    }

    /** History: one more connect has succeeded at once. */
    ghost method CountAtOnce(sel: Selector)
      requires Ready(sel)
      modifies this`log
      ensures Ready(sel) && sel.View() == old(sel.View())
      ensures View() == old(View()).(atOnce := old(View()).atOnce + 1)
    {
      log := log.(atOnce := log.atOnce + 1);
    }

    method ConnectedAtOnce(sel: Selector, key: C.Key, bound: Option<R.SockAddr>) returns (ok: bool, next: C.SocksState)
      requires Ready(sel)
      modifies Repr(), sel, sel.fds
      ensures sel.fds == old(sel.fds)
      ensures Did(sel, C.ConnectedAtOnce(old(View()), old(sel.View()), key, bound), ok, next, false)
    {
      hide ClientData.Ready, ClientData.View, ClientData.Valid, C.AnnounceAtOnce;
      if !phase.Requesting? {
        return false, C.SocksError;
      }
      SetStatus(sel, request.currentState, R.CON_SUCCEEDED);
      if bound == None {
        return true, C.SocksError;
      }
      ok, next := AnnounceAtOnce(sel, key, bound.value);
    }

    method AnnounceAtOnce(sel: Selector, key: C.Key, bound: R.SockAddr) returns (ok: bool, next: C.SocksState)
      requires Ready(sel) && phase.Requesting?
      modifies Repr(), sel, sel.fds
      ensures sel.fds == old(sel.fds)
      ensures Did(sel, C.AnnounceAtOnce(old(View()), old(sel.View()), key, old(request.View()), bound), ok, next, false)
    {
      hide ClientData.Ready, ClientData.View, ClientData.Valid, SetInterest, R.Respond, C.Answer;
      var failed := ReplyAtOnce(sel, bound);
      if failed != 0 {
        return true, C.SocksError;
      }
      var both := WatchBoth(sel, key.fd, OP_WRITE, originFd, OP_READ);
      return true, if both then C.ReqConnect else C.SocksError;
    }

    /** `selector_register` of a new origin descriptor. */
    method Open(sel: Selector, fd: int, id: nat) returns (status: Status)
      requires Ready(sel)
      modifies sel, sel.fds
      ensures Ready(sel) && View() == old(View()) && sel.fds == old(sel.fds)
      ensures (status, sel.View()) == Register(old(sel.View()), fd, OP_NOOP, C.Client(id))
    {
      status := sel.Register(fd, true, OP_NOOP, C.Client(id), true);
    }

    /** What follows `connect`; not settled means: on to the next address. */
    method Connecting(sel: Selector, key: C.Key, result: C.ConnectResult, bound: Option<R.SockAddr>)
      returns (settled: bool, ok: bool, next: C.SocksState)
      requires Ready(sel) && current != []
      modifies Repr(), sel, sel.fds
      ensures sel.fds == old(sel.fds)
      ensures var trial := C.Connecting(old(View()), old(sel.View()), key, result, bound);
              && (settled <==> trial.Settled?)
              && (settled ==> Did(sel, trial.result, ok, next, false))
              && (!settled ==> Ready(sel) && trial == C.TryNext(View(), sel.View()))
    {
      hide C.ConnectedAtOnce;
      settled, ok, next := true, true, C.SocksError;
      match result {
        case Connected => ok, next := ConnectedAtOnce(sel, key, bound);
        case InProgress =>
          var both := WatchBoth(sel, originFd, OP_WRITE, key.fd, OP_NOOP);
          next := if both then C.ReqConnect else C.SocksError;
        case Refused =>
          Skip(sel);
          settled := false;
      }
    }

    method TryAddress(sel: Selector, key: C.Key, attempt: C.Attempt, bound: Option<R.SockAddr>)
      returns (settled: bool, ok: bool, next: C.SocksState)
      requires Ready(sel) && current != []
      modifies Repr(), sel, sel.fds
      ensures sel.fds == old(sel.fds)
      ensures var trial := C.TryAddress(old(View()), old(sel.View()), key, attempt, bound);
              && (settled <==> trial.Settled?)
              && (settled ==> Did(sel, trial.result, ok, next, false))
              && (!settled ==> Ready(sel) && trial == C.TryNext(View(), sel.View()))
    {
      hide ClientData.Ready, ClientData.View, ClientData.Valid, C.Connecting;
      settled, ok, next := false, true, C.SocksError;
      if !attempt.Opened? {
        Skip(sel);
        return;
      }
      var status := Open(sel, attempt.fd, key.id);
      if status != Success {
        Skip(sel);
        return;
      }
      Adopt(sel, attempt.fd);
      settled, ok, next := Connecting(sel, key, attempt.result, bound);
    }

    /** The new descriptor becomes the origin's, and the current address is dialled. */
    method Adopt(ghost sel: Selector, fd: int)
      requires Ready(sel) && current != []
      modifies this`originFd, this`log
      ensures Ready(sel) && sel.View() == old(sel.View())
      ensures View() == old(View()).(originFd := fd, dialed := old(View()).dialed + [current[0]])
    {
      originFd := fd;
      log := log.(dialed := log.dialed + [current[0]]);
    }

    /** On to the next address. */
    method Skip(ghost sel: Selector)
      requires Ready(sel) && current != []
      modifies this`current
      ensures Ready(sel) && sel.View() == old(sel.View())
      ensures View() == old(View()).(current := old(View()).current[1..])
    {
      current := current[1..];
    }

    /** `initiate_origin_connection`, which calls itself for the next address. */
    method InitiateOriginConnection(sel: Selector, key: C.Key, attempts: seq<C.Attempt>, bound: Option<R.SockAddr>)
      returns (ok: bool, next: C.SocksState)
      requires Ready(sel)
      modifies Repr(), sel, sel.fds
      ensures sel.fds == old(sel.fds)
      ensures Did(sel, C.InitiateOriginConnection(old(View()), old(sel.View()), key, attempts, bound), ok, next, false)
      decreases |current|
    {
      hide ClientData.Ready, ClientData.View, ClientData.Valid, C.DropOrigin, C.TryAddress, C.ErrorReply;
      var dropped := DropOrigin(sel, key.id);
      if !dropped {
        return false, C.SocksError;
      }
      if current == [] {
        ok, next := ErrorReply(sel, key, R.CON_HOST_UNREACHABLE);
        return;
      }
      var settled: bool;
      settled, ok, next := TryAddress(sel, key, if attempts == [] then C.NoSocket else attempts[0], bound);
      if !settled {
        ok, next := InitiateOriginConnection(sel, key, if attempts == [] then [] else attempts[1..], bound);
      }
    }

    method RequestResolve(sel: Selector, key: C.Key, k: C.Kernel) returns (ok: bool, next: C.SocksState)
      requires Ready(sel)
      modifies Repr(), sel, sel.fds
      ensures sel.fds == old(sel.fds)
      ensures Did(sel, C.RequestResolve(old(View()), old(sel.View()), key, k), ok, next, false)
    {
      hide C.ErrorReply, C.InitiateOriginConnection;
      if originAddr == None {
        ok, next := ErrorReply(sel, key, R.CON_HOST_UNREACHABLE);
      } else {
        ok, next := InitiateOriginConnection(sel, key, k.attempts, k.bound);
      }
    }

    /** The release in `request_connect`: by address type, `freeaddrinfo` or `free`. */
    method Release(ghost sel: Selector)
      requires Ready(sel) && (originAddr.Some? ==> phase.Requesting?)
      modifies this`originAddr, this`current, this`log
      ensures Ready(sel) && sel.View() == old(sel.View())
      ensures Ok(View()) == C.Release(old(View()))
    {
      if originAddr.Some? {
        var how := if request.atyp == R.DN then C.Getaddrinfo else C.Malloc;
        log := log.(released := log.released + [how]);
        originAddr := None;
        current := [];
      }
    }

    method RequestConnect(sel: Selector, key: C.Key, k: C.Kernel) returns (ok: bool, next: C.SocksState)
      requires Ready(sel)
      modifies Repr(), sel, sel.fds
      ensures sel.fds == old(sel.fds)
      ensures Did(sel, C.RequestConnect(old(View()), old(sel.View()), key, k), ok, next, false)
    {
      hide C.DropOrigin, C.InitiateOriginConnection, C.ErrorReply, R.Respond, C.Answer, C.Release;
      if !phase.Requesting? {
        return false, C.SocksError;
      }
      if !k.soError {
        ok, next := RequestConnected(sel, k);
        return;
      }
      if current == [] {
        return false, C.SocksError;
      }
      var address := current[1..];
      var dropped := DropOrigin(sel, key.id);
      if !dropped {
        return false, C.SocksError;
      }
      if address == [] {
        ok, next := ErrorReply(sel, key, R.CON_HOST_UNREACHABLE);
      } else {
        ok, next := InitiateOriginConnection(sel, key, k.attempts, k.bound);
      }
    }

    /** `request_connect` when the socket has no pending error. */
    method RequestConnected(sel: Selector, k: C.Kernel) returns (ok: bool, next: C.SocksState)
      requires Ready(sel) && phase.Requesting? && !k.soError
      modifies Repr(), sel, sel.fds
      ensures sel.fds == old(sel.fds)
      ensures forall key :: Did(sel, C.RequestConnect(old(View()), old(sel.View()), key, k), ok, next, false)
    {
      hide ClientData.Ready, ClientData.View, ClientData.Valid, SetInterest, R.Respond, C.Answer;
      SetStatus(sel, request.currentState, R.CON_SUCCEEDED);
      Release(sel);
      if k.bound == None {
        return true, C.SocksError;
      }
      var failed := Reply(sel, k.bound.value);
      if failed != 0 {
        return true, C.SocksError;
      }
      var both := WatchBoth(sel, clientFd, OP_WRITE, originFd, OP_READ);
      return true, if both then C.ReqWrite else C.SocksError;
    }

    /** The one-element list that a numeric address becomes. */
    method OfferDirect(ghost sel: Selector, target: C.Target)
      requires Ready(sel)
      modifies this`originAddr, this`current, this`log
      ensures Ready(sel) && sel.View() == old(sel.View()) && View() == C.OfferDirect(old(View()), target)
    {
      hide Buffer.Valid, Buffer.View, A.Parser.Valid, R.Parser.Valid, A.Parser.View, R.Parser.View, N.Parser.View;
      originAddr, current := Some(C.AddressList(C.Malloc, [target])), [target];
      log := log.(offered := [target], obtained := log.obtained + [C.Malloc]);
    }

    method HandleRequest(sel: Selector, key: C.Key, k: C.Kernel) returns (ok: bool, next: C.SocksState, spawned: bool)
      requires Ready(sel)
      modifies Repr(), sel, sel.fds
      ensures sel.fds == old(sel.fds)
      ensures Did(sel, C.HandleRequest(old(View()), old(sel.View()), key, k), ok, next, spawned)
    {
      hide ClientData.Ready, ClientData.View, ClientData.Valid, SetInterest, C.OfferDirect, C.InitiateOriginConnection;
      spawned := false;
      if !phase.Requesting? {
        return false, C.SocksError, false;
      }
      if !k.memory {
        ok, next := ErrorReply(sel, key, R.CON_SERVER_FAILURE);
        return;
      }
      var atyp := request.atyp;
      if atyp == R.IPV4 || atyp == R.IPV6 {
        var bytes := request.address[..if atyp == R.IPV4 then 4 else 16];
        var target := C.Target(atyp, bytes, request.port);
        assert target == C.TargetOf(request.View());
        OfferDirect(sel, target);
        ok, next := InitiateOriginConnection(sel, key, k.attempts, k.bound);
      } else {
        var status := Watch(sel, key.fd, OP_NOOP);
        return true, if status != Success then C.SocksError else C.ReqResolve, true;
      }
    }

    method RequestReady(sel: Selector, key: C.Key, k: C.Kernel) returns (ok: bool, next: C.SocksState, spawned: bool)
      requires Ready(sel)
      modifies Repr(), sel, sel.fds
      ensures sel.fds == old(sel.fds)
      ensures Did(sel, C.RequestReady(old(View()), old(sel.View()), key, k), ok, next, spawned)
    {
      hide ClientData.Ready, ClientData.View, ClientData.Valid, C.TakeIn, C.ParseRequest, C.RefuseRequest, C.HandleRequest;
      spawned := false;
      if !toServer.CanWrite() || k.recv.RecvAgain? {
        return true, C.ReqRead, false;
      }
      if k.recv.RecvFails? || k.recv.bytes == [] {
        return true, C.SocksError, false;
      }
      if !phase.Requesting? {
        return false, C.SocksError, false;
      }
      ReceiveRequest(sel, C.Delivered(k.recv.bytes, toServer.data.Length - toServer.write));
      if !request.IsDone() {
        return true, C.ReqRead, false;
      }
      if request.currentState == R.ReqError {
        ok, next := RefuseRequest(sel, key);
      } else {
        ok, next, spawned := HandleRequest(sel, key, k);
      }
    }

    // -------------------------------------------------------------- stm.c entry points

    /** `handle_first`; the selector does not notice. */
    method Begin(ghost sel: Selector)
      requires Ready(sel)
      modifies Repr()
      ensures Ready(sel) && sel.View() == old(sel.View())
      ensures View() == C.First(old(View()))
    {
      hide C.First;
      First();
    }

    method WriteHandler(sel: Selector, key: C.Key, k: C.Kernel) returns (ok: bool, next: C.SocksState)
      requires Ready(sel) && state.Some? && SM.Write in C.Handlers(state.value)
      modifies Repr(), sel, sel.fds
      ensures sel.fds == old(sel.fds)
      ensures Did(sel, C.WriteHandler(old(View()), old(sel.View()), key, k), ok, next, false)
    {
      hide C.NegotiationSend, C.AuthenticationSend, C.RequestConnect, C.RequestSend, C.CopySend;
      match state.value {
        case NegotiationWrite => ok, next := NegotiationSend(sel, key, k);
        case AuthWrite => ok, next := AuthenticationSend(sel, key, k);
        case ReqConnect => ok, next := RequestConnect(sel, key, k);
        case ReqWrite => ok, next := RequestSend(sel, key, k);
        case Copy => ok, next := CopySend(sel, key, k);
      }
    }

    /** The handler and the jump of `stm_handler_write`. */
    method WriteAndJump(sel: Selector, key: C.Key, k: C.Kernel) returns (ok: bool, next: C.SocksState)
      requires Ready(sel) && state.Some? && SM.Write in C.Handlers(state.value)
      modifies Repr(), sel, sel.fds
      ensures sel.fds == old(sel.fds)
      ensures Did(sel, Finished(C.WriteHandler(old(View()), old(sel.View()), key, k)), ok, next, false)
    {
      hide C.Handlers, ClientData.Ready, ClientData.View, ClientData.Valid, C.WriteHandler, C.Jump;
      ok, next := WriteHandler(sel, key, k);
      if ok {
        JumpTo(sel, next);
      }
    }

    /** `stm_handler_write`. */
    method OnWrite(sel: Selector, key: C.Key, k: C.Kernel) returns (ok: bool, next: C.SocksState)
      requires Ready(sel)
      modifies Repr(), sel, sel.fds
      ensures sel.fds == old(sel.fds)
      ensures Did(sel, C.OnWrite(old(View()), old(sel.View()), key, k), ok, next, false)
    {
      hide C.Handlers, ClientData.Ready, ClientData.View, ClientData.Valid, C.First, C.WriteHandler, C.OnWrite, Finished;
      EventsUnfold(View(), sel.View(), key, k);
      Begin(sel);
      if SM.Write !in C.Handlers(state.value) {
        return false, C.SocksError;
      }
      ok, next := WriteAndJump(sel, key, k);
    }

    method ReadHandler(sel: Selector, key: C.Key, k: C.Kernel) returns (ok: bool, next: C.SocksState, spawned: bool)
      requires Ready(sel) && state.Some? && SM.Read in C.Handlers(state.value)
      modifies Repr(), sel, sel.fds
      ensures sel.fds == old(sel.fds)
      ensures Did(sel, C.ReadHandler(old(View()), old(sel.View()), key, k), ok, next, spawned)
    {
      hide C.NegotiationReady, C.AuthenticationReady, C.RequestReady, C.CopyReady;
      spawned := false;
      match state.value {
        case NegotiationRead => ok, next := NegotiationReady(sel, key, k);
        case AuthRead => ok, next := AuthenticationReady(sel, key, k);
        case ReqRead => ok, next, spawned := RequestReady(sel, key, k);
        case Copy => ok, next := CopyReady(sel, key, k);
      }
    }

    method ReadAndJump(sel: Selector, key: C.Key, k: C.Kernel) returns (ok: bool, next: C.SocksState, spawned: bool)
      requires Ready(sel) && state.Some? && SM.Read in C.Handlers(state.value)
      modifies Repr(), sel, sel.fds
      ensures sel.fds == old(sel.fds)
      ensures Did(sel, Finished(C.ReadHandler(old(View()), old(sel.View()), key, k)), ok, next, spawned)
    {
      hide C.Handlers, ClientData.Ready, ClientData.View, ClientData.Valid, C.ReadHandler, C.Jump;
      ok, next, spawned := ReadHandler(sel, key, k);
      if ok {
        JumpTo(sel, next);
      }
    }

    /** `stm_handler_read`. */
    method OnRead(sel: Selector, key: C.Key, k: C.Kernel) returns (ok: bool, next: C.SocksState, spawned: bool)
      requires Ready(sel)
      modifies Repr(), sel, sel.fds
      ensures sel.fds == old(sel.fds)
      ensures Did(sel, C.OnRead(old(View()), old(sel.View()), key, k), ok, next, spawned)
    {
      hide C.Handlers, ClientData.Ready, ClientData.View, ClientData.Valid, C.First, C.ReadHandler, C.OnRead, Finished;
      EventsUnfold(View(), sel.View(), key, k);
      Begin(sel);
      if SM.Read !in C.Handlers(state.value) {
        return false, C.SocksError, false;
      }
      ok, next, spawned := ReadAndJump(sel, key, k);
    }

    method ResolveAndJump(sel: Selector, key: C.Key, k: C.Kernel) returns (ok: bool, next: C.SocksState)
      requires Ready(sel)
      modifies Repr(), sel, sel.fds
      ensures sel.fds == old(sel.fds)
      ensures Did(sel, Finished(C.RequestResolve(old(View()), old(sel.View()), key, k)), ok, next, false)
    {
      hide ClientData.Ready, ClientData.View, ClientData.Valid, C.RequestResolve, C.Jump;
      ok, next := RequestResolve(sel, key, k);
      if ok {
        JumpTo(sel, next);
      }
    }

    /** `stm_handler_block`. */
    method OnBlock(sel: Selector, key: C.Key, k: C.Kernel) returns (ok: bool, next: C.SocksState)
      requires Ready(sel)
      modifies Repr(), sel, sel.fds
      ensures sel.fds == old(sel.fds)
      ensures Did(sel, C.OnBlock(old(View()), old(sel.View()), key, k), ok, next, false)
    {
      hide ClientData.Ready, ClientData.View, ClientData.Valid, C.First, C.RequestResolve, C.OnBlock, Finished;
      EventsUnfold(View(), sel.View(), key, k);
      Begin(sel);
      if SM.Block !in C.Handlers(state.value) {
        return false, C.SocksError;
      }
      ok, next := ResolveAndJump(sel, key, k);
    }

    // -------------------------------------------------------------- socks5.c, the end of a connection

    /** This object is connection `id` of process `w`, and so is all of the table that its descriptors use. */
    ghost predicate IsIn(w: P.Process, id: nat, sel: Selector)
      reads Repr(), sel, sel.fds
      requires Ready(sel)
    {
      && id in w.conns && w.conns[id] == View() && w.t == sel.View()
      && (forall fd :: fd in w.t && fd != -1 && (fd == clientFd || fd == originFd) ==> w.t[fd].data == C.Client(id))
    }

    /** What a callback did to the process: this object as it is in `r`, live or freed. */
    ghost predicate Ended(sel: Selector, r: Result<P.Process>, id: nat, ok: bool, destroyed: bool)
      reads Repr(), sel, sel.fds
    {
      && (ok <==> r.Ok?)
      && (ok ==>
            && Ready(sel) && r.value.t == sel.View() && destroyed == (id !in r.value.conns)
            && if destroyed then id in r.value.freed && View() == r.value.freed[id] else View() == r.value.conns[id])
    }

    /** `selector_unregister_fd` with `socksv5_close`, and `socksv5_destroy` when both descriptors are gone. */
    method UnregisterFd(sel: Selector, fd: int, ghost w: P.Process, ghost id: nat) returns (ok: bool, destroyed: bool)
      requires Ready(sel) && IsIn(w, id, sel) && fd != -1 && (fd == clientFd || fd == originFd)
      modifies Repr(), sel, sel.fds
      ensures sel.fds == old(sel.fds)
      ensures Ended(sel, P.UnregisterFd(w, fd), id, ok, destroyed)
      ensures ok ==> sel.View() == old(sel.View()) - {fd} && destroyed == (clientFd == -1 && originFd == -1)
      ensures ok && fd == old(clientFd) ==> clientFd == -1 && originFd == old(originFd)
    {
      hide ClientData.Ready, ClientData.View, ClientData.Valid, C.CloseHook, C.Release, P.UnregisterFd;
      UnregisterOwn(w, id, fd);
      ok, destroyed := false, false;
      if !ValidFd(fd) || fd !in sel.View() {
        return;
      }
      HangUp(sel, fd);
      Close(sel, fd);
      if clientFd == -1 && originFd == -1 {
        ReleaseFails(View());
        if originAddr.Some? && !phase.Requesting? {
          return;
        }
        destroyed := true;
        Release(sel);
      }
      ok := true;
    }

    /** `socksv5_done`; `destroyed` says whether this object was freed. */
    method Done(sel: Selector, ghost w: P.Process, ghost id: nat) returns (ok: bool, destroyed: bool)
      requires Ready(sel) && IsIn(w, id, sel)
      modifies Repr(), sel, sel.fds
      ensures sel.fds == old(sel.fds)
      ensures Ended(sel, P.Done(w, id), id, ok, destroyed)
    {
      hide ClientData.Ready, ClientData.View, ClientData.Valid, P.UnregisterFd;
      ok, destroyed := true, false;
      var client, origin := clientFd, originFd;
      P.UnregisterNone(w);
      ghost var w1 := w;
      if client != -1 {
        ok, destroyed := UnregisterFd(sel, client, w, id);
        if !ok {
          return;
        }
        w1 := P.UnregisterFd(w, client).value;
        P.UnregisterNone(w1);
      }
      if origin != -1 {
        ok, destroyed := UnregisterFd(sel, origin, w1, id);
      }
    }

    /** What `socksv5_read`, `_write` and `_block` do with the state that the machine returned. */
    method Settle(sel: Selector, key: C.Key, next: C.SocksState, ghost w: P.Process, ghost r: C.Turn)
      returns (ok: bool, destroyed: bool)
      requires Ready(sel) && r == C.Turn(View(), sel.View(), next, r.spawned) && SI.CameBack(w, key, r)
      modifies Repr(), sel, sel.fds
      ensures sel.fds == old(sel.fds)
      ensures Ended(sel, P.Settle(w, key, r), key.id, ok, destroyed)
    {
      hide ClientData.Ready, ClientData.View, ClientData.Valid, SI.CameBack, P.Done, P.SpawnedBy;
      ok, destroyed := true, false;
      OwnsItsSlots(w, key, r);
      if next == C.SocksError || next == C.SocksDone {
        ok, destroyed := Done(sel, P.AfterTurn(w, key, r), key.id);
      }
    }

    /** `socksv5_read`: the read callback in place is the server's. */
    method SocksRead(sel: Selector, key: C.Key, k: C.Kernel, ghost w: P.Process) returns (ok: bool, destroyed: bool)
      requires Ready(sel) && IsIn(w, key.id, sel)
      requires C.OnRead(w.conns[key.id], w.t, key, k).Ok? ==>
                 SI.CameBack(w, key, C.OnRead(w.conns[key.id], w.t, key, k).value)
      modifies Repr(), sel, sel.fds
      ensures sel.fds == old(sel.fds)
      ensures Ended(sel, P.SocksRead(w, key, k), key.id, ok, destroyed)
    {
      hide ClientData.Ready, ClientData.View, ClientData.Valid, SI.CameBack, P.Settle, C.OnRead;
      var next: C.SocksState;
      var spawned: bool;
      ok, next, spawned := OnRead(sel, key, k);
      destroyed := false;
      if ok {
        ok, destroyed := Settle(sel, key, next, w, C.OnRead(w.conns[key.id], w.t, key, k).value);
      }
    }

    /** `socksv5_write`: the write callback in place is the server's. */
    method SocksWrite(sel: Selector, key: C.Key, k: C.Kernel, ghost w: P.Process) returns (ok: bool, destroyed: bool)
      requires Ready(sel) && IsIn(w, key.id, sel)
      requires C.OnWrite(w.conns[key.id], w.t, key, k).Ok? ==>
                 SI.CameBack(w, key, C.OnWrite(w.conns[key.id], w.t, key, k).value)
      modifies Repr(), sel, sel.fds
      ensures sel.fds == old(sel.fds)
      ensures Ended(sel, P.SocksWrite(w, key, k), key.id, ok, destroyed)
    {
      hide ClientData.Ready, ClientData.View, ClientData.Valid, SI.CameBack, P.Settle, C.OnWrite;
      var next: C.SocksState;
      ok, next := OnWrite(sel, key, k);
      destroyed := false;
      if ok {
        ok, destroyed := Settle(sel, key, next, w, C.OnWrite(w.conns[key.id], w.t, key, k).value);
      }
    }

    /** `socksv5_block`: the block callback in place is the server's. */
    method SocksBlock(sel: Selector, key: C.Key, k: C.Kernel, ghost w: P.Process) returns (ok: bool, destroyed: bool)
      requires Ready(sel) && IsIn(w, key.id, sel)
      requires C.OnBlock(w.conns[key.id], w.t, key, k).Ok? ==>
                 SI.CameBack(w, key, C.OnBlock(w.conns[key.id], w.t, key, k).value)
      modifies Repr(), sel, sel.fds
      ensures sel.fds == old(sel.fds)
      ensures Ended(sel, P.SocksBlock(w, key, k), key.id, ok, destroyed)
    {
      hide ClientData.Ready, ClientData.View, ClientData.Valid, SI.CameBack, P.Settle, C.OnBlock;
      var next: C.SocksState;
      ok, next := OnBlock(sel, key, k);
      destroyed := false;
      if ok {
        ok, destroyed := Settle(sel, key, next, w, C.OnBlock(w.conns[key.id], w.t, key, k).value);
      }
    }
  }

  /** A handler's result and the jump that follows it. */
  function Finished(r: Result<C.Turn>): Result<C.Turn> {
    match r
    case Ok(turn) => Ok(C.Finish(turn))
    case Crashed(why) => Crashed(why)
  }

  lemma EventsUnfold(c: C.Conn, t: C.Slots, key: C.Key, k: C.Kernel)
    ensures C.First(c).state.Some?
    ensures var s := C.First(c).state.value;
            && C.OnWrite(c, t, key, k) == (if SM.Write in C.Handlers(s) then Finished(C.WriteHandler(C.First(c), t, key, k)) else Crashed(MissingHandler))
            && C.OnRead(c, t, key, k) == (if SM.Read in C.Handlers(s) then Finished(C.ReadHandler(C.First(c), t, key, k)) else Crashed(MissingHandler))
            && C.OnBlock(c, t, key, k) == (if SM.Block in C.Handlers(s) then Finished(C.RequestResolve(C.First(c), t, key, k)) else Crashed(MissingHandler))
  {
    hide C.WriteHandler, C.ReadHandler, C.RequestResolve;
  }
}
