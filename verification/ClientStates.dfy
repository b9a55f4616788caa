/**
 * `client_actions` of src/server/socks5.c as a table of the engine of src/server/stm.c: what one event does to
 * a connection, nested event included, is what the engine does with this table.
 */
module ClientStates {
  import opened Bytes
  import opened Results
  import opened SelectorTable
  import R = RequestParser
  import opened Connection
  import opened StateMachine

  /** Rows in the order of `enum socks_v5state`. */
  const ROWS: seq<SocksState> := [NegotiationRead, NegotiationWrite, AuthRead, AuthWrite, ReqRead, ReqResolve,
                                  ReqConnect, ReqWrite, Copy, SocksDone, SocksError]

  function Number(s: SocksState): (n: nat)
    ensures n < |ROWS| && ROWS[n] == s
  {
    match s
    case NegotiationRead => 0
    case NegotiationWrite => 1
    case AuthRead => 2
    case AuthWrite => 3
    case ReqRead => 4
    case ReqResolve => 5
    case ReqConnect => 6
    case ReqWrite => 7
    case Copy => 8
    case SocksDone => 9
    case SocksError => 10
  }

  predicate HasArrival(s: SocksState) { s in {NegotiationRead, AuthRead, ReqRead, SocksDone, SocksError} }

  function RowOf(s: SocksState): StateDef { StateDef(Number(s), HasArrival(s), false, Handlers(s)) }

  function ClientActions(): (t: StateMachine.Table)
    ensures t.Valid() && |t.states| == 11
    ensures forall s: SocksState {:trigger Number(s)} :: t.states[Number(s)] == RowOf(s)
  {
    StateMachine.Table(seq(|ROWS|, i requires 0 <= i < |ROWS| => RowOf(ROWS[i])), 0)
  }

  /** The engine's view of a connection. */
  function EngineOf(c: Conn, hooks: seq<Hook>): (m: Machine)
    ensures Positioned(ClientActions(), m)
  {
    Machine(if c.state.Some? then Some(Number(c.state.value)) else None, hooks)
  }

  /** What hooks do to a connection. */
  function Performed(c: Conn, hooks: seq<Hook>): Conn {
    if hooks == [] then c
    else
      var last := hooks[|hooks| - 1];
      var before := Performed(c, hooks[..|hooks| - 1]);
      if last.Arrival? && last.state < |ROWS| then Connection.Arrive(before, ROWS[last.state]) else before
  }

  // ---------------------------------------------------------------- the engine's two moves

  lemma FirstAgrees(c: Conn, hooks: seq<Hook>)
    ensures var m := StateMachine.First(ClientActions(), EngineOf(c, hooks));
            && EngineOf(Connection.First(c), m.hooks) == m
            && Connection.First(c).state.Some?
  {
  }

  lemma ArriveKeepsState(c: Conn, s: SocksState)
    ensures Connection.Arrive(c, s).state == c.state && (!HasArrival(s) ==> Connection.Arrive(c, s) == c)
  {
  }

  /** `jump` enters the state, and initialises exactly the parsers of the arrival hooks it calls. */
  lemma JumpAgrees(c: Conn, next: SocksState, hooks: seq<Hook>)
    requires c.state.Some?
    ensures var r := StateMachine.Jump(ClientActions(), EngineOf(c, hooks), Number(next));
            && r.Ok? && hooks <= r.value.hooks
            && r.value == EngineOf(Connection.Jump(c, next), r.value.hooks)
            && Connection.Jump(c, next) == Performed(c.(state := Some(next)), r.value.hooks[|hooks|..])
  {
    hide ClientActions, Number, Connection.Arrive;
    var t := ClientActions();
    var r := StateMachine.Jump(t, EngineOf(c, hooks), Number(next));
    assert t.states[Number(next)] == RowOf(next);
    assert t.states[Number(c.state.value)] == RowOf(c.state.value);
    var entered := c.(state := Some(next));
    ArriveKeepsState(entered, next);
    var called := r.value.hooks[|hooks|..];
    if c.state.value == next {
      assert called == [];
    } else {
      assert called == t.Arrive(Number(next));
      if called != [] {
        assert called[..|called| - 1] == [];
        assert Performed(entered, []) == entered;
      }
    }
  }

  // ---------------------------------------------------------------- handlers leave the state alone

  /** A handler that raises no event leaves `current` alone, and never aborts for want of a handler. */
  ghost predicate Plain(c: Conn, r: Result<Turn>) {
    match r
    case Ok(turn) => turn.c.state == c.state
    case Crashed(why) => why != MissingHandler
  }

  lemma ErrorReplyPlain(c: Conn, t: Slots, key: Key, reason: byte)
    ensures Plain(c, ErrorReply(c, t, key, reason))
  {
  }

  lemma ConnectedAtOncePlain(c: Conn, t: Slots, key: Key, bound: Option<R.SockAddr>)
    ensures Plain(c, ConnectedAtOnce(c, t, key, bound))
  {
  }

  lemma TryAddressPlain(c: Conn, t: Slots, key: Key, attempt: Attempt, bound: Option<R.SockAddr>)
    requires c.current != []
    ensures match TryAddress(c, t, key, attempt, bound)
            case Settled(r) => Plain(c, r)
            case TryNext(c', _) => c'.state == c.state
  {
    hide ConnectedAtOnce;
    if attempt.Opened? {
      var c1 := c.(originFd := attempt.fd, dialed := c.dialed + [c.current[0]]);
      ConnectedAtOncePlain(c1, Register(t, attempt.fd, OP_NOOP, Client(key.id)).1, key, bound);
    }
  }

  lemma {:induction false} InitiatePlain(c: Conn, t: Slots, key: Key, attempts: seq<Attempt>, bound: Option<R.SockAddr>)
    ensures Plain(c, InitiateOriginConnection(c, t, key, attempts, bound))
    decreases |c.current|
  {
    hide TryAddress, ErrorReply;
    var dropped := DropOrigin(c, t, key.id);
    if dropped.Ok? {
      var (c1, t1) := dropped.value;
      ErrorReplyPlain(c1, t1, key, R.CON_HOST_UNREACHABLE);
      if c1.current != [] {
        var attempt := if attempts == [] then NoSocket else attempts[0];
        TryAddressPlain(c1, t1, key, attempt, bound);
        match TryAddress(c1, t1, key, attempt, bound)
        case Settled(_) =>
        case TryNext(c2, t2) => InitiatePlain(c2, t2, key, if attempts == [] then [] else attempts[1..], bound);
      }
    }
  }

  lemma ConnectedPlain(c: Conn, t: Slots, key: Key, k: Kernel)
    requires !k.soError
    ensures Plain(c, RequestConnect(c, t, key, k))
  {
    hide InitiateOriginConnection, ErrorReply, DropOrigin, R.Respond, R.Reply, SetInterest;
  }

  lemma FailedPlain(c: Conn, t: Slots, key: Key, k: Kernel)
    requires k.soError
    ensures Plain(c, RequestConnect(c, t, key, k))
  {
    hide InitiateOriginConnection, ErrorReply, Release, Answer, R.Respond, R.Reply, SetInterest;
    var dropped := DropOrigin(c, t, key.id);
    if dropped.Ok? {
      var (c1, t1) := dropped.value;
      ErrorReplyPlain(c1, t1, key, R.CON_HOST_UNREACHABLE);
      InitiatePlain(c1, t1, key, k.attempts, k.bound);
    }
  }

  lemma RequestConnectPlain(c: Conn, t: Slots, key: Key, k: Kernel)
    ensures Plain(c, RequestConnect(c, t, key, k))
  {
    hide RequestConnect, Plain;
    if k.soError {
      FailedPlain(c, t, key, k);
    } else {
      ConnectedPlain(c, t, key, k);
    }
  }

  lemma RequestResolvePlain(c: Conn, t: Slots, key: Key, k: Kernel)
    ensures Plain(c, RequestResolve(c, t, key, k))
  {
    ErrorReplyPlain(c, t, key, R.CON_HOST_UNREACHABLE);
    InitiatePlain(c, t, key, k.attempts, k.bound);
  }

  lemma RefuseRequestPlain(c: Conn, t: Slots, key: Key)
    ensures Plain(c, RefuseRequest(c, t, key))
  {
    hide R.Respond, R.Reply, SetInterest;
  }

  lemma HandleRequestPlain(c: Conn, t: Slots, key: Key, k: Kernel)
    ensures Plain(c, HandleRequest(c, t, key, k))
  {
    hide InitiateOriginConnection, ErrorReply, SetInterest;
    ErrorReplyPlain(c, t, key, R.CON_SERVER_FAILURE);
    if c.handshake.InRequest? {
      InitiatePlain(OfferDirect(c, TargetOf(c.handshake.req)), t, key, k.attempts, k.bound);
    }
  }

  lemma RequestReadyPlain(c: Conn, t: Slots, key: Key, k: Kernel)
    ensures Plain(c, RequestReady(c, t, key, k))
  {
    hide HandleRequest, RefuseRequest, SetInterest, R.Parse;
    if c.toServer.Space() > 0 && k.recv.Data? && c.handshake.InRequest? {
      var c1 := ParseRequest(TakeIn(c, Delivered(k.recv.bytes, c.toServer.Space())), c.handshake.req);
      RefuseRequestPlain(c1, t, key);
      HandleRequestPlain(c1, t, key, k);
    }
  }

  lemma CopySendPlain(c: Conn, t: Slots, key: Key, k: Kernel)
    ensures Plain(c, CopySend(c, t, key, k))
  {
  }

  lemma NegotiationSendPlain(c: Conn, t: Slots, key: Key, k: Kernel)
    ensures Plain(c, NegotiationSend(c, t, key, k))
  {
    hide SetInterest;
  }

  lemma AuthenticationSendPlain(c: Conn, t: Slots, key: Key, k: Kernel)
    ensures Plain(c, AuthenticationSend(c, t, key, k))
  {
    hide SetInterest;
  }

  lemma RequestSendPlain(c: Conn, t: Slots, key: Key, k: Kernel)
    ensures Plain(c, RequestSend(c, t, key, k))
  {
    hide SetInterest, HasRow;
  }

  lemma WriteHandlerPlain(c: Conn, t: Slots, key: Key, k: Kernel)
    requires c.state.Some? && Write in Handlers(c.state.value)
    ensures Plain(c, WriteHandler(c, t, key, k))
  {
    hide RequestConnect, CopySend, NegotiationSend, AuthenticationSend, RequestSend;
    NegotiationSendPlain(c, t, key, k);
    AuthenticationSendPlain(c, t, key, k);
    RequestSendPlain(c, t, key, k);
    RequestConnectPlain(c, t, key, k);
    CopySendPlain(c, t, key, k);
  }

  // ---------------------------------------------------------------- events

  /** `r` is what the engine makes of event `e` on `c`. */
  ghost predicate EngineDoes(c: Conn, hooks: seq<Hook>, e: Event, r: Result<Turn>) {
    match r
    case Ok(turn) =>
      var m := Handle(ClientActions(), EngineOf(c, hooks), e);
      e.next == Number(turn.next) && m.Ok? && m.value == EngineOf(turn.c, m.value.hooks)
    case Crashed(MissingHandler) => Handle(ClientActions(), EngineOf(c, hooks), e) == Crashed(MissingHandler)
    case Crashed(_) => true
  }

  function NextOf(r: Result<Turn>): nat { if r.Ok? then Number(r.value.next) else 0 }

  /** An event whose handler raises none. */
  lemma PlainEvent(c: Conn, hooks: seq<Hook>, kind: Kind, r: Result<Turn>)
    requires kind in Handlers(Connection.First(c).state.value)
    requires Plain(Connection.First(c), r)
    ensures r.Ok? ==> EngineDoes(c, hooks, Event(kind, [], Number(r.value.next)), Ok(Finish(r.value)))
  {
    hide Connection.First, StateMachine.First, StateMachine.Jump, Connection.Jump;
    FirstAgrees(c, hooks);
    var m1 := StateMachine.First(ClientActions(), EngineOf(c, hooks));
    assert ClientActions().states[m1.current.value] == RowOf(Connection.First(c).state.value);
    if r.Ok? {
      JumpAgrees(r.value.c, r.value.next, m1.hooks);
      assert HandleAll(ClientActions(), m1, []) == Ok(m1);
    }
  }

  lemma NoHandler(c: Conn, hooks: seq<Hook>, e: Event)
    requires e.kind !in Handlers(Connection.First(c).state.value)
    ensures Handle(ClientActions(), EngineOf(c, hooks), e) == Crashed(MissingHandler)
  {
    FirstAgrees(c, hooks);
    var m1 := StateMachine.First(ClientActions(), EngineOf(c, hooks));
    assert ClientActions().states[m1.current.value] == RowOf(Connection.First(c).state.value);
  }

  lemma OnWriteIsTheEngines(c: Conn, t: Slots, key: Key, k: Kernel, hooks: seq<Hook>)
    ensures var r := OnWrite(c, t, key, k); EngineDoes(c, hooks, Event(Write, [], NextOf(r)), r)
  {
    hide WriteHandler, Handle, Connection.First;
    var c1 := Connection.First(c);
    FirstAgrees(c, hooks);
    if Write in Handlers(c1.state.value) {
      WriteHandlerPlain(c1, t, key, k);
      PlainEvent(c, hooks, Write, WriteHandler(c1, t, key, k));
    } else {
      NoHandler(c, hooks, Event(Write, [], 0));
    }
  }

  lemma OnBlockIsTheEngines(c: Conn, t: Slots, key: Key, k: Kernel, hooks: seq<Hook>)
    ensures var r := OnBlock(c, t, key, k); EngineDoes(c, hooks, Event(Block, [], NextOf(r)), r)
  {
    hide RequestResolve, Handle, Connection.First;
    var c1 := Connection.First(c);
    FirstAgrees(c, hooks);
    if Block in Handlers(c1.state.value) {
      RequestResolvePlain(c1, t, key, k);
      PlainEvent(c, hooks, Block, RequestResolve(c1, t, key, k));
    } else {
      NoHandler(c, hooks, Event(Block, [], 0));
    }
  }

  /** `copy_read` either raises no event, or hands over to a write event and returns what that returns. */
  lemma CopyReadyEither(c: Conn, t: Slots, key: Key, k: Kernel) returns (nests: bool, c2: Conn, t2: Slots, key2: Key)
    ensures if nests then CopyReady(c, t, key, k) == OnWrite(c2, t2, key2, k) && c2.state == c.state
            else Plain(c, CopyReady(c, t, key, k))
  {
    hide OnWrite;
    nests, c2, t2, key2 := false, c, t, key;
    var fromClient := key.fd == c.clientFd;
    var (target, over) := if fromClient then (c.originFd, c.originEof) else (c.clientFd, c.clientEof);
    var space := ToFill(c, fromClient).Space();
    if key.fd in {c.clientFd, c.originFd} && space > 0 && k.recv.Data? && k.recv.bytes != [] && !over {
      var t1 := SetInterest(t, target, OP_WRITE).1;
      if target in t1 && t1[target].data == Client(key.id) {
        return true, Fill(c, fromClient, Delivered(k.recv.bytes, space)), t1, Key(target, key.id);
      }
    }
  }

  lemma JumpLands(c: Conn, next: SocksState)
    ensures Connection.Jump(c, next).state == Some(next)
  {
  }

  /** A turn that has landed in its next state is not moved by a second jump there. */
  lemma FinishTwice(c: Conn, t: Slots, key: Key, k: Kernel)
    ensures var r := OnWrite(c, t, key, k);
            r.Ok? ==> r.value.c.state == Some(r.value.next) && Finish(r.value) == r.value
  {
    hide WriteHandler, Connection.First;
    FirstAgrees(c, []);
    var c1 := Connection.First(c);
    if Write in Handlers(c1.state.value) {
      var r := WriteHandler(c1, t, key, k);
      if r.Ok? {
        JumpLands(r.value.c, r.value.next);
      }
    }
  }

  lemma NegotiationReadyPlain(c: Conn, t: Slots, key: Key, k: Kernel)
    ensures Plain(c, NegotiationReady(c, t, key, k))
  {
  }

  lemma AuthenticationReadyPlain(c: Conn, t: Slots, key: Key, k: Kernel)
    ensures Plain(c, AuthenticationReady(c, t, key, k))
  {
  }

  lemma CopyHandlesReads(c: Conn, t: Slots, key: Key, k: Kernel)
    requires c.state == Some(Copy)
    ensures ReadHandler(c, t, key, k) == CopyReady(c, t, key, k)
  {
    hide CopyReady;
  }

  lemma ReadHandlerPlain(c: Conn, t: Slots, key: Key, k: Kernel)
    requires c.state.Some? && Read in Handlers(c.state.value) && c.state.value != Copy
    ensures Plain(c, ReadHandler(c, t, key, k))
  {
    hide RequestReady, NegotiationReady, AuthenticationReady;
    NegotiationReadyPlain(c, t, key, k);
    AuthenticationReadyPlain(c, t, key, k);
    RequestReadyPlain(c, t, key, k);
  }

  /** The relay's read event, when it nests a write event. */
  lemma NestedRead(c: Conn, t: Slots, key: Key, k: Kernel, hooks: seq<Hook>, c2: Conn, t2: Slots, key2: Key)
    requires c.state == Some(Copy) && CopyReady(c, t, key, k) == OnWrite(c2, t2, key2, k) && c2.state == c.state
    ensures var r := OnRead(c, t, key, k);
            EngineDoes(c, hooks, Event(Read, if r.Ok? then [Event(Write, [], NextOf(r))] else [], NextOf(r)), r)
            && r != Crashed(MissingHandler)
  {
    hide OnWrite, CopyReady, Handle, Connection.Jump, ClientActions;
    var inner := OnWrite(c2, t2, key2, k);
    NestedNeverMisses(c2, t2, key2, k);
    CopyHandlesReads(c, t, key, k);
    if inner.Ok? {
      OnWriteIsTheEngines(c2, t2, key2, k, hooks);
      FinishTwice(c2, t2, key2, k);
      assert OnRead(c, t, key, k) == inner;
      assert EngineOf(c2, hooks) == EngineOf(c, hooks);
      assert ClientActions().states[Number(Copy)] == RowOf(Copy);
      ReturningTheNestedResult(ClientActions(), EngineOf(c, hooks), Read, Event(Write, [], NextOf(inner)));
    }
  }

  lemma NestedNeverMisses(c: Conn, t: Slots, key: Key, k: Kernel)
    requires c.state == Some(Copy)
    ensures OnWrite(c, t, key, k) != Crashed(MissingHandler)
  {
    hide WriteHandler;
    WriteHandlerPlain(c, t, key, k);
  }

  /** A read event is the engine's, with at most one write event nested in it, in COPY. */
  lemma OnReadIsTheEngines(c: Conn, t: Slots, key: Key, k: Kernel, hooks: seq<Hook>) returns (nested: seq<Event>)
    ensures nested == [] || (c.state == Some(Copy) && nested == [Event(Write, [], NextOf(OnRead(c, t, key, k)))])
    ensures var r := OnRead(c, t, key, k); EngineDoes(c, hooks, Event(Read, nested, NextOf(r)), r)
  {
    hide ReadHandler, Handle, CopyReady, OnWrite;
    nested := [];
    var c1 := Connection.First(c);
    FirstAgrees(c, hooks);
    if Read !in Handlers(c1.state.value) {
      NoHandler(c, hooks, Event(Read, [], 0));
    } else if c1.state.value != Copy {
      ReadHandlerPlain(c1, t, key, k);
      PlainEvent(c, hooks, Read, ReadHandler(c1, t, key, k));
    } else {
      assert c1 == c;
      var nests, c2, t2, key2 := CopyReadyEither(c, t, key, k);
      if nests {
        NestedRead(c, t, key, k, hooks, c2, t2, key2);
        var r := OnRead(c, t, key, k);
        nested := if r.Ok? then [Event(Write, [], NextOf(r))] else [];
      } else {
        CopyHandlesReads(c, t, key, k);
        PlainEvent(c, hooks, Read, ReadHandler(c, t, key, k));
      }
    }
  }

  // ---------------------------------------------------------------- what that gives

  /** The hooks called on the connection so far are those of one path of states. */
  ghost predicate OnPath(c: Conn, hooks: seq<Hook>, p: Path) { Chain(ClientActions(), EngineOf(c, hooks), p) }

  /** Any event that comes back extends the connection's path: each state entered is a different one, once. */
  lemma EventExtendsThePath(c: Conn, t: Slots, key: Key, k: Kernel, kind: Kind, hooks: seq<Hook>, p: Path)
    returns (hooks': seq<Hook>, p': Path)
    requires OnPath(c, hooks, p)
    requires Handled(c, t, key, k, kind).Ok?
    ensures var turn := Handled(c, t, key, k, kind).value;
            OnPath(turn.c, hooks', p') && Extends(p', p) && p'.To? && p'.state == Number(turn.next)
  {
    hide OnRead, OnWrite, OnBlock, Handle, ClientActions;
    var r := Handled(c, t, key, k, kind);
    var nested: seq<Event> := [];
    match kind {
      case Read => nested := OnReadIsTheEngines(c, t, key, k, hooks);
      case Write => OnWriteIsTheEngines(c, t, key, k, hooks);
      case Block => OnBlockIsTheEngines(c, t, key, k, hooks);
    }
    var e := Event(kind, nested, Number(r.value.next));
    p' := HandleExtends(ClientActions(), EngineOf(c, hooks), e, p);
    hooks' := Handle(ClientActions(), EngineOf(c, hooks), e).value.hooks;
  }

  function Handled(c: Conn, t: Slots, key: Key, k: Kernel, kind: Kind): Result<Turn> {
    match kind
    case Read => OnRead(c, t, key, k)
    case Write => OnWrite(c, t, key, k)
    case Block => OnBlock(c, t, key, k)
  }
}
