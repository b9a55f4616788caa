/** Connections that wait for what cannot come: exactly which they are, and that they are left as they are for ever. */
module ServerStall {
  import opened Bytes
  import opened Results
  import opened SelectorTable
  import opened Connection
  import opened ConnectionInvariant
  import opened RelayInvariant
  import opened Server
  import opened ServerInvariant
  import opened ServerSafety
  import opened ServerHistory
  import ST = ServerTheorems
  import RP = Replies
  import W = OriginWalk

  /** In REQ_CONNECT with neither descriptor watched for writing, or in REQ_RESOLVE with its job lost. */
  ghost predicate Stalled(w: Process, id: nat) {
    && id in w.conns
    && var c := w.conns[id];
       || (c.state == Some(ReqConnect) && RP.Unwatched(c, w.t))
       || (c.state == Some(ReqResolve) && Job(c.clientFd, id) in w.lost)
  }

  /** The connection and its slots are as they were, and no lost job has been found. */
  ghost predicate Untouched(w: Process, w': Process, id: nat)
    requires id in w.conns
  {
    && id in w'.conns && w'.conns[id] == w.conns[id] && w.lost <= w'.lost
    && (forall fd :: fd in w.t && w.t[fd].data == Client(id) ==> fd in w'.t && w'.t[fd] == w.t[fd])
  }

  lemma UntouchedStalls(w: Process, w': Process, id: nat)
    requires id in w.conns && Live(w.conns[id], id, w.t) && Untouched(w, w', id)
    ensures Stalled(w, id) ==> Stalled(w', id)
    ensures w.conns[id].state == Some(ReqConnect) ==> (Stalled(w, id) <==> Stalled(w', id))
  {
    hide ConnOk;
  }

  lemma UntouchedTransitive(w: Process, w1: Process, w2: Process, id: nat)
    requires id in w.conns && Untouched(w, w1, id) && Untouched(w1, w2, id)
    ensures Untouched(w, w2, id)
  {
  }

  // ---------------------------------------------------------------- steps for others

  lemma OthersLeaveItAlone(w: Process, w': Process, other: nat, id: nat)
    requires id in w.conns && other != id && OnlyGrew(w, w', other) && SameOthers(w.t, w'.t, other) && w'.lost == w.lost
    ensures Untouched(w, w', id)
  {
    hide Grows;
    assert id in w.conns - {other} && id in w'.conns - {other};
    assert (w.conns - {other})[id] == (w'.conns - {other})[id];
  }

  lemma CallbackLeavesItAlone(w: Process, key: Key, r: Turn, id: nat)
    requires CameBack(w, key, r) && id in w.conns && key.id != id
    ensures Settle(w, key, r).Ok? && Untouched(w, Settle(w, key, r).value, id)
    ensures Settle(w, key, r).value.lost == w.lost
  {
    hide Settle, CameBack, OnlyGrew, SameOthers;
    SettleKeeps(w, key, r);
    SettleGrows(w, key, r);
    ST.SettleIsLocal(w, key, r);
    OthersLeaveItAlone(w, Settle(w, key, r).value, key.id, id);
  }

  lemma ReadLeavesItAlone(w: Process, fd: int, k: Kernel, id: nat)
    requires Inv(w) && Enabled(w, ReadReady(fd, k)) && !EndsProcess(w, ReadReady(fd, k))
    requires id in w.conns && KeyFor(w, fd).id != id
    ensures Step(w, ReadReady(fd, k)).Ok? && Untouched(w, Step(w, ReadReady(fd, k)).value, id)
  {
    hide CameBack, Settle, OnRead, Inv, Step, EndsProcess;
    var key := KeyFor(w, fd);
    ReadComesBack(w, fd, k);
    var r := OnRead(w.conns[key.id], w.t, key, k).value;
    CallbackLeavesItAlone(w, key, r, id);
    ReadShape(w, fd, k, r);
  }

  lemma WriteLeavesItAlone(w: Process, fd: int, k: Kernel, id: nat)
    requires Inv(w) && Enabled(w, WriteReady(fd, k)) && !EndsProcess(w, WriteReady(fd, k))
    requires id in w.conns && KeyFor(w, fd).id != id
    ensures Step(w, WriteReady(fd, k)).Ok? && Untouched(w, Step(w, WriteReady(fd, k)).value, id)
  {
    hide CameBack, Settle, OnWrite, Inv, Step, EndsProcess;
    var key := KeyFor(w, fd);
    WriteComesBack(w, fd, k);
    var r := OnWrite(w.conns[key.id], w.t, key, k).value;
    CallbackLeavesItAlone(w, key, r, id);
    WriteShape(w, fd, k, r);
  }

  /** The head of the list has been visited: its connection is out of REQ_RESOLVE, and `id`, if it is another's, untouched. */
  ghost predicate Visited(w: Process, w': Process, id: nat)
    requires id in w.conns && w.place.Notifying? && w.place.rest != []
  {
    && w'.place == Notifying(w.place.rest[1..]) && w'.lost == w.lost
    && if w.place.rest[0].id == id then !Resolving(w'.conns, id) && w.conns[id].state == Some(ReqResolve)
       else Untouched(w, w', id)
  }

  lemma NotifyVisits(w: Process, k: Kernel, id: nat) returns (w': Process)
    requires id in w.conns && w.place.Notifying? && w.place.rest != [] && Enabled(w, NotifyOne(k)) && Inv(w)
    ensures Dispatch(w, k) == Ok(w') && Visited(w, w', id)
  {
    hide CameBack, Settle, OnBlock, ConnsOk, JobsOk, LogOk, CountOk, Keeps, Live;
    var key := Key(w.place.rest[0].fd, w.place.rest[0].id);
    HeadFindsItsConnection(w);
    OnBlockKeeps(w.conns[key.id], w.t, key, k);
    KeptIsOk(w.conns[key.id], w.t, key.id, OnBlock(w.conns[key.id], w.t, key, k));
    var r := OnBlock(w.conns[key.id], w.t, key, k).value;
    ResolvedLeaves(w.conns[key.id], w.t, key.id, r);
    HeadComesBack(w, r);
    SettleKeeps(AtHead(w), key, r);
    ST.SettleIsLocal(AtHead(w), key, r);
    w' := Settle(AtHead(w), key, r).value;
    if key.id != id {
      CallbackLeavesItAlone(AtHead(w), key, r, id);
    } else {
      SettledLeaves(AtHead(w), key, r);
    }
  }

  lemma SettledLeaves(w: Process, key: Key, r: Turn)
    requires CameBack(w, key, r)
    ensures Settle(w, key, r).Ok?
    ensures var conns := Settle(w, key, r).value.conns;
            if Terminal(r.next) then key.id !in conns else key.id in conns && conns[key.id] == r.c && r.c.state == Some(r.next)
  {
    SettleKeeps(w, key, r);
    if Terminal(r.next) {
      AfterTurnCloses(w, key, r);
      hide CameBack, Done;
      DoneKeeps(AfterTurn(w, key, r), key.id);
    }
  }

  lemma ResolveLeavesItAlone(w: Process, job: Job, result: seq<Target>, id: nat)
    requires Enabled(w, ThreadResolves(job, result)) && Step(w, ThreadResolves(job, result)).Ok?
    requires id in w.conns && job.id != id
    ensures Untouched(w, Step(w, ThreadResolves(job, result)).value, id)
  {
    hide StoreAnswer;
  }

  lemma AcceptLeavesItAlone(w: Process, fd: int, prepared: bool, id: nat)
    requires Inv(w) && id in w.conns && fd !in w.t
    ensures Untouched(w, Accept(w, fd, prepared), id)
  {
    hide Buried, JobsOk, LogOk, ConnsOk;
    assert w.nextId !in w.conns;
  }

  /** An action that touches no connection leaves each as it is. */
  lemma AsideLeavesItAlone(w: Process, a: Action, id: nat)
    requires Enabled(w, a) && Aside(a) && Step(w, a).Ok? && id in w.conns
    ensures Untouched(w, Step(w, a).value, id)
  {
    hide SocksRead, SocksWrite, Dispatch, Accept, StoreAnswer;
    AsideKeepsConns(w, a);
  }

  /** The step is a callback of the connection, or its resolver's answer. */
  predicate Concerns(w: Process, a: Action, id: nat) {
    match a
    case ReadReady(fd, _) => OwnedByClient(w.t, fd) && KeyFor(w, fd).id == id
    case WriteReady(fd, _) => OwnedByClient(w.t, fd) && KeyFor(w, fd).id == id
    case NotifyOne(_) => w.place.Notifying? && w.place.rest != [] && w.place.rest[0].id == id
    case ThreadResolves(job, _) => job.id == id
    case _ => false
  }

  /** No other step touches a connection or its slots. */
  lemma StepIsLocal(w: Process, a: Action, id: nat)
    requires Inv(w) && Enabled(w, a) && Step(w, a).Ok? && id in w.conns && !Concerns(w, a, id)
    ensures Untouched(w, Step(w, a).value, id)
  {
    hide Inv, SocksRead, SocksWrite, Dispatch, Accept, StoreAnswer, EndsProcess, Untouched;
    StepIsSafe(w, a);
    match a {
      case AcceptClient(fd, prepared) => AcceptLeavesItAlone(w, fd, prepared, id);
      case ReadReady(fd, k) => ReadLeavesItAlone(w, fd, k, id);
      case WriteReady(fd, k) => WriteLeavesItAlone(w, fd, k, id);
      case NotifyOne(k) => var _ := NotifyVisits(w, k, id);
      case ThreadResolves(job, result) => ResolveLeavesItAlone(w, job, result, id);
      case _ => AsideLeavesItAlone(w, a, id);
    }
  }

  // ---------------------------------------------------------------- a stalled connection

  lemma IsLive(w: Process, id: nat)
    requires Inv(w) && id in w.conns
    ensures Live(w.conns[id], id, w.t)
  {
  }

  /** A stalled connection's job is neither on the list nor with a thread. */
  lemma NobodysJob(w: Process, id: nat)
    requires Inv(w) && Stalled(w, id)
    ensures forall j :: j in Outstanding(w) ==> j.id != id
    ensures forall th :: th in w.threads ==> th.job.id != id
  {
    hide ConnsOk, CountOk, LogOk;
    forall j | j in Outstanding(w) ensures j.id != id {
      assert Awaits(w.conns, j);
    }
    forall th | th in w.threads ensures th.job.id != id {
      assert ThreadOk(w.conns, w.threads, Outstanding(w), th);
      assert th == Thread(th.job, th.resolved);
    }
  }

  lemma StalledIsRead(c: Conn, t: Slots, key: Key)
    requires Live(c, key.id, t) && Dispatched(t, key) && t[key.fd].interest != OP_NOOP
    requires c.state == Some(ReqConnect) ==> RP.Unwatched(c, t)
    ensures c.state == Some(ReqConnect) ==> key.fd == c.originFd && t[key.fd].interest == OP_READ
    ensures c.state != Some(ReqResolve)
  {
    hide ConnOk;
  }

  lemma OnlyReadiness(w: Process, a: Action, id: nat)
    requires Inv(w) && Stalled(w, id) && Enabled(w, a) && Concerns(w, a, id)
    ensures a.ReadReady? || a.WriteReady?
  {
    hide Inv, Stalled;
    NobodysJob(w, id);
  }

  /** An event of a stalled connection can only be data of the origin that it does not wait for: the process ends. */
  lemma StalledEventIsFatal(w: Process, a: Action, id: nat)
    requires Inv(w) && Stalled(w, id) && Enabled(w, a) && Concerns(w, a, id)
    ensures Step(w, a).Crashed? && ST.FatalRead(w, a)
    ensures a.ReadReady? && a.fd in w.t && a.fd == w.conns[id].originFd && w.t[a.fd].interest == OP_READ
  {
    hide Inv, Step, EndsProcess, Live;
    OnlyReadiness(w, a, id);
    OwnedSlot(w, a.fd);
    StalledIsRead(w.conns[id], w.t, KeyFor(w, a.fd));
    ST.CrashesByInv(w, a);
  }

  /** No step that the server survives touches a stalled connection. */
  lemma StallStays(w: Process, a: Action, id: nat)
    requires Inv(w) && Stalled(w, id) && Enabled(w, a) && Step(w, a).Ok?
    ensures Untouched(w, Step(w, a).value, id) && Stalled(Step(w, a).value, id)
  {
    hide Inv, Step, Untouched, Concerns;
    if Concerns(w, a, id) {
      StalledEventIsFatal(w, a, id);
    }
    StepIsLocal(w, a, id);
    IsLive(w, id);
    UntouchedStalls(w, Step(w, a).value, id);
  }

  /** Nor does any run: the client waits in vain. */
  lemma {:induction false} StallIsForEver(w: Process, run: seq<Action>, id: nat)
    requires Inv(w) && Stalled(w, id) && CanRun(w, run)
    ensures Untouched(w, Run(w, run), id) && Stalled(Run(w, run), id)
    decreases |run|
  {
    hide Inv, Step;
    if run != [] {
      var w1 := Step(w, run[0]).value;
      StepIsSafe(w, run[0]);
      StallStays(w, run[0], id);
      StallIsForEver(w1, run[1..], id);
      UntouchedTransitive(w, w1, Run(w1, run[1..]), id);
    }
  }
}
