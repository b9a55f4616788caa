/** What no step takes back: bytes gone by, ends of stream, and freed objects. */
module ServerHistory {
  import opened Bytes
  import opened Results
  import opened SelectorTable
  import opened Connection
  import opened ConnectionInvariant
  import opened RelayInvariant
  import opened Server
  import opened ServerInvariant
  import opened ServerSafety
  import opened ServerTheorems

  /** Everything known stays known, its streams only grow, and what was freed stays as it was. */
  ghost predicate Later(w: Process, w': Process) {
    forall id :: Known(w, id) ==>
      Known(w', id) && Grows(Record(w, id), Record(w', id)) && (id in w.freed ==> StaysFreed(w, w', id))
  }

  ghost predicate StaysFreed(w: Process, w': Process, id: nat)
    requires id in w.freed
  {
    id !in w'.conns && id in w'.freed && w'.freed[id] == w.freed[id]
  }

  /** Only connection `id` has changed, and it has only grown. */
  ghost predicate OnlyGrew(w: Process, w': Process, id: nat) {
    && id in w.conns && id !in w.freed
    && w'.conns - {id} == w.conns - {id} && w'.freed - {id} == w.freed - {id}
    && Known(w', id) && Grows(w.conns[id], Record(w', id))
  }

  lemma OnlyGrewIsLater(w: Process, w': Process, id: nat)
    requires OnlyGrew(w, w', id) && w.conns.Keys !! w.freed.Keys
    ensures Later(w, w')
  {
    hide Grows;
    forall other | Known(w, other) && other != id
      ensures Known(w', other) && Record(w', other) == Record(w, other)
      ensures other in w.freed ==> StaysFreed(w, w', other)
    {
      assert other in w'.conns <==> other in w'.conns - {id};
      assert other in w.conns <==> other in w.conns - {id};
      assert other in w'.freed <==> other in w'.freed - {id};
      assert other in w.freed <==> other in w.freed - {id};
      if other in w.conns {
        assert (w'.conns - {id})[other] == (w.conns - {id})[other];
      } else {
        assert (w'.freed - {id})[other] == (w.freed - {id})[other];
      }
    }
    GrowsReflexive();
  }

  lemma GrowsReflexive()
    ensures forall c :: Grows(c, c)
  {
  }

  lemma GrowsTransitive(a: Conn, b: Conn, c: Conn)
    requires Grows(a, b) && Grows(b, c)
    ensures Grows(a, c)
  {
  }

  lemma BuriedLast(w: Process, id: nat, c: Conn, t: Slots)
    requires id in w.conns
    ensures var w' := Bury(w, id, c, t);
            && w'.conns - {id} == w.conns - {id} && w'.freed - {id} == w.freed - {id}
            && Known(w', id) && Record(w', id) == c
  {
  }

  lemma TurnGrows(c: Conn, t: Slots, id: nat, r: Turn)
    requires Keeps(c, t, id, Ok(r)) && r.c.state == Some(r.next)
    ensures Grows(c, r.c)
  {
    assert r.c == Jump(r.c, r.next);
  }

  lemma ReplacedGrew(w: Process, key: Key, r: Turn)
    requires key.id in w.conns && key.id !in w.freed && Grows(w.conns[key.id], r.c)
    ensures OnlyGrew(w, AfterTurn(w, key, r), key.id)
  {
    hide Grows;
    assert w.conns[key.id := r.c] - {key.id} == w.conns - {key.id};
  }

  lemma AfterTurnGrew(w: Process, key: Key, r: Turn)
    requires CameBack(w, key, r)
    ensures OnlyGrew(w, AfterTurn(w, key, r), key.id)
  {
    TurnGrows(w.conns[key.id], w.t, key.id, r);
    assert key.id !in w.freed;
    hide Keeps, Grows, CountOk, ConnsOk, JobsOk, LogOk, OnlyGrew;
    ReplacedGrew(w, key, r);
  }

  /** A terminal turn: the connection is buried with what it had, or more. */
  lemma BuriedGrew(w: Process, w1: Process, id: nat, c: Conn, t: Slots)
    requires OnlyGrew(w, w1, id) && id in w1.conns && Grows(w1.conns[id], c)
    ensures OnlyGrew(w, Bury(w1, id, c, t), id)
  {
    GrowsTransitive(w.conns[id], w1.conns[id], c);
    hide Grows;
    BuriedLast(w1, id, c, t);
  }

  lemma SettleGrows(w: Process, key: Key, r: Turn)
    requires CameBack(w, key, r) && Settle(w, key, r).Ok?
    ensures OnlyGrew(w, Settle(w, key, r).value, key.id)
  {
    AfterTurnGrew(w, key, r);
    if Terminal(r.next) {
      var w1 := AfterTurn(w, key, r);
      AfterTurnCloses(w, key, r);
      var c' := DoneBuries(w1, key.id);
      hide Grows, OnlyGrew, CameBack, Closing, Buried;
      BuriedGrew(w, w1, key.id, c', w1.t - {w1.conns[key.id].clientFd, w1.conns[key.id].originFd});
    }
  }

  lemma CallbackIsLater(w: Process, key: Key, r: Turn)
    requires CameBack(w, key, r)
    ensures Settle(w, key, r).Ok? && Later(w, Settle(w, key, r).value)
  {
    SettleKeeps(w, key, r);
    SettleGrows(w, key, r);
    assert w.conns.Keys !! w.freed.Keys;
    hide Settle, CameBack, OnlyGrew;
    OnlyGrewIsLater(w, Settle(w, key, r).value, key.id);
  }

  /** Only the connections matter. */
  lemma LaterByConns(w: Process, w1: Process, w2: Process)
    requires Later(w, w1) && w2.conns == w1.conns && w2.freed == w1.freed
    ensures Later(w, w2)
  {
    hide Grows;
    forall id | Known(w, id)
      ensures Known(w2, id) && Record(w2, id) == Record(w1, id)
    {
      assert Known(w1, id);
    }
  }

  lemma ReadShape(w: Process, fd: int, k: Kernel, r: Turn)
    requires Enabled(w, ReadReady(fd, k))
    requires var key := KeyFor(w, fd);
             key.id in w.conns && OnRead(w.conns[key.id], w.t, key, k) == Ok(r) && Settle(w, key, r).Ok?
    ensures Step(w, ReadReady(fd, k))
         == Ok(Settle(w, KeyFor(w, fd), r).value.(place := AfterRead(KeyFor(w, fd))))
  {
    hide OnRead, Settle;
  }

  lemma ReadGrows(w: Process, fd: int, k: Kernel)
    requires Inv(w) && Enabled(w, ReadReady(fd, k)) && !EndsProcess(w, ReadReady(fd, k))
    ensures Step(w, ReadReady(fd, k)).Ok? && Later(w, Step(w, ReadReady(fd, k)).value)
  {
    hide CameBack, Settle, OnRead, Inv, Later, Step, EndsProcess;
    var key := KeyFor(w, fd);
    ReadComesBack(w, fd, k);
    var r := OnRead(w.conns[key.id], w.t, key, k).value;
    CallbackIsLater(w, key, r);
    ReadShape(w, fd, k, r);
    LaterByConns(w, Settle(w, key, r).value, Step(w, ReadReady(fd, k)).value);
  }

  lemma WriteShape(w: Process, fd: int, k: Kernel, r: Turn)
    requires Enabled(w, WriteReady(fd, k))
    requires var key := KeyFor(w, fd);
             key.id in w.conns && OnWrite(w.conns[key.id], w.t, key, k) == Ok(r) && Settle(w, key, r).Ok?
    ensures Step(w, WriteReady(fd, k)) == Ok(Settle(w, KeyFor(w, fd), r).value.(place := Idle))
  {
    hide OnWrite, Settle;
  }

  lemma WriteGrows(w: Process, fd: int, k: Kernel)
    requires Inv(w) && Enabled(w, WriteReady(fd, k)) && !EndsProcess(w, WriteReady(fd, k))
    ensures Step(w, WriteReady(fd, k)).Ok? && Later(w, Step(w, WriteReady(fd, k)).value)
  {
    hide CameBack, Settle, OnWrite, Inv, Later, Step, EndsProcess;
    var key := KeyFor(w, fd);
    WriteComesBack(w, fd, k);
    var r := OnWrite(w.conns[key.id], w.t, key, k).value;
    CallbackIsLater(w, key, r);
    WriteShape(w, fd, k, r);
    LaterByConns(w, Settle(w, key, r).value, Step(w, WriteReady(fd, k)).value);
  }

  lemma LaterFromConns(w: Process, w1: Process, w': Process)
    requires Later(w1, w') && w.conns == w1.conns && w.freed == w1.freed
    ensures Later(w, w')
  {
    hide Grows;
    forall id | Known(w, id)
      ensures Known(w1, id) && Record(w, id) == Record(w1, id)
    {
    }
  }

  lemma NotifyGrows(w: Process, k: Kernel)
    requires Inv(w) && Enabled(w, NotifyOne(k))
    ensures Step(w, NotifyOne(k)).Ok? && Later(w, Step(w, NotifyOne(k)).value)
  {
    hide CameBack, Settle, OnBlock, ConnsOk, JobsOk, LogOk, CountOk, Later, Keeps, Live;
    var key := Key(w.place.rest[0].fd, w.place.rest[0].id);
    HeadFindsItsConnection(w);
    OnBlockKeeps(w.conns[key.id], w.t, key, k);
    KeptIsOk(w.conns[key.id], w.t, key.id, OnBlock(w.conns[key.id], w.t, key, k));
    var r := OnBlock(w.conns[key.id], w.t, key, k).value;
    ResolvedLeaves(w.conns[key.id], w.t, key.id, r);
    HeadComesBack(w, r);
    CallbackIsLater(AtHead(w), key, r);
    LaterFromConns(w, AtHead(w), Settle(AtHead(w), key, r).value);
  }

  lemma ResolveGrows(w: Process, job: Job, result: seq<Target>)
    requires Inv(w) && Enabled(w, ThreadResolves(job, result)) && Step(w, ThreadResolves(job, result)).Ok?
    ensures Later(w, Step(w, ThreadResolves(job, result)).value)
  {
    hide ConnsOk, JobsOk, LogOk, Buried, SocksRead, SocksWrite, Dispatch, Accept;
    var w' := Step(w, ThreadResolves(job, result)).value;
    assert job.id in w.conns && w'.conns - {job.id} == w.conns - {job.id};
    assert Grows(w.conns[job.id], w'.conns[job.id]);
    hide Grows, StoreAnswer;
    OnlyGrewIsLater(w, w', job.id);
  }

  lemma SameIsLater(w: Process, w': Process)
    requires w'.conns == w.conns && w'.freed == w.freed && w.conns.Keys !! w.freed.Keys
    ensures Later(w, w')
  {
    GrowsReflexive();
    hide Grows;
  }

  lemma AcceptGrows(w: Process, fd: int, prepared: bool)
    requires CountOk(w)
    ensures Later(w, Accept(w, fd, prepared))
  {
    GrowsReflexive();
    hide Grows, Buried, New;
    assert w.nextId !in w.conns && w.nextId !in w.freed;
  }

  /** Actions that touch no connection. */
  predicate Aside(a: Action) {
    !(a.AcceptClient? || a.ReadReady? || a.WriteReady? || a.NotifyOne? || a.ThreadResolves?)
  }

  lemma AsideKeepsConns(w: Process, a: Action)
    requires Enabled(w, a) && Aside(a) && Step(w, a).Ok?
    ensures Step(w, a).value.conns == w.conns && Step(w, a).value.freed == w.freed
  {
    hide SocksRead, SocksWrite, Dispatch, Accept, StoreAnswer, Enabled;
    match a
    case ForeignRegister(_, _) =>
    case ForeignInterest(_, _) =>
    case ForeignUnregister(_) =>
    case NextFd =>
    case ThreadFails(_) =>
    case ThreadNotifies(_, _) =>
    case TakeJobs =>
    case ResetJobs =>
    case Manage(_) =>
  }

  lemma LiveOrFreed(w: Process)
    requires Inv(w)
    ensures w.conns.Keys !! w.freed.Keys
  {
    hide ConnsOk, JobsOk, LogOk, Buried;
  }

  lemma AsideGrows(w: Process, a: Action)
    requires Inv(w) && Enabled(w, a) && Aside(a) && Step(w, a).Ok?
    ensures Later(w, Step(w, a).value)
  {
    hide Inv, Later, Step;
    LiveOrFreed(w);
    AsideKeepsConns(w, a);
    SameIsLater(w, Step(w, a).value);
  }

  lemma StepIsLater(w: Process, a: Action)
    requires Inv(w) && Enabled(w, a) && Step(w, a).Ok?
    ensures Later(w, Step(w, a).value)
  {
    hide Settle, Later, StoreAnswer, SocksRead, SocksWrite, Dispatch, EndsProcess, ConnsOk, JobsOk, LogOk;
    match a {
      case AcceptClient(fd, prepared) =>
        AcceptGrows(w, fd, prepared);
      case ReadReady(fd, k) =>
        StepIsSafe(w, a);
        ReadGrows(w, fd, k);
      case WriteReady(fd, k) =>
        StepIsSafe(w, a);
        WriteGrows(w, fd, k);
      case NotifyOne(k) => NotifyGrows(w, k);
      case ThreadResolves(job, result) => ResolveGrows(w, job, result);
      case _ => AsideGrows(w, a);
    }
  }

  lemma LaterTransitive(a: Process, b: Process, c: Process)
    requires Later(a, b) && Later(b, c)
    ensures Later(a, c)
  {
    hide Grows;
    forall id | Known(a, id)
      ensures Known(c, id) && Grows(Record(a, id), Record(c, id)) && (id in a.freed ==> StaysFreed(a, c, id))
    {
      assert Known(b, id);
      GrowsTransitive(Record(a, id), Record(b, id), Record(c, id));
    }
  }

  /** Over any run: end-of-stream flags stay set, streams only grow, and no freed object comes back. */
  lemma {:induction false} RunIsLater(w: Process, run: seq<Action>)
    requires Inv(w) && CanRun(w, run)
    ensures Later(w, Run(w, run))
    decreases |run|
  {
    hide Inv, Later, Step;
    if run == [] {
      NowIsLater(w);
    } else {
      var w1 := Step(w, run[0]).value;
      StepIsSafe(w, run[0]);
      StepIsLater(w, run[0]);
      RunIsLater(w1, run[1..]);
      LaterTransitive(w, w1, Run(w1, run[1..]));
    }
  }

  lemma NowIsLater(w: Process)
    requires Inv(w)
    ensures Later(w, w)
  {
    hide ConnsOk, JobsOk, LogOk;
    SameIsLater(w, w);
  }
}
