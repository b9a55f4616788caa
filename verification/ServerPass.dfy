/** The selector's two loops on the whole server: a pass over ready descriptors and a drain of the job list are runs. */
module ServerPass {
  import opened Bytes
  import opened Results
  import opened SelectorTable
  import opened Connection
  import opened ConnectionInvariant
  import opened RelayInvariant
  import opened Server
  import opened ServerInvariant
  import opened ServerSafety
  import S = Selectors

  /**
   * What `pselect` reported; what the kernel will answer to the callbacks that follow; and what the callbacks of passive
   * sockets and of managers' will do.
   */
  datatype Report = Report(readable: set<int>, writable: set<int>, read: (Process, int) -> Kernel,
                           write: (Process, int) -> Kernel, block: Process -> Kernel,
                           foreign: (Process, int, S.Kind) -> seq<Action>)

  /** The answers are ones a kernel can give. */
  ghost predicate Possible(e: Report) {
    && (forall w: Process, fd: int {:trigger e.read(w, fd)} ::
          w.place == Idle && OwnedByClient(w.t, fd) && w.t[fd].interest.read ==> Enabled(w, ReadReady(fd, e.read(w, fd))))
    && (forall w: Process, fd: int {:trigger e.write(w, fd)} ::
          (w.place == Idle || (w.place.AfterRead? && w.place.key.fd == fd)) && OwnedByClient(w.t, fd) && w.t[fd].interest.write ==>
            Enabled(w, WriteReady(fd, e.write(w, fd))))
    && (forall w: Process {:trigger e.block(w)} ::
          w.place.Notifying? && w.place.rest != [] ==> Enabled(w, NotifyOne(e.block(w))))
  }

  // ---------------------------------------------------------------- handle_iteration

  /** What the callback of a foreign socket `fd` may do: accept, and manage its like and the users. */
  predicate OfForeign(a: Action, fd: int) {
    match a
    case AcceptClient(client, _) => client != fd
    case ForeignRegister(_, _) => true
    case ForeignInterest(_, _) => true
    case ForeignUnregister(_) => true
    case Manage(_) => true
    case _ => false
  }

  /** One action after the other, as far as each is possible. */
  ghost function ForeignCallback(w: Process, fd: int, actions: seq<Action>): Result<Process>
    decreases |actions|
  {
    if actions == [] then Ok(w)
    else if !OfForeign(actions[0], fd) || !Enabled(w, actions[0]) then ForeignCallback(w, fd, actions[1..])
    else
      var w1 :- Step(w, actions[0]);
      ForeignCallback(w1, fd, actions[1..])
  }

  /** The handler of slot `i`, called with the attachment that the loop has read. */
  ghost function Handle(w: Process, e: Report, kind: S.Kind, i: int, data: Owner): Result<Process> {
    match data
    case Other => ForeignCallback(w, i, e.foreign(w, i, kind))
    case Client(id) =>
      if kind == S.Reading then
        var w1 :- SocksRead(w, Key(i, id), e.read(w, i));
        Ok(w1.(place := AfterRead(Key(i, id))))
      else
        var w1 :- SocksWrite(w, Key(i, id), e.write(w, i));
        Ok(w1.(place := Idle))
  }

  ghost function VisitRead(w: Process, e: Report, i: int): Result<Process>
    requires i in w.t
  {
    if i in e.readable && w.t[i].interest.read then Handle(w, e, S.Reading, i, w.t[i].data) else Ok(w)
  }

  ghost function VisitWrite(w: Process, e: Report, i: int, data: Owner): Result<Process> {
    if i in e.writable && i in w.t && w.t[i].interest.write then Handle(w, e, S.Writing, i, data) else Ok(w)
  }

  /** One turn of the loop: the attachment is read once, then each handler is called if its event is wanted. */
  ghost function Visit(w: Process, e: Report, i: int): Result<Process> {
    if i !in w.t then Ok(w)
    else
      var w1 :- VisitRead(w, e, i);
      var w2 :- VisitWrite(w1, e, i, w.t[i].data);
      Ok(w2.(place := Idle))
  }

  ghost function Pass(w: Process, e: Report, i: int, n: int): Result<Process>
    decreases n + 1 - i
  {
    if i > n then Ok(w)
    else
      var w1 :- Visit(w, e, i);
      Pass(w1, e, i + 1, n)
  }

  /** `run` leads from `w` to what `r` says: to its process, or to one whose next step is fatal. */
  ghost predicate Leads(w: Process, run: seq<Action>, r: Result<Process>) {
    && CanRun(w, run)
    && match r
       case Ok(w') => Run(w, run) == w'
       case Crashed(why) => exists a :: Enabled(Run(w, run), a) && Step(Run(w, run), a) == Crashed(why)
  }

  lemma {:induction false} RunsJoin(w: Process, run: seq<Action>, more: seq<Action>)
    requires CanRun(w, run) && CanRun(Run(w, run), more)
    ensures CanRun(w, run + more) && Run(w, run + more) == Run(Run(w, run), more)
    decreases |run|
  {
    hide Enabled, Step;
    if run == [] {
      assert [] + more == more;
    } else {
      RunsJoin(Step(w, run[0]).value, run[1..], more);
      assert (run + more)[1..] == run[1..] + more;
    }
  }

  lemma LeadsOn(w: Process, run: seq<Action>, w1: Process, more: seq<Action>, r: Result<Process>)
    requires Leads(w, run, Ok(w1)) && Leads(w1, more, r)
    ensures Leads(w, run + more, r)
  {
    hide Enabled, Step;
    RunsJoin(w, run, more);
  }

  lemma OneStep(w: Process, a: Action)
    requires Enabled(w, a) && Step(w, a).Ok?
    ensures Leads(w, [a], Step(w, a))
  {
    hide Enabled, Step;
    var w1 := Step(w, a).value;
    assert [a][1..] == [];
    assert CanRun(w1, []) && Run(w1, []) == w1;
  }

  lemma NoStep(w: Process)
    ensures Leads(w, [], Ok(w))
  {
  }

  lemma FatalStep(w: Process, a: Action)
    requires Enabled(w, a) && Step(w, a).Crashed?
    ensures Leads(w, [], Crashed(Step(w, a).why))
  {
    hide Enabled, Step;
    assert Run(w, []) == w;
  }

  predicate NotAClient(t: Slots, fd: int) { fd in t ==> t[fd].data == Other }

  lemma {:induction false} ForeignIsARun(w: Process, fd: int, actions: seq<Action>) returns (run: seq<Action>)
    requires Inv(w) && w.place == Idle
    ensures Leads(w, run, ForeignCallback(w, fd, actions))
    ensures var r := ForeignCallback(w, fd, actions);
            r.Ok? ==> Inv(r.value) && r.value.place == Idle && (NotAClient(w.t, fd) ==> NotAClient(r.value.t, fd))
    decreases |actions|
  {
    hide Inv, Leads, Enabled, Step;
    if actions == [] {
      run := [];
      NoStep(w);
    } else if !OfForeign(actions[0], fd) || !Enabled(w, actions[0]) {
      run := ForeignIsARun(w, fd, actions[1..]);
    } else if Step(w, actions[0]).Ok? {
      var w1 := Step(w, actions[0]).value;
      StepIsSafe(w, actions[0]);
      ForeignStepKeeps(w, fd, actions[0]);
      OneStep(w, actions[0]);
      var more := ForeignIsARun(w1, fd, actions[1..]);
      LeadsOn(w, [actions[0]], w1, more, ForeignCallback(w1, fd, actions[1..]));
      run := [actions[0]] + more;
    } else {
      run := [];
      FatalStep(w, actions[0]);
    }
  }

  lemma ForeignStepKeeps(w: Process, fd: int, a: Action)
    requires OfForeign(a, fd) && Enabled(w, a) && Step(w, a).Ok?
    ensures Step(w, a).value.place == Idle
    ensures NotAClient(w.t, fd) ==> NotAClient(Step(w, a).value.t, fd)
  {
  }

  /** A handler is called for an event that its slot wants, with the slot's attachment. */
  ghost predicate CanHandle(w: Process, kind: S.Kind, i: int, data: Owner) {
    && Inv(w) && i in w.t && w.t[i].data == data
    && (if kind == S.Reading then w.t[i].interest.read else w.t[i].interest.write)
    && (w.place == Idle || (kind == S.Writing && data.Client? && w.place == AfterRead(Key(i, data.id))))
  }

  /** After the handler: where the selector's thread is, and whose the slot is. */
  ghost predicate Handled(w: Process, kind: S.Kind, i: int, data: Owner) {
    && Inv(w) && w.place == (if kind == S.Reading && data.Client? then AfterRead(Key(i, data.id)) else Idle)
    && (kind == S.Reading && i in w.t ==> w.t[i].data == data)
  }

  lemma HandleIsARun(w: Process, e: Report, kind: S.Kind, i: int, data: Owner) returns (run: seq<Action>)
    requires CanHandle(w, kind, i, data) && Possible(e)
    ensures Leads(w, run, Handle(w, e, kind, i, data))
    ensures Handle(w, e, kind, i, data).Ok? ==> Handled(Handle(w, e, kind, i, data).value, kind, i, data)
  {
    hide Inv, SocksRead, SocksWrite, Leads, EndsProcess;
    match data {
      case Other => run := ForeignIsARun(w, i, e.foreign(w, i, kind));
      case Client(id) =>
        var key := Key(i, id);
        var a := if kind == S.Reading then ReadReady(i, e.read(w, i)) else WriteReady(i, e.write(w, i));
        assert Enabled(w, a) && KeyFor(w, i) == key;
        assert Handle(w, e, kind, i, data) == Step(w, a);
        StepIsSafe(w, a);
        run := if Step(w, a).Ok? then [a] else [];
        if Step(w, a).Ok? {
          OneStep(w, a);
          if kind == S.Reading {
            KeyStays(Step(w, a).value, key);
          }
        } else {
          FatalStep(w, a);
        }
    }
  }

  lemma VisitReadIsARun(w: Process, e: Report, i: int) returns (run: seq<Action>)
    requires Inv(w) && Possible(e) && w.place == Idle && i in w.t
    ensures Leads(w, run, VisitRead(w, e, i))
    ensures VisitRead(w, e, i).Ok? ==> Read(VisitRead(w, e, i).value, i, w.t[i].data)
  {
    hide Inv, Handle, Leads, Possible;
    if i in e.readable && w.t[i].interest.read {
      run := HandleIsARun(w, e, S.Reading, i, w.t[i].data);
    } else {
      run := [];
      NoStep(w);
    }
  }

  /** Between the two halves of a turn. */
  ghost predicate Read(w: Process, i: int, data: Owner) {
    && Inv(w) && (w.place == Idle || (data.Client? && w.place == AfterRead(Key(i, data.id))))
    && (i in w.t ==> w.t[i].data == data)
  }

  lemma VisitWriteIsARun(w: Process, e: Report, i: int, data: Owner) returns (run: seq<Action>)
    requires Read(w, i, data) && Possible(e)
    ensures var r := VisitWrite(w, e, i, data);
            Leads(w, run, if r.Ok? then Ok(r.value.(place := Idle)) else r)
  {
    hide Inv, Handle, Leads, Possible;
    if i in e.writable && i in w.t && w.t[i].interest.write {
      run := HandleIsARun(w, e, S.Writing, i, data);
      var r := Handle(w, e, S.Writing, i, data);
      assert r.Ok? ==> r.value.(place := Idle) == r.value;
    } else if w.place == Idle {
      run := [];
      assert w.(place := Idle) == w;
      NoStep(w);
    } else {
      run := [NextFd];
      OneStep(w, NextFd);
    }
  }

  lemma VisitIsARun(w: Process, e: Report, i: int) returns (run: seq<Action>)
    requires Inv(w) && Possible(e) && w.place == Idle
    ensures Leads(w, run, Visit(w, e, i))
    ensures Visit(w, e, i).Ok? ==> Visit(w, e, i).value.place == Idle
  {
    hide Inv, VisitRead, VisitWrite, Leads, Possible;
    if i !in w.t {
      run := [];
      NoStep(w);
    } else {
      run := VisitReadIsARun(w, e, i);
      var r := VisitRead(w, e, i);
      if r.Ok? {
        var more := VisitWriteIsARun(r.value, e, i, w.t[i].data);
        LeadsOn(w, run, r.value, more, Visit(w, e, i));
        run := run + more;
      } else {
        FatalIsFatal(w, run, r);
      }
    }
  }

  lemma KeyStays(w: Process, key: Key)
    requires Inv(w) && w.place == AfterRead(key)
    ensures key.fd in w.t ==> w.t[key.fd].data == Client(key.id)
  {
  }

  lemma {:induction false} RunKeepsInv(w: Process, run: seq<Action>, w': Process)
    requires Inv(w) && Leads(w, run, Ok(w'))
    ensures Inv(w')
  {
    hide Inv, Enabled, Step;
    RunIsSafe(w, run);
  }

  /** One pass over the ready descriptors, whatever the callbacks do, is a run of the server. */
  lemma {:induction false} PassIsARun(w: Process, e: Report, i: int, n: int) returns (run: seq<Action>)
    requires Inv(w) && Possible(e) && w.place == Idle
    ensures Leads(w, run, Pass(w, e, i, n))
    ensures Pass(w, e, i, n).Ok? ==> Pass(w, e, i, n).value.place == Idle
    decreases n + 1 - i
  {
    hide Inv, Leads, Visit, Possible;
    if i > n {
      run := [];
      NoStep(w);
    } else {
      run := VisitIsARun(w, e, i);
      var r := Visit(w, e, i);
      if r.Ok? {
        RunKeepsInv(w, run, r.value);
        var more := PassIsARun(r.value, e, i + 1, n);
        LeadsOn(w, run, r.value, more, Pass(r.value, e, i + 1, n));
        run := run + more;
      } else {
        FatalIsFatal(w, run, r);
      }
    }
  }

  lemma FatalIsFatal(w: Process, run: seq<Action>, r: Result<Process>)
    requires r.Crashed? && Leads(w, run, r)
    ensures Leads(w, run, Crashed(r.why))
  {
  }

  // ---------------------------------------------------------------- handle_block_notifications


  /** One job after the other, under the lock; then the list is reset. */
  ghost function Drain(w: Process, e: Report): Result<Process>
    requires w.place.Notifying?
    decreases |w.place.rest|
  {
    if w.place.rest == [] then Ok(w.(jobs := [], place := Idle))
    else
      var w1 :- Dispatch(w, e.block(w));
      if w1.place.Notifying? && |w1.place.rest| < |w.place.rest| then Drain(w1, e) else Ok(w1)
  }

  lemma DispatchMovesOn(w: Process, k: Kernel)
    requires Inv(w) && Enabled(w, NotifyOne(k)) && Dispatch(w, k).Ok?
    ensures Dispatch(w, k).value.place == Notifying(w.place.rest[1..])
  {
    hide CameBack, Settle, OnBlock, ConnsOk, JobsOk, LogOk, CountOk, Keeps, Live;
    var key := Key(w.place.rest[0].fd, w.place.rest[0].id);
    HeadFindsItsConnection(w);
    OnBlockKeeps(w.conns[key.id], w.t, key, k);
    var r := OnBlock(w.conns[key.id], w.t, key, k).value;
    ResolvedLeaves(w.conns[key.id], w.t, key.id, r);
    HeadComesBack(w, r);
    SettleKeeps(AtHead(w), key, r);
  }

  /** A whole drain is a run that never ends the process and leaves the list empty. */
  lemma {:induction false} DrainIsARun(w: Process, e: Report) returns (run: seq<Action>)
    requires Inv(w) && Possible(e) && w.place.Notifying?
    ensures Drain(w, e).Ok? && Leads(w, run, Drain(w, e))
    ensures Drain(w, e).value.place == Idle && Drain(w, e).value.jobs == []
    decreases |w.place.rest|
  {
    hide Inv, Leads, Dispatch;
    if w.place.rest == [] {
      run := [ResetJobs];
      OneStep(w, ResetJobs);
    } else {
      var a := NotifyOne(e.block(w));
      assert Enabled(w, a);
      StepIsSafe(w, a);
      DispatchMovesOn(w, a.k);
      OneStep(w, a);
      var w1 := Step(w, a).value;
      var more := DrainIsARun(w1, e);
      LeadsOn(w, [a], w1, more, Drain(w1, e));
      run := [a] + more;
    }
  }
}
