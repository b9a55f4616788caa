/** What a failed connect leaves behind, and that every connection which is not stalled can still get on. */
module ServerProgress {
  import opened Bytes
  import opened Results
  import opened SelectorTable
  import opened Connection
  import opened ConnectionInvariant
  import opened RelayInvariant
  import opened Server
  import opened ServerInvariant
  import opened ServerSafety
  import opened ServerHistory
  import opened ServerPass
  import opened ServerStall
  import RP = Replies
  import W = OriginWalk

  // ---------------------------------------------------------------- a failed connect

  /** The write event of a connection in REQ_CONNECT, and its key. */
  ghost predicate Reports(w: Process, fd: int, k: Kernel, key: Key) {
    && Enabled(w, WriteReady(fd, k)) && key == KeyFor(w, fd)
    && key.id in w.conns && w.conns[key.id].state == Some(ReqConnect)
  }

  lemma ReportsToALiveOne(w: Process, fd: int, k: Kernel, key: Key)
    requires Inv(w) && Reports(w, fd, k, key)
    ensures Live(w.conns[key.id], key.id, w.t) && Dispatched(w.t, key) && key.fd == fd && w.t[key.fd].interest.write
  {
    hide Inv, Live;
    OwnedSlot(w, fd);
  }

  lemma OnWriteConnects(c: Conn, t: Slots, key: Key, k: Kernel, r: Turn)
    requires c.state == Some(ReqConnect) && OnWrite(c, t, key, k) == Ok(r)
    ensures RequestConnect(c, t, key, k).Ok? && r == Finish(RequestConnect(c, t, key, k).value)
    ensures r.next == RequestConnect(c, t, key, k).value.next
  {
    hide RequestConnect;
  }

  lemma ReportReturns(w: Process, fd: int, k: Kernel, key: Key) returns (r: Turn)
    requires Inv(w) && Reports(w, fd, k, key)
    ensures OnWrite(w.conns[key.id], w.t, key, k) == Ok(r) && CameBack(w, key, r)
    ensures RequestConnect(w.conns[key.id], w.t, key, k).Ok?
    ensures var turn := RequestConnect(w.conns[key.id], w.t, key, k).value; r == Finish(turn) && r.next == turn.next
  {
    hide Inv, RequestConnect, CameBack, OnWrite, Enabled;
    assert !EndsProcess(w, WriteReady(fd, k));
    WriteComesBack(w, fd, k);
    r := OnWrite(w.conns[key.id], w.t, key, k).value;
    OnWriteConnects(w.conns[key.id], w.t, key, k, r);
  }

  /**
   * A failed connect that was in progress is reported on the origin's key and never answered; one that had succeeded
   * at once is reported on the client's, and answered if no address is left that can be used and the reply fits.
   */
  lemma FailureIsAnswered(w: Process, fd: int, k: Kernel, key: Key) returns (r: Turn)
    requires Inv(w) && Reports(w, fd, k, key) && k.soError
    ensures OnWrite(w.conns[key.id], w.t, key, k) == Ok(r)
    ensures var c := w.conns[key.id];
            && c.clientFd in w.t && c.originFd in w.t && (fd == c.clientFd || fd == c.originFd)
            && (fd == c.originFd <==> w.t[c.clientFd].interest == OP_NOOP && w.t[c.originFd].interest == OP_WRITE)
            && (fd == c.clientFd <==> w.t[c.clientFd].interest == OP_WRITE && w.t[c.originFd].interest == OP_READ)
            && (r.next == ReqWrite <==>
                  && fd == c.clientFd && c.toClient.Space() >= 10
                  && (|c.current| == 1 || W.AllFail(w.t - {c.originFd}, key.id, k.attempts, |c.current|)))
  {
    hide Inv, Live, RequestConnect, OnWrite, W.AllFail, CameBack, Enabled;
    var c := w.conns[key.id];
    ReportsToALiveOne(w, fd, k, key);
    r := ReportReturns(w, fd, k, key);
    RP.AnsweringConnect(c, w.t, key.id);
    RP.WhoReports(c, w.t, key);
    RP.FailureIsAnswered(c, w.t, key, k);
  }

  predicate Connecting(w: Process, id: nat) { id in w.conns && w.conns[id].state == Some(ReqConnect) }

  /** A connect that fails and leaves the connection in REQ_CONNECT has stalled it exactly if it was in progress. */
  lemma FailureStalls(w: Process, fd: int, k: Kernel, key: Key) returns (w': Process)
    requires Inv(w) && Reports(w, fd, k, key)
    ensures Step(w, WriteReady(fd, k)) == Ok(w')
    ensures Connecting(w', key.id) ==> k.soError && (Stalled(w', key.id) <==> fd == w.conns[key.id].originFd)
  {
    hide Inv, Live, RequestConnect, CameBack, Step, RP.Unwatched, OnWrite, Settle, Enabled;
    var c := w.conns[key.id];
    ReportsToALiveOne(w, fd, k, key);
    var r := ReportReturns(w, fd, k, key);
    RP.RetryIsWatched(c, w.t, key, k);
    SettledLeaves(w, key, r);
    WriteShape(w, fd, k, r);
    w' := Settle(w, key, r).value.(place := Idle);
    StillConnecting(w, key, RequestConnect(c, w.t, key, k).value);
    SameWatch(RequestConnect(c, w.t, key, k).value.c, r.c, r.t);
  }

  lemma SameWatch(c: Conn, c': Conn, t: Slots)
    requires c'.clientFd == c.clientFd && c'.originFd == c.originFd
    ensures RP.Unwatched(c, t) <==> RP.Unwatched(c', t)
  {
  }

  lemma StillConnecting(w: Process, key: Key, r: Turn)
    requires CameBack(w, key, Finish(r)) && Settle(w, key, Finish(r)).Ok?
    ensures Finish(r).t == r.t && Finish(r).c.clientFd == r.c.clientFd && Finish(r).c.originFd == r.c.originFd
    ensures Finish(r).next == r.next
    ensures var w' := Settle(w, key, Finish(r)).value;
            Connecting(w', key.id) ==> r.next == ReqConnect && w'.t == r.t && w'.conns[key.id] == Finish(r).c
  {
    hide CameBack, Done;
    SettledLeaves(w, key, Finish(r));
  }

  // ---------------------------------------------------------------- every other connection can get on

  /** A kernel that has nothing: no data, no room, no descriptor, and no error. */
  function Idling(w: Process): Kernel { Kernel(RecvAgain, SendAgain, [], None, false, true, w.users) }

  ghost predicate Waits(w: Process, id: nat) {
    id in w.conns && w.conns[id].state in {Some(ReqConnect), Some(ReqResolve)}
  }

  /** The connection is not where it was. */
  ghost predicate Moved(w: Process, w': Process, id: nat)
    requires id in w.conns
  {
    id in w'.conns ==> w'.conns[id].state != w.conns[id].state
  }

  /** A run takes the server to `w'`, which is in order. */
  ghost predicate Gets(w: Process, run: seq<Action>, w': Process) { Leads(w, run, Ok(w')) && Inv(w') }

  lemma GetsOne(w: Process, a: Action, w': Process)
    requires Inv(w) && Enabled(w, a) && Step(w, a) == Ok(w')
    ensures Gets(w, [a], w')
  {
    hide Inv, Step, Enabled;
    StepIsSafe(w, a);
    OneStep(w, a);
  }

  lemma GetsOn(w: Process, run: seq<Action>, w1: Process, more: seq<Action>, w': Process)
    requires Gets(w, run, w1) && Gets(w1, more, w')
    ensures Gets(w, run + more, w')
  {
    hide Inv, Leads;
    LeadsOn(w, run, w1, more, Ok(w'));
  }

  /** Draining the list visits every job on it: the connection has moved, or it was not on the list. */
  lemma {:induction false} DrainGets(w: Process, id: nat) returns (run: seq<Action>, w': Process)
    requires Inv(w) && w.place.Notifying? && id in w.conns
    ensures Gets(w, run, w')
    ensures Moved(w, w', id)
         || (Untouched(w, w', id) && w'.place == Idle && w'.lost == w.lost && forall j :: j in w.place.rest ==> j.id != id)
    decreases |w.place.rest|
  {
    hide Inv, Dispatch, Untouched, Gets;
    if w.place.rest == [] {
      run, w' := [ResetJobs], w.(jobs := [], place := Idle);
      GetsOne(w, ResetJobs, w');
      AsideLeavesItAlone(w, ResetJobs, id);
    } else {
      var a := NotifyOne(Idling(w));
      assert Enabled(w, a);
      var w1 := NotifyVisits(w, a.k, id);
      GetsOne(w, a, w1);
      if w.place.rest[0].id == id {
        run, w' := [a], w1;
      } else {
        KeepsPlace(w, w1, id);
        GetsIsInv(w, [a], w1);
        var more: seq<Action>;
        more, w' := DrainGets(w1, id);
        GetsOn(w, [a], w1, more, w');
        run := [a] + more;
        if !Moved(w, w', id) {
          UntouchedTransitive(w, w1, w', id);
          assert forall j :: j in w.place.rest ==> j == w.place.rest[0] || j in w1.place.rest;
        }
      }
    }
  }

  lemma KeepsPlace(w: Process, w': Process, id: nat)
    requires id in w.conns && Untouched(w, w', id)
    ensures id in w'.conns && w'.conns[id] == w.conns[id]
  {
  }

  /** The selector's thread can get back to where it takes up new events. */
  lemma IdleGets(w: Process, id: nat) returns (run: seq<Action>, w': Process)
    requires Inv(w) && id in w.conns
    ensures Gets(w, run, w')
    ensures Moved(w, w', id) || (Untouched(w, w', id) && w'.place == Idle && w'.lost == w.lost)
  {
    hide Inv, Untouched, Gets;
    match w.place {
      case Idle =>
        run, w' := [], w;
        Stays(w, id);
      case AfterRead(_) =>
        run, w' := [NextFd], w.(place := Idle);
        GetsOne(w, NextFd, w');
        AsideLeavesItAlone(w, NextFd, id);
      case Notifying(_) =>
        run, w' := DrainGets(w, id);
    }
  }

  lemma Stays(w: Process, id: nat)
    requires Inv(w) && id in w.conns
    ensures Gets(w, [], w) && Untouched(w, w, id)
  {
    hide Inv;
    NoStep(w);
  }

  /** Whoever is watched for writing can be reported writable; the connection then ends, if only for want of a name. */
  lemma ConnectGets(w: Process, id: nat) returns (run: seq<Action>, w': Process)
    requires Inv(w) && w.place == Idle && Connecting(w, id) && !Stalled(w, id)
    ensures Gets(w, run, w') && id !in w'.conns
  {
    hide Inv, Live, RequestConnect, CameBack, OnWrite, Settle, Gets, Step;
    var c := w.conns[id];
    IsLive(w, id);
    RP.AnsweringConnect(c, w.t, id);
    OwnSlots(c, w.t, id);
    var fd := if w.t[c.clientFd].interest.write then c.clientFd else c.originFd;
    var k := Idling(w);
    var key := Key(fd, id);
    assert Reports(w, fd, k, key);
    var r := ReportReturns(w, fd, k, key);
    NoNameEnds(c, w.t, key, k);
    SettledLeaves(w, key, r);
    WriteShape(w, fd, k, r);
    w' := Settle(w, key, r).value.(place := Idle);
    run := [WriteReady(fd, k)];
    GetsOne(w, run[0], w');
  }

  lemma OwnSlots(c: Conn, t: Slots, id: nat)
    requires Live(c, id, t)
    ensures c.clientFd in t && t[c.clientFd].data == Client(id)
    ensures c.originFd != -1 ==> c.originFd in t && t[c.originFd].data == Client(id)
  {
    hide ConnOk;
  }

  /** `getsockname` fails after a connect. */
  lemma NoNameEnds(c: Conn, t: Slots, key: Key, k: Kernel)
    requires RequestConnect(c, t, key, k).Ok? && !k.soError && k.bound == None
    ensures RequestConnect(c, t, key, k).value.next == SocksError
  {
    hide Release;
  }

  /** A finished thread's job reaches the list, and the list is drained. */
  lemma ListedGets(w: Process, id: nat) returns (run: seq<Action>, w': Process)
    requires Inv(w) && w.place == Idle && Resolving(w.conns, id) && Job(w.conns[id].clientFd, id) in w.jobs
    ensures Gets(w, run, w') && Moved(w, w', id)
  {
    hide Inv, Gets;
    var w1 := w.(place := Notifying(w.jobs));
    GetsOne(w, TakeJobs, w1);
    var more: seq<Action>;
    GetsIsInv(w, [TakeJobs], w1);
    more, w' := DrainGets(w1, id);
    GetsOn(w, [TakeJobs], w1, more, w');
    run := [TakeJobs] + more;
    assert Job(w.conns[id].clientFd, id) in w1.place.rest;
  }

  lemma GetsIsInv(w: Process, run: seq<Action>, w': Process)
    requires Gets(w, run, w')
    ensures Inv(w')
  {
  }

  lemma ResolvedGets(w: Process, id: nat) returns (run: seq<Action>, w': Process)
    requires Inv(w) && w.place == Idle && Resolving(w.conns, id) && Thread(Job(w.conns[id].clientFd, id), true) in w.threads
    ensures Gets(w, run, w') && Moved(w, w', id)
  {
    hide Inv, Gets;
    var job := Job(w.conns[id].clientFd, id);
    var a := ThreadNotifies(job, true);
    var w1 := Step(w, a).value;
    GetsOne(w, a, w1);
    GetsIsInv(w, [a], w1);
    var more: seq<Action>;
    more, w' := ListedGets(w1, id);
    GetsOn(w, [a], w1, more, w');
    run := [a] + more;
  }

  lemma StartedGets(w: Process, id: nat) returns (run: seq<Action>, w': Process)
    requires Inv(w) && w.place == Idle && Resolving(w.conns, id) && Thread(Job(w.conns[id].clientFd, id), false) in w.threads
    ensures Gets(w, run, w') && Moved(w, w', id)
  {
    hide Inv, Gets;
    var job := Job(w.conns[id].clientFd, id);
    var a := ThreadResolves(job, []);
    var w1 := Step(w, a).value;
    GetsOne(w, a, w1);
    GetsIsInv(w, [a], w1);
    var more: seq<Action>;
    more, w' := ResolvedGets(w1, id);
    GetsOn(w, [a], w1, more, w');
    run := [a] + more;
  }

  lemma WaiterHasAJob(w: Process, id: nat)
    requires Inv(w) && w.place == Idle && Resolving(w.conns, id)
    ensures HasJob(w.threads, w.jobs, w.lost, Job(w.conns[id].clientFd, id))
  {
  }

  /** A connection that is not stalled has a run before it that takes it on. */
  lemma OthersGetOn(w: Process, id: nat) returns (run: seq<Action>, w': Process)
    requires Inv(w) && Waits(w, id) && !Stalled(w, id)
    ensures Gets(w, run, w') && Moved(w, w', id)
  {
    hide Inv, Gets, Untouched, Stalled;
    var w1: Process, more: seq<Action>;
    run, w1 := IdleGets(w, id);
    GetsIsInv(w, run, w1);
    if Moved(w, w1, id) {
      w' := w1;
    } else {
      NotStalledYet(w, w1, id);
      if Connecting(w1, id) {
        more, w' := ConnectGets(w1, id);
      } else {
        WaiterHasAJob(w1, id);
        var job := Job(w1.conns[id].clientFd, id);
        if Thread(job, false) in w1.threads {
          more, w' := StartedGets(w1, id);
        } else if Thread(job, true) in w1.threads {
          more, w' := ResolvedGets(w1, id);
        } else {
          more, w' := ListedGets(w1, id);
        }
      }
      GetsOn(w, run, w1, more, w');
      run := run + more;
    }
  }

  lemma NotStalledYet(w: Process, w': Process, id: nat)
    requires Inv(w) && id in w.conns && Untouched(w, w', id) && w'.lost == w.lost
    ensures id in w'.conns && w'.conns[id] == w.conns[id] && (Stalled(w', id) <==> Stalled(w, id))
    ensures Resolving(w'.conns, id) && !Stalled(w', id) ==> Job(w.conns[id].clientFd, id) !in w'.lost
  {
    hide Inv, Live;
    IsLive(w, id);
    UntouchedStalls(w, w', id);
  }

  /** A connection that waits for a connect or a resolver waits for ever, whatever happens, if and only if it is stalled. */
  lemma WaitsForEverIffStalled(w: Process, id: nat)
    requires Inv(w) && Waits(w, id)
    ensures Stalled(w, id) <==> forall run :: CanRun(w, run) ==> !Moved(w, Run(w, run), id)
  {
    hide Inv, Moved, Stalled, CanRun, Run;
    if Stalled(w, id) {
      forall run | CanRun(w, run) ensures !Moved(w, Run(w, run), id) {
        StallIsForEver(w, run, id);
        UntouchedStands(w, Run(w, run), id);
      }
    } else {
      var run, w' := OthersGetOn(w, id);
      assert CanRun(w, run) && Run(w, run) == w';
    }
  }

  lemma UntouchedStands(w: Process, w': Process, id: nat)
    requires id in w.conns && Untouched(w, w', id)
    ensures !Moved(w, w', id)
  {
  }
}
