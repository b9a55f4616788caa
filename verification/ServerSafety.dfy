/** Every step of the server keeps the invariant, except for exactly the steps that end the process. */
module ServerSafety {
  import opened Bytes
  import opened Results
  import opened SelectorTable
  import opened Connection
  import opened ConnectionInvariant
  import opened RelayInvariant
  import opened Server
  import opened ServerInvariant
  import R = RequestParser
  import U = Users

  // ---------------------------------------------------------------- read and write callbacks

  /** The slot of the key still belongs to the connection, or is unused. */
  lemma KeySlotKept(t: Slots, t': Slots, key: Key)
    requires SameOthers(t, t', key.id) && key.fd in t && t[key.fd].data == Client(key.id)
    ensures key.fd in t' ==> t'[key.fd].data == Client(key.id)
  {
  }

  /** A resolver thread is started from the client's own callback. */
  lemma SpawnedForClient(c: Conn, t: Slots, key: Key, r: Turn)
    requires Live(c, key.id, t) && Dispatched(t, key) && Keeps(c, t, key.id, Ok(r))
    requires r.next == ReqResolve && r.c.state == Some(ReqResolve)
    ensures r.spawned && r.c.clientFd == key.fd && NoAddress(r.c)
  {
    assert r.c == Jump(r.c, r.next);
    assert c.originFd == -1;
  }

  lemma CallbackKeepsJobs(w: Process, key: Key, r: Turn)
    requires JobsOk(w.conns, w.threads, Outstanding(w), w.lost)
    requires key.id in w.conns && w.conns[key.id].state != Some(ReqResolve) && r.c.state == Some(r.next)
    requires r.spawned <==> r.next == ReqResolve
    requires r.next == ReqResolve ==> r.c.clientFd == key.fd && NoAddress(r.c)
    ensures JobsOk(w.conns[key.id := r.c], SpawnedBy(w, key, r), Outstanding(w), w.lost)
  {
    if r.next == ReqResolve {
      JobSpawned(w.conns, r.c, Job(key.fd, key.id), w.threads, Outstanding(w), w.lost);
    } else {
      JobsUnaffected(w.conns, w.conns[key.id := r.c], w.threads, Outstanding(w), w.lost);
    }
  }

  lemma CallbackComesBack(w: Process, key: Key, r: Turn)
    requires Core(w) && key.id in w.conns && Live(w.conns[key.id], key.id, w.t) && Dispatched(w.t, key)
    requires w.conns[key.id].state != Some(ReqResolve)
    requires Keeps(w.conns[key.id], w.t, key.id, Ok(r)) && r.c.state == Some(r.next)
    ensures CameBack(w, key, r)
  {
    if r.next == ReqResolve {
      SpawnedForClient(w.conns[key.id], w.t, key, r);
    }
    CallbackKeepsJobs(w, key, r);
  }

  lemma Moved(w: Process, place: Place)
    requires Core(w) && Outstanding(w.(place := place)) == Outstanding(w)
    ensures Core(w.(place := place))
  {
  }

  /** A step that ends the process. */
  ghost predicate EndsProcess(w: Process, a: Action)
    requires Enabled(w, a)
  {
    match a
    case ReadReady(fd, k) => var key := KeyFor(w, fd); key.id in w.conns && ReadCrashes(w.conns[key.id], key, k)
    case WriteReady(fd, k) => var key := KeyFor(w, fd); key.id in w.conns && LogsNobody(w.conns[key.id], k)
    case Manage(op) => U.Overruns(w.users, op)
    case _ => false
  }

  lemma OwnedSlot(w: Process, fd: int)
    requires Inv(w) && OwnedByClient(w.t, fd) && (w.place.AfterRead? ==> w.place.key.fd == fd)
    ensures var key := KeyFor(w, fd);
            && key.fd == fd && Dispatched(w.t, key) && key.id in w.conns && Live(w.conns[key.id], key.id, w.t)
            && (fd == w.conns[key.id].clientFd || fd == w.conns[key.id].originFd)
  {
  }

  /** Nothing is dispatched to a connection that waits for its resolver. */
  lemma NotResolving(c: Conn, t: Slots, key: Key)
    requires Live(c, key.id, t) && Dispatched(t, key) && t[key.fd].interest != OP_NOOP
    ensures c.state != Some(ReqResolve)
  {
  }

  lemma ReadComesBack(w: Process, fd: int, k: Kernel)
    requires Inv(w) && Enabled(w, ReadReady(fd, k)) && !EndsProcess(w, ReadReady(fd, k))
    ensures var key := KeyFor(w, fd);
            && key.id in w.conns && Dispatched(w.t, key)
            && OnRead(w.conns[key.id], w.t, key, k).Ok?
            && CameBack(w, key, OnRead(w.conns[key.id], w.t, key, k).value)
  {
    var key := KeyFor(w, fd);
    OwnedSlot(w, fd);
    NotResolving(w.conns[key.id], w.t, key);
    OnReadKeeps(w.conns[key.id], w.t, key, k);
    CallbackComesBack(w, key, OnRead(w.conns[key.id], w.t, key, k).value);
  }

  lemma ReadStep(w: Process, fd: int, k: Kernel)
    requires Inv(w) && Enabled(w, ReadReady(fd, k)) && !EndsProcess(w, ReadReady(fd, k))
    ensures Step(w, ReadReady(fd, k)).Ok? && Inv(Step(w, ReadReady(fd, k)).value)
  {
    hide ConnsOk, CountOk, JobsOk, LogOk, CameBack, OnRead, OnWrite, OnBlock, Settle;
    var key := KeyFor(w, fd);
    ReadComesBack(w, fd, k);
    var r := OnRead(w.conns[key.id], w.t, key, k).value;
    SettleKeeps(w, key, r);
    var w1 := Settle(w, key, r).value;
    KeySlotKept(w.t, w1.t, key);
    Moved(w1, AfterRead(key));
  }

  lemma ReadStepEnds(w: Process, fd: int, k: Kernel)
    requires Inv(w) && Enabled(w, ReadReady(fd, k)) && EndsProcess(w, ReadReady(fd, k))
    ensures Step(w, ReadReady(fd, k)).Crashed?
  {
    OwnedSlot(w, fd);
    OnReadCrashes(w.conns[KeyFor(w, fd).id], w.t, KeyFor(w, fd), k);
  }

  lemma WriteComesBack(w: Process, fd: int, k: Kernel)
    requires Inv(w) && Enabled(w, WriteReady(fd, k)) && !EndsProcess(w, WriteReady(fd, k))
    ensures var key := KeyFor(w, fd);
            && key.id in w.conns && Dispatched(w.t, key)
            && OnWrite(w.conns[key.id], w.t, key, k).Ok?
            && CameBack(w, key, OnWrite(w.conns[key.id], w.t, key, k).value)
  {
    var key := KeyFor(w, fd);
    OwnedSlot(w, fd);
    NotResolving(w.conns[key.id], w.t, key);
    OnWriteKeeps(w.conns[key.id], w.t, key, k);
    CallbackComesBack(w, key, OnWrite(w.conns[key.id], w.t, key, k).value);
  }

  lemma WriteStepEnds(w: Process, fd: int, k: Kernel)
    requires Inv(w) && Enabled(w, WriteReady(fd, k)) && EndsProcess(w, WriteReady(fd, k))
    ensures Step(w, WriteReady(fd, k)).Crashed?
  {
    hide Live, OnWrite, Settle;
    OwnedSlot(w, fd);
    OnWriteCrashes(w.conns[KeyFor(w, fd).id], w.t, KeyFor(w, fd), k);
  }

  lemma WriteStep(w: Process, fd: int, k: Kernel)
    requires Inv(w) && Enabled(w, WriteReady(fd, k)) && !EndsProcess(w, WriteReady(fd, k))
    ensures Step(w, WriteReady(fd, k)).Ok? && Inv(Step(w, WriteReady(fd, k)).value)
  {
    hide ConnsOk, CountOk, JobsOk, LogOk, CameBack, OnRead, OnWrite, OnBlock, Settle;
    var key := KeyFor(w, fd);
    WriteComesBack(w, fd, k);
    var r := OnWrite(w.conns[key.id], w.t, key, k).value;
    SettleKeeps(w, key, r);
    Moved(Settle(w, key, r).value, Idle);
  }

  // ---------------------------------------------------------------- jobs

  /** Visiting the head of the list: its connection leaves REQ_RESOLVE, and no other job is for it. */
  lemma HeadVisited(conns: Conns, c: Conn, threads: multiset<Thread>, out: seq<Job>, lost: set<Job>)
    requires JobsOk(conns, threads, out, lost) && out != [] && c.state != Some(ReqResolve)
    ensures JobsOk(conns[out[0].id := c], threads, out[1..], lost)
  {
    HeadThreads(conns, c, threads, out);
    HeadList(conns, c, out);
    HeadWaiters(conns, c, threads, out, lost);
    HeadLost(conns, c, threads, out, lost);
  }

  lemma HeadLost(conns: Conns, c: Conn, threads: multiset<Thread>, out: seq<Job>, lost: set<Job>)
    requires LostOk(conns, threads, out, lost) && out != [] && Awaits(conns, out[0])
    ensures LostOk(conns[out[0].id := c], threads, out[1..], lost)
  {
    forall j | j in lost
      ensures Awaits(conns[out[0].id := c], j)
    {
      assert Awaits(conns, j) && j != out[0];
    }
  }

  lemma HeadThreads(conns: Conns, c: Conn, threads: multiset<Thread>, out: seq<Job>)
    requires ThreadsOk(conns, threads, out) && out != [] && Awaits(conns, out[0])
    ensures ThreadsOk(conns[out[0].id := c], threads, out[1..])
  {
    hide NoAddress;
    var conns' := conns[out[0].id := c];
    forall th | th in threads
      ensures ThreadOk(conns', threads, out[1..], th)
    {
      assert ThreadOk(conns, threads, out, th) && th.job != out[0];
      assert th.job.id != out[0].id;
    }
  }

  lemma HeadList(conns: Conns, c: Conn, out: seq<Job>)
    requires ListOk(conns, out) && out != []
    ensures ListOk(conns[out[0].id := c], out[1..])
  {
    var conns' := conns[out[0].id := c];
    forall i | 0 <= i < |out[1..]|
      ensures Awaits(conns', out[1..][i])
    {
      assert Awaits(conns, out[i + 1]) && Awaits(conns, out[0]) && out[0] != out[i + 1];
    }
  }

  lemma HeadWaiters(conns: Conns, c: Conn, threads: multiset<Thread>, out: seq<Job>, lost: set<Job>)
    requires WaitersOk(conns, threads, out, lost) && out != [] && c.state != Some(ReqResolve)
    ensures WaitersOk(conns[out[0].id := c], threads, out[1..], lost)
  {
    var conns' := conns[out[0].id := c];
    forall id | Resolving(conns', id)
      ensures HasJob(threads, out[1..], lost, Job(conns'[id].clientFd, id))
    {
      assert id != out[0].id && Resolving(conns, id);
      assert HasJob(threads, out, lost, Job(conns[id].clientFd, id));
    }
  }

  /** The head of the list finds its connection in REQ_RESOLVE, at the descriptor it names. */
  lemma HeadFindsItsConnection(w: Process)
    requires Inv(w) && w.place.Notifying? && w.place.rest != []
    ensures var job := w.place.rest[0];
            && job.id in w.conns && w.conns[job.id].state == Some(ReqResolve)
            && Live(w.conns[job.id], job.id, w.t) && Dispatched(w.t, Key(job.fd, job.id))
  {
    var job := w.place.rest[0];
    assert Awaits(w.conns, job);
    assert Live(w.conns[job.id], job.id, w.t);
  }

  /** The process while the callback for the head of the list runs. */
  function AtHead(w: Process): Process
    requires w.place.Notifying? && w.place.rest != []
  {
    w.(place := Notifying(w.place.rest[1..]), dispatched := w.dispatched + [w.place.rest[0]])
  }

  lemma ResolvedLeaves(c: Conn, t: Slots, id: nat, r: Turn)
    requires c.state == Some(ReqResolve) && Keeps(c, t, id, Ok(r))
    ensures r.next != ReqResolve && !r.spawned
  {
  }

  lemma HeadLogged(w: Process)
    requires LogOk(w) && w.place.Notifying? && w.place.rest != []
    ensures LogOk(AtHead(w))
  {
    assert w.place.rest == [w.place.rest[0]] + w.place.rest[1..];
  }

  lemma HeadComesBack(w: Process, r: Turn)
    requires Core(w) && w.place.Notifying? && w.place.rest != []
    requires var job := w.place.rest[0];
             && job.id in w.conns && Keeps(w.conns[job.id], w.t, job.id, Ok(r)) && r.c.state == Some(r.next)
    requires r.next != ReqResolve && !r.spawned
    ensures CameBack(AtHead(w), Key(w.place.rest[0].fd, w.place.rest[0].id), r)
  {
    hide JobsOk, ConnsOk, LogOk, CountOk, Keeps;
    HeadVisited(w.conns, r.c, w.threads, w.place.rest, w.lost);
    SameCount(w, AtHead(w));
    HeadLogged(w);
  }

  lemma KeptIsOk(c: Conn, t: Slots, id: nat, r: Result<Turn>)
    requires Keeps(c, t, id, r)
    ensures r.Ok?
  {
  }

  lemma NotifyStep(w: Process, k: Kernel)
    requires Inv(w) && Enabled(w, NotifyOne(k))
    ensures Step(w, NotifyOne(k)).Ok? && Inv(Step(w, NotifyOne(k)).value)
  {
    hide Keeps, Live, ConnsOk, CountOk, JobsOk, LogOk, CameBack, OnRead, OnWrite, OnBlock, Settle;
    var key := Key(w.place.rest[0].fd, w.place.rest[0].id);
    HeadFindsItsConnection(w);
    OnBlockKeeps(w.conns[key.id], w.t, key, k);
    KeptIsOk(w.conns[key.id], w.t, key.id, OnBlock(w.conns[key.id], w.t, key, k));
    var r := OnBlock(w.conns[key.id], w.t, key, k).value;
    ResolvedLeaves(w.conns[key.id], w.t, key.id, r);
    HeadComesBack(w, r);
    SettleKeeps(AtHead(w), key, r);
  }

  lemma AnswerHasAddresses(c: Conn, result: seq<Target>)
    requires Addresses(c) && NoAddress(c) && Requested(c) && c.handshake.InRequest? && c.handshake.req.atyp == R.DN
    ensures Addresses(StoreAnswer(c, result)) && (StoreAnswer(c, result).originAddr == None ==> NoAddress(StoreAnswer(c, result)))
  {
  }

  lemma AnswerIsLive(c: Conn, id: nat, t: Slots, result: seq<Target>)
    requires Live(c, id, t) && c.state == Some(ReqResolve) && NoAddress(c)
    ensures Live(StoreAnswer(c, result), id, t)
  {
    hide Spoken, NegOver, AuthOver, ReqOver, AllSucceed, Addresses, NoAddress;
    AnswerHasAddresses(c, result);
  }

  lemma AnsweredConns(w: Process, job: Job, result: seq<Target>)
    requires Inv(w) && Thread(job, false) in w.threads
    ensures job.id in w.conns
    ensures var c := StoreAnswer(w.conns[job.id], result);
            && ConnsOk(w.conns[job.id := c], w.t) && c.state == Some(ReqResolve) && c.clientFd == job.fd
  {
    hide Live;
    assert Awaits(w.conns, job) && NoAddress(w.conns[job.id]);
    assert Live(w.conns[job.id], job.id, w.t);
    AnswerIsLive(w.conns[job.id], job.id, w.t, result);
    ReplaceConn(w.conns, w.t, job.id, StoreAnswer(w.conns[job.id], result), w.t);
  }

  lemma ResolveStep(w: Process, job: Job, result: seq<Target>)
    requires Inv(w) && Enabled(w, ThreadResolves(job, result))
    ensures Step(w, ThreadResolves(job, result)).Ok? && Inv(Step(w, ThreadResolves(job, result)).value)
  {
    hide Live, ConnsOk, JobsOk, CountOk, StoreAnswer;
    AnsweredConns(w, job, result);
    var c' := StoreAnswer(w.conns[job.id], result);
    AnswerStored(w.conns, c', job, w.threads, Outstanding(w), w.lost);
    SameCount(w, Step(w, ThreadResolves(job, result)).value);
  }

  lemma AnswerStored(conns: Conns, c: Conn, job: Job, threads: multiset<Thread>, out: seq<Job>, lost: set<Job>)
    requires JobsOk(conns, threads, out, lost) && Thread(job, false) in threads
    requires c.state == Some(ReqResolve) && c.clientFd == job.fd
    ensures JobsOk(conns[job.id := c], threads - multiset{Thread(job, false)} + multiset{Thread(job, true)}, out, lost)
  {
    AnsweredThreads(conns, c, job, threads, out);
    AnsweredList(conns, c, job, out);
    AnsweredWaiters(conns, c, job, threads, out, lost);
    AnsweredLost(conns, c, job, threads, out, lost);
  }

  lemma AnsweredLost(conns: Conns, c: Conn, job: Job, threads: multiset<Thread>, out: seq<Job>, lost: set<Job>)
    requires LostOk(conns, threads, out, lost) && Thread(job, false) in threads && Awaits(conns, job)
    requires c.state == Some(ReqResolve) && c.clientFd == job.fd
    ensures LostOk(conns[job.id := c], threads - multiset{Thread(job, false)} + multiset{Thread(job, true)}, out, lost)
  {
    forall j | j in lost
      ensures Awaits(conns[job.id := c], j) && j != job
    {
      assert Awaits(conns, j);
    }
  }

  lemma AnsweredThreads(conns: Conns, c: Conn, job: Job, threads: multiset<Thread>, out: seq<Job>)
    requires ThreadsOk(conns, threads, out) && Thread(job, false) in threads
    requires c.state == Some(ReqResolve) && c.clientFd == job.fd
    ensures ThreadsOk(conns[job.id := c], threads - multiset{Thread(job, false)} + multiset{Thread(job, true)}, out)
  {
    hide NoAddress;
    var conns' := conns[job.id := c];
    var threads' := threads - multiset{Thread(job, false)} + multiset{Thread(job, true)};
    assert ThreadOk(conns, threads, out, Thread(job, false));
    forall th | th in threads'
      ensures ThreadOk(conns', threads', out, th)
    {
      if th != Thread(job, true) {
        assert ThreadOk(conns, threads, out, th);
        assert th.job.id != job.id;
      }
    }
  }

  lemma AnsweredList(conns: Conns, c: Conn, job: Job, out: seq<Job>)
    requires ListOk(conns, out) && Awaits(conns, job) && c.state == Some(ReqResolve) && c.clientFd == job.fd
    ensures ListOk(conns[job.id := c], out)
  {
    forall i | 0 <= i < |out|
      ensures Awaits(conns[job.id := c], out[i])
    {
      assert Awaits(conns, out[i]);
    }
  }

  lemma AnsweredWaiters(conns: Conns, c: Conn, job: Job, threads: multiset<Thread>, out: seq<Job>, lost: set<Job>)
    requires WaitersOk(conns, threads, out, lost) && Awaits(conns, job) && c.clientFd == job.fd
    ensures WaitersOk(conns[job.id := c], threads - multiset{Thread(job, false)} + multiset{Thread(job, true)}, out, lost)
  {
    var conns' := conns[job.id := c];
    var threads' := threads - multiset{Thread(job, false)} + multiset{Thread(job, true)};
    forall id | Resolving(conns', id)
      ensures HasJob(threads', out, lost, Job(conns'[id].clientFd, id))
    {
      assert Resolving(conns, id) && HasJob(threads, out, lost, Job(conns[id].clientFd, id));
      assert Thread(job, true) in threads';
    }
  }

  /** A thread that is gone: its job goes to the list, or is lost. */
  lemma JobMoves(conns: Conns, threads: multiset<Thread>, out: seq<Job>, lost: set<Job>, th: Thread)
    requires JobsOk(conns, threads, out, lost) && th in threads
    ensures JobsOk(conns, threads - multiset{th}, [th.job] + out, lost)
    ensures JobsOk(conns, threads - multiset{th}, out, lost + {th.job})
  {
    ThreadEnds(conns, threads, out, th);
    WaitersFollow(conns, threads, out, lost, th);
    assert ThreadOk(conns, threads, out, th);
    assert th.resolved ==> Thread(th.job, false) !in threads by {
      assert Thread(th.job, false) in threads ==> ThreadOk(conns, threads, out, Thread(th.job, false));
    }
    LostFollow(conns, threads, out, lost, th);
    hide WaitersOk, ThreadsOk, ThreadOk, LostOk;
    assert ListOk(conns, [th.job] + out);
  }

  lemma LostFollow(conns: Conns, threads: multiset<Thread>, out: seq<Job>, lost: set<Job>, th: Thread)
    requires LostOk(conns, threads, out, lost) && th in threads && threads[th] == 1 && Awaits(conns, th.job)
    requires th.job !in out && Thread(th.job, !th.resolved) !in threads
    ensures LostOk(conns, threads - multiset{th}, [th.job] + out, lost)
    ensures LostOk(conns, threads - multiset{th}, out, lost + {th.job})
  {
    hide Awaits;
    assert th == Thread(th.job, th.resolved);
  }

  lemma ThreadEnds(conns: Conns, threads: multiset<Thread>, out: seq<Job>, th: Thread)
    requires ThreadsOk(conns, threads, out) && th in threads
    ensures ThreadsOk(conns, threads - multiset{th}, [th.job] + out)
    ensures ThreadsOk(conns, threads - multiset{th}, out)
  {
    hide NoAddress, Awaits;
    var threads' := threads - multiset{th};
    assert ThreadOk(conns, threads, out, th);
    forall other | other in threads'
      ensures ThreadOk(conns, threads', [th.job] + out, other) && ThreadOk(conns, threads', out, other)
    {
      assert ThreadOk(conns, threads, out, other) && other != th;
      assert other.job != th.job;
    }
  }

  lemma WaitersFollow(conns: Conns, threads: multiset<Thread>, out: seq<Job>, lost: set<Job>, th: Thread)
    requires WaitersOk(conns, threads, out, lost)
    ensures WaitersOk(conns, threads - multiset{th}, [th.job] + out, lost)
    ensures WaitersOk(conns, threads - multiset{th}, out, lost + {th.job})
  {
    var threads' := threads - multiset{th};
    forall id | Resolving(conns, id)
      ensures HasJob(threads', [th.job] + out, lost, Job(conns[id].clientFd, id))
      ensures HasJob(threads', out, lost + {th.job}, Job(conns[id].clientFd, id))
    {
      var j := Job(conns[id].clientFd, id);
      assert HasJob(threads, out, lost, j);
      assert j == th.job ==> j in [th.job] + out;
    }
  }

  lemma QueueStep(w: Process, job: Job, memory: bool)
    requires Inv(w) && Enabled(w, ThreadNotifies(job, memory))
    ensures Step(w, ThreadNotifies(job, memory)).Ok? && Inv(Step(w, ThreadNotifies(job, memory)).value)
  {
    hide ConnsOk, JobsOk, Buried;
    JobMoves(w.conns, w.threads, w.jobs, w.lost, Thread(job, true));
    var w' := Step(w, ThreadNotifies(job, memory)).value;
    assert LogOk(w');
    assert CountOk(w');
  }

  lemma ThreadFailsStep(w: Process, job: Job)
    requires Inv(w) && Enabled(w, ThreadFails(job))
    ensures Step(w, ThreadFails(job)).Ok? && Inv(Step(w, ThreadFails(job)).value)
  {
    hide ConnsOk, JobsOk, Buried;
    JobMoves(w.conns, w.threads, Outstanding(w), w.lost, Thread(job, false));
    var w' := Step(w, ThreadFails(job)).value;
    assert LogOk(w');
    assert CountOk(w');
  }

  // ---------------------------------------------------------------- descriptors of others, and new clients

  lemma ForeignLive(c: Conn, id: nat, t: Slots, t': Slots)
    requires Live(c, id, t) && OnlyValidFds(t')
    requires forall fd :: fd in t && t[fd].data.Client? ==> fd in t' && t'[fd] == t[fd]
    requires forall fd :: fd in t' && t'[fd].data.Client? ==> fd in t && t'[fd] == t[fd]
    ensures Live(c, id, t')
  {
  }

  lemma ForeignChange(w: Process, t': Slots)
    requires Inv(w) && w.place == Idle && forall fd :: fd in t' ==> fd in w.t || ValidFd(fd)
    requires forall fd :: fd in w.t && w.t[fd].data.Client? ==> fd in t' && t'[fd] == w.t[fd]
    requires forall fd :: fd in t' && t'[fd].data.Client? ==> fd in w.t && t'[fd] == w.t[fd]
    ensures Inv(w.(t := t'))
  {
    assert ConnsOk(w.conns, t') by {
      forall id | id in w.conns
        ensures Live(w.conns[id], id, t')
      {
        ForeignLive(w.conns[id], id, w.t, t');
      }
    }
    assert CountOk(w.(t := t'));
  }

  lemma NewIsLive(w: Process, fd: int)
    requires Inv(w) && ValidFd(fd) && fd !in w.t
    ensures Live(New(fd), w.nextId, w.t[fd := Slot(OP_READ, Client(w.nextId))])
  {
    hide Framed;
    NewIsFramed(fd);
    assert w.nextId !in w.conns;
  }

  lemma AcceptedConns(w: Process, fd: int)
    requires Inv(w) && ValidFd(fd) && fd !in w.t
    ensures ConnsOk(w.conns[w.nextId := New(fd)], w.t[fd := Slot(OP_READ, Client(w.nextId))])
  {
    hide Live, New;
    var id := w.nextId;
    assert id !in w.conns;
    var t' := w.t[fd := Slot(OP_READ, Client(id))];
    NewIsLive(w, fd);
    forall other | other in w.conns
      ensures Live(w.conns[other], other, t')
    {
      OthersStayLive(w.conns[other], other, w.t, t', id);
    }
  }

  lemma OneMore(conns: Conns, id: nat, c: Conn)
    requires id !in conns
    ensures |conns[id := c]| == |conns| + 1
  {
    assert conns[id := c].Keys == conns.Keys + {id};
    assert |conns[id := c]| == |conns[id := c].Keys| && |conns| == |conns.Keys|;
  }

  lemma AcceptedCount(w: Process, fd: int, t': Slots)
    requires CountOk(w)
    ensures var id := w.nextId;
            && id !in w.conns
            && CountOk(w.(nextId := id + 1, conns := w.conns[id := New(fd)], t := t', connections := w.connections + 1))
  {
    hide Buried, New;
    assert w.nextId !in w.conns && w.nextId !in w.freed;
    OneMore(w.conns, w.nextId, New(fd));
  }

  lemma RefusedCount(w: Process, fd: int)
    requires CountOk(w)
    ensures CountOk(w.(nextId := w.nextId + 1, freed := w.freed[w.nextId := New(fd)]))
  {
    hide Buried, New;
    NewIsBuried(fd);
    assert w.nextId !in w.conns;
  }

  lemma NewIsBuried(fd: int)
    ensures Buried(New(fd))
  {
    hide Framed;
    NewIsFramed(fd);
  }

  lemma AcceptStep(w: Process, fd: int, prepared: bool)
    requires Inv(w) && Enabled(w, AcceptClient(fd, prepared))
    ensures Inv(Accept(w, fd, prepared))
  {
    hide Live, CountOk, JobsOk, ConnsOk;
    if prepared && ValidFd(fd) {
      AcceptedCount(w, fd, w.t[fd := Slot(OP_READ, Client(w.nextId))]);
      AcceptedConns(w, fd);
      JobsUnaffected(w.conns, w.conns[w.nextId := New(fd)], w.threads, Outstanding(w), w.lost);
    } else if prepared {
      RefusedCount(w, fd);
    }
  }

  /** The final reset loses nothing: the lock kept the list as it was taken. */
  lemma ResetStep(w: Process)
    requires Inv(w) && Enabled(w, ResetJobs)
    ensures Step(w, ResetJobs).Ok? && Inv(Step(w, ResetJobs).value)
  {
    hide ConnsOk, JobsOk, Buried;
  }

  lemma ManageStep(w: Process, op: U.Op)
    requires Inv(w) && Enabled(w, Manage(op))
    ensures Step(w, Manage(op)).Crashed? <==> U.Overruns(w.users, op)
    ensures Step(w, Manage(op)).Ok? ==> Inv(Step(w, Manage(op)).value)
  {
    hide ConnsOk, Buried, U.Do, U.Overruns;
  }

  // ---------------------------------------------------------------- every step, every run

  /**
   * A step ends the process exactly when it reports an origin readable in REQ_CONNECT or REQ_WRITE, brings client
   * data to a relay without an origin, drains the reply to a user who is not in the table, or has a manager's command
   * leave the user table's array; every other step keeps the invariant.
   */
  lemma StepIsSafe(w: Process, a: Action)
    requires Inv(w) && Enabled(w, a)
    ensures Step(w, a).Crashed? <==> EndsProcess(w, a)
    ensures Step(w, a).Ok? ==> Inv(Step(w, a).value)
  {
    hide ConnsOk, CountOk, JobsOk, LogOk, CameBack, OnRead, OnWrite, OnBlock, Settle;
    match a {
      case AcceptClient(fd, prepared) => AcceptStep(w, fd, prepared);
      case ForeignRegister(fd, interest) => ForeignChange(w, w.t[fd := Slot(interest, Other)]);
      case ForeignInterest(fd, interest) => ForeignChange(w, w.t[fd := Slot(interest, Other)]);
      case ForeignUnregister(fd) => ForeignChange(w, w.t - {fd});
      case ReadReady(fd, k) =>
        if EndsProcess(w, a) {
          ReadStepEnds(w, fd, k);
        } else {
          ReadStep(w, fd, k);
        }
      case WriteReady(fd, k) =>
        if EndsProcess(w, a) {
          WriteStepEnds(w, fd, k);
        } else {
          WriteStep(w, fd, k);
        }
      case NextFd => Moved(w, Idle);
      case ThreadFails(job) => ThreadFailsStep(w, job);
      case ThreadResolves(job, result) => ResolveStep(w, job, result);
      case ThreadNotifies(job, memory) => QueueStep(w, job, memory);
      case TakeJobs => Moved(w, Notifying(w.jobs));
      case NotifyOne(k) => NotifyStep(w, k);
      case ResetJobs => ResetStep(w);
      case Manage(op) => ManageStep(w, op);
    }
  }

  lemma {:induction false} RunIsSafe(w: Process, run: seq<Action>)
    requires Inv(w) && CanRun(w, run)
    ensures Inv(Run(w, run))
    decreases |run|
  {
    if run != [] {
      StepIsSafe(w, run[0]);
      RunIsSafe(Step(w, run[0]).value, run[1..]);
    }
  }
}
