/** What holds of the whole server in every reachable state, and exactly when a step brings it down. */
module ServerInvariant {
  import opened Bytes
  import opened Results
  import opened Buffers
  import opened SelectorTable
  import opened Connection
  import opened ConnectionInvariant
  import opened RelayInvariant
  import opened Server

  type Conns = map<nat, Conn>

  // ---------------------------------------------------------------- connections and their slots

  ghost predicate ConnsOk(conns: Conns, t: Slots) {
    && OnlyValidFds(t)
    && (forall id :: id in conns ==> Live(conns[id], id, t))
    && (forall fd :: fd in t && t[fd].data.Client? ==> t[fd].data.id in conns)
  }

  /** A freed object: its address list was released exactly once, and its bytes are accounted for. */
  ghost predicate Buried(c: Conn) { c.originAddr == None && c.obtained == c.released && |c.obtained| <= 1 && Framed(c) }

  /** Every object ever made is live or freed, never both, and the metric counts the live ones. */
  ghost predicate CountOk(w: Process) {
    && w.connections == |w.conns|
    && w.conns.Keys !! w.freed.Keys
    && (forall id: nat :: id < w.nextId <==> id in w.conns || id in w.freed)
    && (forall id :: id in w.freed ==> Buried(w.freed[id]))
  }

  // ---------------------------------------------------------------- jobs

  predicate Resolving(conns: Conns, id: nat) { id in conns && conns[id].state == Some(ReqResolve) }

  /** The job's connection is in REQ_RESOLVE and still owns the job's descriptor. */
  ghost predicate Awaits(conns: Conns, j: Job) { Resolving(conns, j.id) && conns[j.id].clientFd == j.fd }

  ghost predicate ThreadOk(conns: Conns, threads: multiset<Thread>, out: seq<Job>, th: Thread) {
    && threads[th] == 1 && Awaits(conns, th.job) && th.job !in out
    && (!th.resolved ==> NoAddress(conns[th.job.id]) && Thread(th.job, true) !in threads)
  }

  ghost predicate ThreadsOk(conns: Conns, threads: multiset<Thread>, out: seq<Job>) {
    forall th :: th in threads ==> ThreadOk(conns, threads, out, th)
  }

  ghost predicate ListOk(conns: Conns, out: seq<Job>) {
    && (forall i :: 0 <= i < |out| ==> Awaits(conns, out[i]))
    && (forall i, j :: 0 <= i < j < |out| ==> out[i] != out[j])
  }

  ghost predicate HasJob(threads: multiset<Thread>, out: seq<Job>, lost: set<Job>, j: Job) {
    Thread(j, false) in threads || Thread(j, true) in threads || j in out || j in lost
  }

  ghost predicate WaitersOk(conns: Conns, threads: multiset<Thread>, out: seq<Job>, lost: set<Job>) {
    forall id :: Resolving(conns, id) ==> HasJob(threads, out, lost, Job(conns[id].clientFd, id))
  }

  /** A lost job is nowhere else, and its connection still waits for it. */
  ghost predicate LostOk(conns: Conns, threads: multiset<Thread>, out: seq<Job>, lost: set<Job>) {
    forall j :: j in lost ==>
      Awaits(conns, j) && j !in out && Thread(j, false) !in threads && Thread(j, true) !in threads
  }

  /** A connection in REQ_RESOLVE has its job somewhere, in one place only; no job is for anything else. */
  ghost predicate JobsOk(conns: Conns, threads: multiset<Thread>, out: seq<Job>, lost: set<Job>) {
    ThreadsOk(conns, threads, out) && ListOk(conns, out) && WaitersOk(conns, threads, out, lost) && LostOk(conns, threads, out, lost)
  }

  /** Every job queued was dispatched once or is still waiting; none was dropped. */
  ghost predicate LogOk(w: Process) {
    multiset(w.queued) == multiset(w.dispatched) + multiset(Outstanding(w)) && w.dropped == []
  }

  ghost predicate PlaceOk(w: Process) {
    w.place.AfterRead? ==>
      w.place.key.fd in w.t ==> w.t[w.place.key.fd].data == Client(w.place.key.id)
  }

  ghost predicate Core(w: Process) {
    && ConnsOk(w.conns, w.t) && CountOk(w)
    && JobsOk(w.conns, w.threads, Outstanding(w), w.lost) && LogOk(w)
  }

  ghost predicate Inv(w: Process) { Core(w) && PlaceOk(w) }

  // ---------------------------------------------------------------- steps on connections

  lemma OthersStayLive(c: Conn, id: nat, t: Slots, t': Slots, other: nat)
    requires Live(c, id, t) && SameOthers(t, t', other) && other != id && OnlyValidFds(t')
    ensures Live(c, id, t')
  {
  }

  lemma ReplaceConn(conns: Conns, t: Slots, id: nat, c: Conn, t': Slots)
    requires ConnsOk(conns, t) && id in conns && SameOthers(t, t', id) && Live(c, id, t')
    ensures ConnsOk(conns[id := c], t')
  {
    var conns' := conns[id := c];
    forall other | other in conns'
      ensures Live(conns'[other], other, t')
    {
      if other != id {
        OthersStayLive(conns[other], other, t, t', id);
      }
    }
  }

  /** Every connection that waits is unchanged, and none has begun to. */
  ghost predicate SameWaiting(conns: Conns, conns': Conns) {
    && (forall id :: Resolving(conns, id) ==> id in conns' && conns'[id] == conns[id])
    && (forall id :: Resolving(conns', id) ==> Resolving(conns, id))
  }

  /** Connections outside REQ_RESOLVE may change, come and go without any job noticing. */
  lemma JobsUnaffected(conns: Conns, conns': Conns, threads: multiset<Thread>, out: seq<Job>, lost: set<Job>)
    requires JobsOk(conns, threads, out, lost) && SameWaiting(conns, conns')
    ensures JobsOk(conns', threads, out, lost)
  {
    ThreadsUnaffected(conns, conns', threads, out);
    ListUnaffected(conns, conns', out);
    LostUnaffected(conns, conns', threads, out, lost);
    hide ThreadsOk, ListOk, LostOk;
    forall id | Resolving(conns', id)
      ensures HasJob(threads, out, lost, Job(conns'[id].clientFd, id))
    {
      assert Resolving(conns, id);
    }
  }

  lemma ThreadsUnaffected(conns: Conns, conns': Conns, threads: multiset<Thread>, out: seq<Job>)
    requires ThreadsOk(conns, threads, out) && (forall id :: Resolving(conns, id) ==> id in conns' && conns'[id] == conns[id])
    ensures ThreadsOk(conns', threads, out)
  {
    hide NoAddress;
    forall th | th in threads
      ensures ThreadOk(conns', threads, out, th)
    {
      assert ThreadOk(conns, threads, out, th);
    }
  }

  lemma ListUnaffected(conns: Conns, conns': Conns, out: seq<Job>)
    requires ListOk(conns, out) && (forall id :: Resolving(conns, id) ==> id in conns' && conns'[id] == conns[id])
    ensures ListOk(conns', out)
  {
    forall i | 0 <= i < |out|
      ensures Awaits(conns', out[i])
    {
      assert Awaits(conns, out[i]);
    }
  }

  lemma LostUnaffected(conns: Conns, conns': Conns, threads: multiset<Thread>, out: seq<Job>, lost: set<Job>)
    requires LostOk(conns, threads, out, lost) && (forall id :: Resolving(conns, id) ==> id in conns' && conns'[id] == conns[id])
    ensures LostOk(conns', threads, out, lost)
  {
    forall j | j in lost
      ensures Awaits(conns', j)
    {
      assert Awaits(conns, j);
    }
  }

  lemma JobSpawned(conns: Conns, c: Conn, j: Job, threads: multiset<Thread>, out: seq<Job>, lost: set<Job>)
    requires JobsOk(conns, threads, out, lost) && j.id in conns && !Resolving(conns, j.id)
    requires c.state == Some(ReqResolve) && c.clientFd == j.fd && NoAddress(c)
    ensures JobsOk(conns[j.id := c], threads + multiset{Thread(j, false)}, out, lost)
  {
    var conns' := conns[j.id := c];
    ThreadsUnaffected(conns, conns', threads, out);
    ListUnaffected(conns, conns', out);
    assert !Awaits(conns, j);
    LostUnaffected(conns, conns', threads, out, lost);
    ThreadAdded(conns', threads, out, j);
    WaiterAdded(conns, c, j, threads, out, lost);
  }

  lemma ThreadAdded(conns: Conns, threads: multiset<Thread>, out: seq<Job>, j: Job)
    requires ThreadsOk(conns, threads, out) && Awaits(conns, j) && NoAddress(conns[j.id])
    requires j !in out && Thread(j, false) !in threads && Thread(j, true) !in threads
    ensures ThreadsOk(conns, threads + multiset{Thread(j, false)}, out)
  {
    hide NoAddress, Awaits;
    var threads' := threads + multiset{Thread(j, false)};
    forall th | th in threads'
      ensures ThreadOk(conns, threads', out, th)
    {
      assert th != Thread(j, false) ==> th in threads && ThreadOk(conns, threads, out, th);
    }
  }

  lemma WaiterAdded(conns: Conns, c: Conn, j: Job, threads: multiset<Thread>, out: seq<Job>, lost: set<Job>)
    requires WaitersOk(conns, threads, out, lost) && c.clientFd == j.fd
    ensures WaitersOk(conns[j.id := c], threads + multiset{Thread(j, false)}, out, lost)
  {
    var conns' := conns[j.id := c];
    var threads' := threads + multiset{Thread(j, false)};
    forall id | Resolving(conns', id)
      ensures HasJob(threads', out, lost, Job(conns'[id].clientFd, id))
    {
      if id == j.id {
        assert Thread(j, false) in threads';
      } else {
        assert Resolving(conns, id);
      }
    }
  }

  // ---------------------------------------------------------------- closing

  ghost predicate OthersOk(conns: Conns, t: Slots, id: nat) {
    && (forall other :: other in conns && other != id ==> Live(conns[other], other, t))
    && (forall fd :: fd in t && t[fd].data.Client? ==> t[fd].data.id in conns)
  }

  /** What still matters of a connection that has reached a terminal state. */
  ghost predicate Ending(c: Conn, id: nat, t: Slots) {
    c.state != Some(ReqResolve) && Framed(c) && Addresses(c) && Registered(c, id, t)
  }

  ghost predicate Closing(w: Process, id: nat) {
    && id in w.conns && Ending(w.conns[id], id, w.t) && OthersOk(w.conns, w.t, id)
    && CountOk(w) && JobsOk(w.conns, w.threads, Outstanding(w), w.lost) && LogOk(w)
  }

  lemma ReleaseBuries(c: Conn)
    requires Framed(c) && Addresses(c)
    ensures Release(c).Ok? && Buried(Release(c).value)
  {
  }

  lemma BuryCounts(w: Process, id: nat, c: Conn, t': Slots)
    requires CountOk(w) && id in w.conns && Buried(c)
    ensures CountOk(w.(t := t', conns := w.conns - {id}, freed := w.freed[id := c], connections := w.connections - 1))
  {
    assert w.conns.Keys == (w.conns - {id}).Keys + {id};
    assert |(w.conns - {id}).Keys| == |w.conns.Keys| - 1;
  }

  /** The connection is gone and nothing else has changed. */
  ghost predicate GoneFrom(w: Process, id: nat, w': Process) {
    && id !in w'.conns
    && (forall fd :: fd in w'.t ==> w'.t[fd].data != Client(id))
    && SameOthers(w.t, w'.t, id)
    && w'.place == w.place
  }

  function Bury(w: Process, id: nat, c: Conn, t': Slots): Process {
    w.(t := t', conns := w.conns - {id}, freed := w.freed[id := c], connections := w.connections - 1)
  }

  lemma BuryConns(conns: Conns, t: Slots, id: nat)
    requires id in conns && Registered(conns[id], id, t) && OthersOk(conns, t, id)
    ensures var t' := t - {conns[id].clientFd, conns[id].originFd};
            && ConnsOk(conns - {id}, t') && SameOthers(t, t', id)
            && (forall fd :: fd in t' ==> t'[fd].data != Client(id))
  {
    hide Live;
    var t' := t - {conns[id].clientFd, conns[id].originFd};
    assert SameOthers(t, t', id);
    forall other | other in conns - {id}
      ensures Live(conns[other], other, t')
    {
      OthersStayLive(conns[other], other, t, t', id);
    }
  }

  lemma BuryJobs(conns: Conns, id: nat, threads: multiset<Thread>, out: seq<Job>, lost: set<Job>)
    requires JobsOk(conns, threads, out, lost) && !Resolving(conns, id)
    ensures JobsOk(conns - {id}, threads, out, lost)
  {
    JobsUnaffected(conns, conns - {id}, threads, out, lost);
  }

  lemma BuryKeeps(w: Process, id: nat, c: Conn)
    requires Closing(w, id) && Buried(c)
    ensures var w' := Bury(w, id, c, w.t - {w.conns[id].clientFd, w.conns[id].originFd});
            Core(w') && GoneFrom(w, id, w')
  {
    hide OthersOk, CountOk, JobsOk, SameOthers, ConnsOk, Buried, Framed, Addresses;
    BuryConns(w.conns, w.t, id);
    BuryCounts(w, id, c, w.t - {w.conns[id].clientFd, w.conns[id].originFd});
    BuryJobs(w.conns, id, w.threads, Outstanding(w), w.lost);
  }

  /** The first unregistration closes the client's descriptor; the object stays while the origin is open. */
  lemma ClientClosed(w: Process, id: nat)
    requires Closing(w, id)
    ensures var c := w.conns[id];
            var t1 := w.t - {c.clientFd};
            if c.originFd == -1 then
              && Release(c.(clientFd := -1)).Ok? && Buried(Release(c.(clientFd := -1)).value)
              && UnregisterFd(w, c.clientFd) == Ok(Bury(w, id, Release(c.(clientFd := -1)).value, t1))
            else
              UnregisterFd(w, c.clientFd) == Ok(w.(t := t1, conns := w.conns[id := c.(clientFd := -1)]))
  {
    hide CountOk, JobsOk, LogOk, OthersOk, Spoken, NegOver, AuthOver, ReqOver, Buried;
    if w.conns[id].originFd == -1 {
      ReleaseBuries(w.conns[id].(clientFd := -1));
    }
  }

  lemma OriginClosed(w: Process, id: nat, c: Conn)
    requires id in w.conns && c == w.conns[id] && c.clientFd == -1 && Framed(c) && Addresses(c)
    requires c.originFd in w.t && ValidFd(c.originFd) && w.t[c.originFd].data == Client(id)
    ensures Release(c.(originFd := -1)).Ok? && Buried(Release(c.(originFd := -1)).value)
    ensures UnregisterFd(w, c.originFd) == Ok(Bury(w, id, Release(c.(originFd := -1)).value, w.t - {c.originFd}))
  {
    ReleaseBuries(c.(originFd := -1));
  }

  lemma BuryLater(w: Process, id: nat, c: Conn, last: Conn, a: int, b: int)
    requires id in w.conns
    ensures var w1 := w.(t := w.t - {a}, conns := w.conns[id := c]);
            Bury(w1, id, last, w1.t - {b}) == Bury(w, id, last, w.t - {a, b})
  {
    assert w.t - {a} - {b} == w.t - {a, b};
    assert w.conns[id := c] - {id} == w.conns - {id};
  }

  lemma BothClosed(w: Process, id: nat)
    requires Closing(w, id) && w.conns[id].originFd != -1
    ensures var c := w.conns[id];
            var w1 := w.(t := w.t - {c.clientFd}, conns := w.conns[id := c.(clientFd := -1)]);
            var last := c.(clientFd := -1, originFd := -1);
            && Release(last).Ok? && Buried(Release(last).value)
            && UnregisterFd(w1, c.originFd) == Ok(Bury(w, id, Release(last).value, w.t - {c.clientFd, c.originFd}))
  {
    var c := w.conns[id];
    var c1 := c.(clientFd := -1);
    var w1 := w.(t := w.t - {c.clientFd}, conns := w.conns[id := c1]);
    OriginClosed(w1, id, c1);
    BuryLater(w, id, c1, Release(c1.(originFd := -1)).value, c.clientFd, c.originFd);
  }

  lemma ReleaseGrows(c: Conn, clientFd: int, originFd: int)
    requires Release(c.(clientFd := clientFd, originFd := originFd)).Ok?
    ensures Grows(c, Release(c.(clientFd := clientFd, originFd := originFd)).value)
  {
  }

  /** Both unregistrations of `socksv5_done` succeed, and the last close destroys the object. */
  lemma DoneBuries(w: Process, id: nat) returns (c': Conn)
    requires Closing(w, id)
    ensures Buried(c') && Grows(w.conns[id], c')
    ensures Done(w, id) == Ok(Bury(w, id, c', w.t - {w.conns[id].clientFd, w.conns[id].originFd}))
  {
    hide UnregisterFd, CountOk, JobsOk, OthersOk, Framed, Addresses, Buried, Release, Grows;
    var c := w.conns[id];
    ClientClosed(w, id);
    if c.originFd == -1 {
      assert c.(clientFd := -1) == c.(clientFd := -1, originFd := -1);
      ReleaseGrows(c, -1, -1);
      UnregisterNone(Bury(w, id, Release(c.(clientFd := -1)).value, w.t - {c.clientFd}));
      c' := Release(c.(clientFd := -1)).value;
      assert w.t - {c.clientFd} == w.t - {c.clientFd, c.originFd};
    } else {
      BothClosed(w, id);
      ReleaseGrows(c, -1, -1);
      c' := Release(c.(clientFd := -1, originFd := -1)).value;
    }
  }

  /** `socksv5_done` never aborts and leaves everything else in order. */
  lemma DoneKeeps(w: Process, id: nat)
    requires Closing(w, id)
    ensures Done(w, id).Ok? && Core(Done(w, id).value) && GoneFrom(w, id, Done(w, id).value)
  {
    var c' := DoneBuries(w, id);
    BuryKeeps(w, id, c');
  }

  // ---------------------------------------------------------------- settling a callback

  /** A callback on a connection has come back: its result keeps what it must, and no job was disturbed. */
  ghost predicate CameBack(w: Process, key: Key, r: Turn) {
    && ConnsOk(w.conns, w.t) && CountOk(w) && LogOk(w)
    && key.id in w.conns && Keeps(w.conns[key.id], w.t, key.id, Ok(r)) && r.c.state == Some(r.next)
    && JobsOk(w.conns[key.id := r.c], SpawnedBy(w, key, r), Outstanding(w), w.lost)
  }

  lemma SameCount(w: Process, w': Process)
    requires CountOk(w) && w'.conns.Keys == w.conns.Keys
    requires w'.connections == w.connections && w'.nextId == w.nextId && w'.freed == w.freed
    ensures CountOk(w')
  {
    assert |w'.conns| == |w'.conns.Keys| && |w.conns| == |w.conns.Keys|;
  }

  lemma AfterTurnCounts(w: Process, key: Key, r: Turn)
    requires CountOk(w) && key.id in w.conns
    ensures CountOk(AfterTurn(w, key, r))
  {
    assert AfterTurn(w, key, r).conns.Keys == w.conns.Keys;
    SameCount(w, AfterTurn(w, key, r));
  }

  lemma OthersAfterTurn(conns: Conns, t: Slots, id: nat, c: Conn, t': Slots)
    requires ConnsOk(conns, t) && id in conns && SameOthers(t, t', id) && OnlyValidFds(t')
    ensures OthersOk(conns[id := c], t', id)
  {
    forall other | other in conns && other != id
      ensures Live(conns[other], other, t')
    {
      OthersStayLive(conns[other], other, t, t', id);
    }
  }

  lemma EndingAfterTurn(c: Conn, t: Slots, id: nat, r: Turn)
    requires Keeps(c, t, id, Ok(r)) && r.c.state == Some(r.next) && Terminal(r.next)
    ensures Ending(r.c, id, r.t)
  {
    assert r.c == Jump(r.c, r.next);
  }

  lemma AfterTurnCloses(w: Process, key: Key, r: Turn)
    requires CameBack(w, key, r) && Terminal(r.next)
    ensures Closing(AfterTurn(w, key, r), key.id)
  {
    EndingAfterTurn(w.conns[key.id], w.t, key.id, r);
    OthersAfterTurn(w.conns, w.t, key.id, r.c, r.t);
    AfterTurnCounts(w, key, r);
  }

  lemma AfterTurnGoesOn(w: Process, key: Key, r: Turn)
    requires CameBack(w, key, r) && !Terminal(r.next)
    ensures Core(AfterTurn(w, key, r))
  {
    AfterTurnCounts(w, key, r);
    ReplaceConn(w.conns, w.t, key.id, r.c, r.t);
  }

  lemma SettleEnds(w: Process, key: Key, r: Turn)
    requires CameBack(w, key, r) && Terminal(r.next)
    ensures Settle(w, key, r).Ok? && Core(Settle(w, key, r).value)
    ensures SameOthers(w.t, Settle(w, key, r).value.t, key.id) && Settle(w, key, r).value.place == w.place
  {
    AfterTurnCloses(w, key, r);
    DoneKeeps(AfterTurn(w, key, r), key.id);
    hide Core, Closing, ConnsOk, CountOk, LogOk, JobsOk;
    SameOthersTransitive(w.t, r.t, Settle(w, key, r).value.t, key.id);
  }

  lemma SettleKeeps(w: Process, key: Key, r: Turn)
    requires CameBack(w, key, r)
    ensures Settle(w, key, r).Ok? && Core(Settle(w, key, r).value)
    ensures SameOthers(w.t, Settle(w, key, r).value.t, key.id) && Settle(w, key, r).value.place == w.place
  {
    if Terminal(r.next) {
      SettleEnds(w, key, r);
    } else {
      AfterTurnGoesOn(w, key, r);
    }
  }

  lemma SameOthersTransitive(t0: Slots, t1: Slots, t2: Slots, id: nat)
    requires SameOthers(t0, t1, id) && SameOthers(t1, t2, id)
    ensures SameOthers(t0, t2, id)
  {
  }
}
