/**
 * The whole server: every connection, the selector's table, the resolver threads and their job list, as a
 * state machine whose steps are the callbacks of src/shared/selector.c and the moves of the threads.
 */
module Server {
  import opened Bytes
  import opened Results
  import opened SelectorTable
  import opened Connection
  import U = Users

  /** A resolver's job: the client descriptor it will name, and the object it was started for. */
  datatype Job = Job(fd: int, id: nat)

  datatype Thread = Thread(job: Job, resolved: bool)

  /** Where the selector's thread is. */
  datatype Place =
    | Idle
    | AfterRead(key: Key)              // handle_iteration: a read callback has run, its key is still in use
    | Notifying(rest: seq<Job>)        // handle_block_notifications: holding the lock, `rest` not yet visited

  /**
   * `conns` are the `client_data` objects that have not been freed, `jobs` is `resolution_jobs`, and `users` is the
   * user table. The last five fields are history: freed objects as they were, and jobs queued, dispatched, dropped, or
   * lost, for want of a thread or of memory.
   */
  datatype Process = Process(
    conns: map<nat, Conn>,
    t: Slots,
    nextId: nat,
    connections: int,
    threads: multiset<Thread>,
    jobs: seq<Job>,
    place: Place,
    users: U.Table,
    freed: map<nat, Conn>,
    queued: seq<Job>,
    dispatched: seq<Job>,
    dropped: seq<Job>,
    lost: set<Job>)

  /** `selector_unregister_fd` on one of a connection's descriptors, with `socksv5_close`; failure is `abort()`. */
  function UnregisterFd(w: Process, fd: int): Result<Process> {
    if fd == -1 then Ok(w)
    else if Unregister(w.t, fd).0 != Success then Crashed(UnregisterFailed)
    else
      var gone := w.(t := Unregister(w.t, fd).1);
      match w.t[fd].data
      case Other => Ok(gone)
      case Client(id) =>
        if id !in w.conns then Crashed(WildAccess)
        else
          var c := CloseHook(w.conns[id], fd);
          if !Closed(c) then Ok(gone.(conns := w.conns[id := c]))
          else
            var c' :- Release(c);
            Ok(gone.(conns := w.conns - {id}, freed := w.freed[id := c'], connections := w.connections - 1))
  }

  lemma UnregisterNone(w: Process)
    ensures UnregisterFd(w, -1) == Ok(w)
  {
  }

  /** `socksv5_done`. */
  function Done(w: Process, id: nat): Result<Process> {
    if id !in w.conns then Crashed(WildAccess)
    else
      var (clientFd, originFd) := (w.conns[id].clientFd, w.conns[id].originFd);
      var w1 :- UnregisterFd(w, clientFd);
      UnregisterFd(w1, originFd)
  }

  function SpawnedBy(w: Process, key: Key, r: Turn): multiset<Thread> {
    if r.spawned then w.threads + multiset{Thread(Job(key.fd, key.id), false)} else w.threads
  }

  function AfterTurn(w: Process, key: Key, r: Turn): Process {
    w.(conns := w.conns[key.id := r.c], t := r.t, threads := SpawnedBy(w, key, r))
  }

  /** `socksv5_read`, `_write` and `_block` once the state machine has answered. */
  function Settle(w: Process, key: Key, r: Turn): Result<Process> {
    var w1 := AfterTurn(w, key, r);
    if r.next == SocksError || r.next == SocksDone then Done(w1, key.id) else Ok(w1)
  }

  function SocksRead(w: Process, key: Key, k: Kernel): Result<Process> {
    if key.id !in w.conns then Crashed(WildAccess)
    else
      var r :- OnRead(w.conns[key.id], w.t, key, k);
      Settle(w, key, r)
  }

  function SocksWrite(w: Process, key: Key, k: Kernel): Result<Process> {
    if key.id !in w.conns then Crashed(WildAccess)
    else
      var r :- OnWrite(w.conns[key.id], w.t, key, k);
      Settle(w, key, r)
  }

  function SocksBlock(w: Process, key: Key, k: Kernel): Result<Process> {
    if key.id !in w.conns then Crashed(WildAccess)
    else
      var r :- OnBlock(w.conns[key.id], w.t, key, k);
      Settle(w, key, r)
  }

  /** `socks_v5_passive_accept` on descriptor `fd`, once it is non-blocking and its object is allocated. */
  function Accept(w: Process, fd: int, prepared: bool): Process {
    if !prepared then w
    else
      var id := w.nextId;
      var (status, t') := Register(w.t, fd, OP_READ, Client(id));
      if status != Success then w.(nextId := id + 1, freed := w.freed[id := New(fd)])
      else w.(nextId := id + 1, conns := w.conns[id := New(fd)], t := t', connections := w.connections + 1)
  }

  /** What the lock-protected list still holds for the selector's thread. */
  function Outstanding(w: Process): seq<Job> {
    if w.place.Notifying? then w.place.rest else w.jobs
  }

  datatype Action =
    | AcceptClient(fd: int, prepared: bool)
    | ForeignRegister(fd: int, interest: Interest)
    | ForeignInterest(fd: int, interest: Interest)
    | ForeignUnregister(fd: int)
    | ReadReady(fd: int, k: Kernel)
    | WriteReady(fd: int, k: Kernel)
    | NextFd
    | ThreadFails(job: Job)                              // pthread_create's error, which is not tested for: it is not -1
    | ThreadResolves(job: Job, result: seq<Target>)      // getaddrinfo's list, empty when it fails
    | ThreadNotifies(job: Job, memory: bool)
    | TakeJobs
    | NotifyOne(k: Kernel)
    | ResetJobs
    | Manage(op: U.Op)                                   // a manager's command on the user table

  /** Sockets that are not connections: the passive ones and the manager's. */
  predicate Foreign(t: Slots, fd: int) { fd in t && t[fd].data == Other }

  predicate OwnedByClient(t: Slots, fd: int) { fd in t && t[fd].data.Client? }

  /** The key a callback on `fd` gets: the slot's attachment, or the one read before the read callback ran. */
  function KeyFor(w: Process, fd: int): Key
    requires OwnedByClient(w.t, fd)
  {
    if w.place.AfterRead? then w.place.key else Key(fd, w.t[fd].data.id)
  }

  /** New descriptors are not among the registered ones, other than an origin's that is closed first. */
  ghost predicate Unopened(attempts: seq<Attempt>, t: Slots) {
    forall a :: a in attempts && a.Opened? ==> a.fd !in t
  }

  ghost predicate KernelAllows(w: Process, id: nat, k: Kernel) {
    id in w.conns ==> Unopened(k.attempts, w.t - {w.conns[id].originFd})
  }

  ghost predicate Enabled(w: Process, a: Action) {
    match a
    case AcceptClient(fd, _) => w.place == Idle && fd !in w.t
    case ForeignRegister(fd, _) => w.place == Idle && fd !in w.t && ValidFd(fd)
    case ForeignInterest(fd, _) => w.place == Idle && Foreign(w.t, fd)
    case ForeignUnregister(fd) => w.place == Idle && Foreign(w.t, fd)
    case ReadReady(fd, k) =>
      && w.place == Idle && OwnedByClient(w.t, fd) && w.t[fd].interest.read
      && Unopened(k.attempts, w.t) && k.users == w.users
    case WriteReady(fd, k) =>
      && (w.place == Idle || (w.place.AfterRead? && w.place.key.fd == fd))
      && OwnedByClient(w.t, fd) && w.t[fd].interest.write
      && KernelAllows(w, KeyFor(w, fd).id, k) && k.users == w.users
    case NextFd => w.place.AfterRead?
    case ThreadFails(job) => Thread(job, false) in w.threads
    case ThreadResolves(job, _) => Thread(job, false) in w.threads
    case ThreadNotifies(job, _) => Thread(job, true) in w.threads && !w.place.Notifying?
    case TakeJobs => w.place == Idle
    case NotifyOne(k) =>
      w.place.Notifying? && w.place.rest != [] && Unopened(k.attempts, w.t) && k.users == w.users
    case ResetJobs => w.place.Notifying? && w.place.rest == []
    case Manage(op) => w.place == Idle && U.CanDo(w.users, op)
  }

  /** The thread stores the resolver's answer in the connection it was started for. */
  function StoreAnswer(c: Conn, result: seq<Target>): Conn {
    if result == [] then c.(originAddr := None, current := [])
    else
      c.(originAddr := Some(AddressList(Getaddrinfo, result)), current := result, offered := result,
         obtained := c.obtained + [Getaddrinfo])
  }

  /** `handle_block` for the job at the head of the list. */
  function Dispatch(w: Process, k: Kernel): Result<Process>
    requires w.place.Notifying? && w.place.rest != []
  {
    var job := w.place.rest[0];
    var w1 := w.(place := Notifying(w.place.rest[1..]));
    if job.fd !in w.t then Ok(w1.(dropped := w.dropped + [job]))
    else
      match w.t[job.fd].data
      case Other => Crashed(MissingHandler)
      case Client(id) => SocksBlock(w1.(dispatched := w.dispatched + [job]), Key(job.fd, id), k)
  }

  ghost function Step(w: Process, a: Action): Result<Process>
    requires Enabled(w, a)
  {
    match a
    case AcceptClient(fd, prepared) => Ok(Accept(w, fd, prepared))
    case ForeignRegister(fd, interest) => Ok(w.(t := w.t[fd := Slot(interest, Other)]))
    case ForeignInterest(fd, interest) => Ok(w.(t := w.t[fd := Slot(interest, Other)]))
    case ForeignUnregister(fd) => Ok(w.(t := w.t - {fd}))
    case ReadReady(fd, k) =>
      var key := KeyFor(w, fd);
      var w1 :- SocksRead(w, key, k);
      Ok(w1.(place := AfterRead(key)))
    case WriteReady(fd, k) =>
      var w1 :- SocksWrite(w, KeyFor(w, fd), k);
      Ok(w1.(place := Idle))
    case NextFd => Ok(w.(place := Idle))
    case ThreadFails(job) => Ok(w.(threads := w.threads - multiset{Thread(job, false)}, lost := w.lost + {job}))
    case ThreadResolves(job, result) =>
      if job.id !in w.conns then Crashed(WildAccess)
      else
        Ok(w.(conns := w.conns[job.id := StoreAnswer(w.conns[job.id], result)],
              threads := w.threads - multiset{Thread(job, false)} + multiset{Thread(job, true)}))
    case ThreadNotifies(job, memory) =>
      var w1 := w.(threads := w.threads - multiset{Thread(job, true)});
      Ok(if memory then w1.(jobs := [job] + w.jobs, queued := w.queued + [job]) else w1.(lost := w.lost + {job}))
    case TakeJobs => Ok(w.(place := Notifying(w.jobs)))
    case NotifyOne(k) => Dispatch(w, k)
    case ResetJobs => Ok(w.(jobs := [], place := Idle))
    case Manage(op) => if U.Overruns(w.users, op) then Crashed(WildAccess) else Ok(w.(users := U.Do(w.users, op)))
  }

  /** Before the first client: no connections, a table of passive sockets only, and the users in order. */
  ghost predicate Initial(w: Process) {
    && U.Good(w.users)
    && (forall fd :: fd in w.t ==> ValidFd(fd) && w.t[fd].data == Other)
    && w == Process(map[], w.t, 0, 0, multiset{}, [], Idle, w.users, map[], [], [], [], {})
  }

  ghost predicate CanRun(w: Process, run: seq<Action>)
    decreases |run|
  {
    run == [] || (Enabled(w, run[0]) && Step(w, run[0]).Ok? && CanRun(Step(w, run[0]).value, run[1..]))
  }

  ghost function Run(w: Process, run: seq<Action>): Process
    requires CanRun(w, run)
    decreases |run|
  {
    if run == [] then w else Run(Step(w, run[0]).value, run[1..])
  }
}
