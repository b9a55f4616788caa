/** The pass of `handle_iteration` over the selector's table, with the server's callbacks, is the server's pass. */
module PassRefinement {
  import opened Bytes
  import opened Results
  import opened SelectorTable
  import opened Connection
  import opened ConnectionInvariant
  import opened Server
  import opened ServerInvariant
  import opened ServerPass
  import S = Selectors

  /** The server after the calls of a pass so far. */
  ghost function Replay(w: Process, e: Report, calls: seq<S.Call<Owner>>): Result<Process>
    decreases |calls|
  {
    if calls == [] then Ok(w)
    else
      var c := calls[|calls| - 1];
      var w1 :- Replay(w, e, calls[..|calls| - 1]);
      Handle(At(w1, c.kind, c.fd), e, c.kind, c.fd, c.data)
  }

  /** Operations that make `t` agree with `t'` from descriptor `k` on. */
  function Difference(t: Slots, t': Slots, k: nat): seq<S.Op<Owner>>
    decreases ITEMS_MAX_SIZE - k
  {
    if k >= ITEMS_MAX_SIZE then []
    else
      Leave(t, t', k) + Enter(t, t', k) + Difference(t, t', k + 1)
  }

  function Leave(t: Slots, t': Slots, k: nat): seq<S.Op<Owner>> {
    if k in t && (k !in t' || t'[k] != t[k]) then [S.Unregister(k)] else []
  }

  function Enter(t: Slots, t': Slots, k: nat): seq<S.Op<Owner>> {
    if k in t' && (k !in t || t'[k] != t[k]) then [S.Register(k, t'[k].interest, t'[k].data)] else []
  }

  /** The length of the server's array. */
  const SIZE: nat := ITEMS_MAX_SIZE + 1

  /** What the callback that was called last has done to the table. */
  ghost function Effect(w: Process, e: Report, calls: seq<S.Call<Owner>>): seq<S.Op<Owner>> {
    if calls == [] then []
    else
      var (r, r') := (Replay(w, e, calls[..|calls| - 1]), Replay(w, e, calls));
      if r.Ok? && r'.Ok? then Difference(r.value.t, r'.value.t, 0) else []
  }

  /** The round of `handle_iteration` whose callbacks are the server's. */
  ghost function RoundOf(w: Process, e: Report): S.Round<Owner> {
    S.Round(e.readable, e.writable, calls => Effect(w, e, calls), SIZE)
  }

  /** `t'` below `k`, `t` from there on. */
  function Upto(t: Slots, t': Slots, k: int): Slots {
    map fd | fd in t.Keys + t'.Keys && (if fd < k then fd in t' else fd in t) :: if fd < k then t'[fd] else t[fd]
  }

  lemma {:induction false} Applied(t: Slots, ops: seq<S.Op<Owner>>, more: seq<S.Op<Owner>>)
    ensures S.ApplyAll(t, ops + more, SIZE) == S.ApplyAll(S.ApplyAll(t, ops, SIZE), more, SIZE)
    decreases |ops|
  {
    if ops == [] {
      assert [] + more == more;
    } else {
      assert (ops + more)[1..] == ops[1..] + more;
      Applied(S.Apply(t, ops[0], SIZE), ops[1..], more);
    }
  }

  lemma ApplyOne(t: Slots, op: S.Op<Owner>)
    ensures S.ApplyAll(t, [op], SIZE) == S.Apply(t, op, SIZE)
  {
    assert [op][1..] == [];
  }

  lemma OneSlotApplies(t: Slots, t': Slots, k: nat)
    requires k < ITEMS_MAX_SIZE
    ensures S.ApplyAll(S.ApplyAll(Upto(t, t', k), Leave(t, t', k), SIZE), Enter(t, t', k), SIZE) == Upto(t, t', k + 1)
  {
    hide S.ApplyAll;
    var u := Upto(t, t', k);
    ApplyOne(u, S.Unregister(k));
    var u1 := S.ApplyAll(u, Leave(t, t', k), SIZE);
    ApplyNone(u);
    assert u1 == if Leave(t, t', k) == [] then u else u - {k};
    ApplyNone(u1);
    if k in t' {
      ApplyOne(u1, S.Register(k, t'[k].interest, t'[k].data));
    }
  }

  lemma ApplyNone(t: Slots)
    ensures S.ApplyAll(t, [], SIZE) == t
  {
  }

  lemma {:induction false} DifferenceApplies(t: Slots, t': Slots, k: nat)
    requires OnlyValidFds(t) && OnlyValidFds(t') && k <= ITEMS_MAX_SIZE
    ensures S.ApplyAll(Upto(t, t', k), Difference(t, t', k), SIZE) == t'
    decreases ITEMS_MAX_SIZE - k
  {
    if k == ITEMS_MAX_SIZE {
      assert Upto(t, t', k) == t';
    } else {
      var leave, enter := Leave(t, t', k), Enter(t, t', k);
      Applied(Upto(t, t', k), leave + enter, Difference(t, t', k + 1));
      Applied(Upto(t, t', k), leave, enter);
      OneSlotApplies(t, t', k);
      DifferenceApplies(t, t', k + 1);
    }
  }

  /** The pass over the table has made the calls that lead the server to `w`. */
  ghost predicate InStep(w0: Process, e: Report, p: S.Progress<Owner>, w: Process) {
    Replay(w0, e, p.calls) == Ok(w) && p.table == w.t
  }

  /** A handler is called from where the loop is, unless it follows the read of its own slot. */
  function At(w: Process, kind: S.Kind, i: int): Process {
    if kind == S.Writing && w.place.AfterRead? && w.place.key.fd == i then w else w.(place := Idle)
  }

  lemma HandlerInStep(w0: Process, e: Report, p: S.Progress<Owner>, w: Process, kind: S.Kind, i: int, data: Owner)
    requires InStep(w0, e, p, w) && Handle(At(w, kind, i), e, kind, i, data).Ok?
    requires OnlyValidFds(w.t) && OnlyValidFds(Handle(At(w, kind, i), e, kind, i, data).value.t)
    ensures InStep(w0, e, S.CallHandler(RoundOf(w0, e), p, kind, i, data), Handle(At(w, kind, i), e, kind, i, data).value)
  {
    hide Handle, Difference, S.ApplyAll, Upto;
    var calls := p.calls + [S.Call(kind, i, data, p.table)];
    assert calls[..|calls| - 1] == p.calls;
    var w' := Handle(At(w, kind, i), e, kind, i, data).value;
    UptoNone(w.t, w'.t);
    DifferenceApplies(w.t, w'.t, 0);
  }

  lemma UptoNone(t: Slots, t': Slots)
    requires OnlyValidFds(t) && OnlyValidFds(t')
    ensures Upto(t, t', 0) == t
  {
  }

  lemma ValidTable(w: Process)
    requires Inv(w)
    ensures OnlyValidFds(w.t)
  {
  }

  lemma ReadInStep(w0: Process, e: Report, p: S.Progress<Owner>, w: Process, i: int) returns (p1: S.Progress<Owner>, w1: Process)
    requires InStep(w0, e, p, w) && Inv(w.(place := Idle)) && Possible(e) && i in w.t
    requires w.place.AfterRead? ==> w.place.key.fd < i
    requires VisitRead(w.(place := Idle), e, i).Ok?
    ensures p1 == if i in e.readable && p.table[i].interest.read
                  then S.CallHandler(RoundOf(w0, e), p, S.Reading, i, p.table[i].data) else p
    ensures InStep(w0, e, p1, w1) && At(w1, S.Writing, i) == VisitRead(w.(place := Idle), e, i).value
    ensures w1.place.AfterRead? ==> w1.place.key.fd <= i
    ensures Read(At(w1, S.Writing, i), i, w.t[i].data)
  {
    hide Inv, Handle, Replay, Possible, RoundOf, S.CallHandler;
    var data := w.t[i].data;
    var _ := VisitReadIsARun(w.(place := Idle), e, i);
    if i in e.readable && w.t[i].interest.read {
      p1, w1 := S.CallHandler(RoundOf(w0, e), p, S.Reading, i, data), Handle(w.(place := Idle), e, S.Reading, i, data).value;
      ValidTable(w.(place := Idle));
      ValidTable(w1);
      HandlerInStep(w0, e, p, w, S.Reading, i, data);
    } else {
      p1, w1 := p, w;
    }
  }

  lemma VisitInStep(w0: Process, e: Report, p: S.Progress<Owner>, w: Process, i: int) returns (w': Process)
    requires InStep(w0, e, p, w) && Inv(w.(place := Idle)) && Possible(e)
    requires w.place.AfterRead? ==> w.place.key.fd < i
    requires Visit(w.(place := Idle), e, i).Ok?
    ensures InStep(w0, e, S.Visit(RoundOf(w0, e), p, i), w') && w'.(place := Idle) == Visit(w.(place := Idle), e, i).value
    ensures w'.place.AfterRead? ==> w'.place.key.fd <= i
    ensures Inv(w'.(place := Idle))
  {
    hide Inv, Handle, Replay, Possible, S.CallHandler, VisitRead;
    KeepsInv(w.(place := Idle), e, i);
    if i !in w.t {
      w' := w;
    } else {
      var data := w.t[i].data;
      var p1, w1 := ReadInStep(w0, e, p, w, i);
      var u := At(w1, S.Writing, i);
      if i in e.writable && i in w1.t && w1.t[i].interest.write {
        w' := Handle(u, e, S.Writing, i, data).value;
        WriteReturns(u, e, i, data);
        ValidTable(u);
        ValidTable(w');
        HandlerInStep(w0, e, p1, w1, S.Writing, i, data);
      } else {
        w' := w1;
      }
    }
  }

  lemma KeepsInv(w: Process, e: Report, i: int)
    requires Inv(w) && Possible(e) && w.place == Idle && Visit(w, e, i).Ok?
    ensures Inv(Visit(w, e, i).value)
  {
    hide Inv, Visit, Possible;
    var run := VisitIsARun(w, e, i);
    RunKeepsInv(w, run, Visit(w, e, i).value);
  }

  lemma WriteReturns(w: Process, e: Report, i: int, data: Owner)
    requires Read(w, i, data) && Possible(e) && i in w.t && w.t[i].interest.write && Handle(w, e, S.Writing, i, data).Ok?
    ensures Inv(Handle(w, e, S.Writing, i, data).value) && Handle(w, e, S.Writing, i, data).value.place == Idle
  {
    hide Inv, Handle, Possible;
    var _ := HandleIsARun(w, e, S.Writing, i, data);
  }

  lemma {:induction false} PassInStep(w0: Process, e: Report, p: S.Progress<Owner>, w: Process, i: int, n: int) returns (w': Process)
    requires InStep(w0, e, p, w) && Inv(w.(place := Idle)) && Possible(e)
    requires w.place.AfterRead? ==> w.place.key.fd < i
    requires Pass(w.(place := Idle), e, i, n).Ok?
    ensures InStep(w0, e, S.Pass(RoundOf(w0, e), p, i, n), w') && w'.(place := Idle) == Pass(w.(place := Idle), e, i, n).value
    decreases n + 1 - i
  {
    hide Inv, InStep, Possible, Visit, RoundOf, S.Visit;
    if i > n {
      w' := w;
    } else {
      var w1 := VisitInStep(w0, e, p, w, i);
      w' := PassInStep(w0, e, S.Visit(RoundOf(w0, e), p, i), w1, i + 1, n);
    }
  }

  /**
   * The pass that `handle_iteration` makes over the table, with the server's callbacks, is the server's pass: its calls
   * lead the server where the pass does, and the table it leaves is the server's.
   */
  lemma TheLoopIsThePass(w: Process, e: Report, n: int) returns (w': Process)
    requires Inv(w) && Possible(e) && w.place == Idle && Pass(w, e, 0, n).Ok?
    ensures var p := S.Pass(RoundOf(w, e), S.Progress([], w.t), 0, n);
            && Replay(w, e, p.calls) == Ok(w') && p.table == w'.t
            && w'.(place := Idle) == Pass(w, e, 0, n).value
  {
    hide Inv, Possible, Pass, RoundOf, S.Pass;
    assert w.(place := Idle) == w;
    w' := PassInStep(w, e, S.Progress([], w.t), w, 0, n);
  }
}
