/** src/server/stm.c: the engine that runs a table of states with hooks and event handlers. */
module StateMachine {
  import opened Results

  datatype Kind = Read | Write | Block

  /** A row of the table: its number, and which of its function pointers are set. */
  datatype StateDef = StateDef(state: nat, arrival: bool, departure: bool, handlers: set<Kind>)

  datatype Hook = Arrival(state: nat) | Departure(state: nat)

  /** An event and what the handler it reaches does: raise `nested` events itself, then return `next`. */
  datatype Event = Event(kind: Kind, nested: seq<Event>, next: nat)

  /** `current` (NULL before the first event) and every hook called so far. */
  datatype Machine = Machine(current: Option<nat>, hooks: seq<Hook>)

  datatype Table = Table(states: seq<StateDef>, initial: nat) {
    predicate Valid() {
      && initial < |states| - 1
      && forall i :: 0 <= i < |states| ==> states[i].state == i
    }

    function Arrive(s: nat): seq<Hook>
      requires s < |states|
    {
      if states[s].arrival then [Arrival(s)] else []
    }

    function Depart(s: nat): seq<Hook>
      requires s < |states|
    {
      if states[s].departure then [Departure(s)] else []
    }
  }

  /** A jump happens only to a state other than the current one. */
  predicate Moves<S(==)>(current: Option<S>, next: S) { current != Some(next) }

  ghost predicate Positioned(t: Table, m: Machine) {
    t.Valid() && (m.current.Some? ==> m.current.value < |t.states|)
  }

  function First(t: Table, m: Machine): (m': Machine)
    requires Positioned(t, m)
    ensures Positioned(t, m') && m'.current.Some?
  {
    if m.current == None then Machine(Some(t.initial), m.hooks + t.Arrive(t.initial)) else m
  }

  function Jump(t: Table, m: Machine, next: nat): (r: Result<Machine>)
    requires Positioned(t, m)
    ensures r.Ok? ==> Positioned(t, r.value)
  {
    if next >= |t.states| then Crashed(BadState)
    else if !Moves(m.current, next) then Ok(m)
    else
      var left := if m.current.Some? then t.Depart(m.current.value) else [];
      Ok(Machine(Some(next), m.hooks + left + t.Arrive(next)))
  }

  function Handle(t: Table, m: Machine, e: Event): (r: Result<Machine>)
    requires Positioned(t, m)
    ensures r.Ok? ==> Positioned(t, r.value)
    decreases e
  {
    var m1 := First(t, m);
    if e.kind !in t.states[m1.current.value].handlers then Crashed(MissingHandler)
    else
      var m2 :- HandleAll(t, m1, e.nested);
      Jump(t, m2, e.next)
  }

  function HandleAll(t: Table, m: Machine, es: seq<Event>): (r: Result<Machine>)
    requires Positioned(t, m)
    ensures r.Ok? ==> Positioned(t, r.value)
    decreases es
  {
    if es == [] then Ok(m)
    else
      var m1 :- Handle(t, m, es[0]);
      HandleAll(t, m1, es[1..])
  }

  /** The states visited so far, in order. */
  datatype Path = NotStarted | To(before: Path, state: nat)

  /** A path starts at the initial state and never goes from a state to itself. */
  ghost predicate IsPath(t: Table, p: Path) {
    p.To? ==>
      && p.state < |t.states|
      && (if p.before.To? then p.before.state != p.state else p.state == t.initial)
      && IsPath(t, p.before)
  }

  /** The hooks called on the way: one departure and one arrival per change of state. */
  ghost function HooksOf(t: Table, p: Path): seq<Hook>
    requires IsPath(t, p)
  {
    match p
    case NotStarted => []
    case To(NotStarted, s) => t.Arrive(s)
    case To(before, s) => HooksOf(t, before) + t.Depart(before.state) + t.Arrive(s)
  }

  ghost predicate Chain(t: Table, m: Machine, p: Path) {
    && Positioned(t, m)
    && IsPath(t, p)
    && m.current == (if p.To? then Some(p.state) else None)
    && m.hooks == HooksOf(t, p)
  }

  ghost predicate Extends(p': Path, p: Path) { p' == p || (p'.To? && Extends(p'.before, p)) }

  lemma {:induction false} ExtendsTransitive(a: Path, b: Path, c: Path)
    requires Extends(a, b) && Extends(b, c)
    ensures Extends(a, c)
  {
    if a != b {
      ExtendsTransitive(a.before, b, c);
    }
  }

  /** Any event, with handlers that re-enter the machine to any depth, extends the chain. */
  lemma {:induction false} HandleExtends(t: Table, m: Machine, e: Event, p: Path) returns (p': Path)
    requires Chain(t, m, p) && Handle(t, m, e).Ok?
    ensures Chain(t, Handle(t, m, e).value, p') && Extends(p', p)
    ensures p'.To? && p'.state == e.next
    decreases e
  {
    var p1 := if p.To? then p else To(p, t.initial);
    var p2 := HandleAllExtends(t, First(t, m), e.nested, p1);
    p' := if p2.To? && p2.state == e.next then p2 else To(p2, e.next);
    ExtendsTransitive(p2, p1, p);
  }

  lemma {:induction false} HandleAllExtends(t: Table, m: Machine, es: seq<Event>, p: Path) returns (p': Path)
    requires Chain(t, m, p) && HandleAll(t, m, es).Ok?
    ensures Chain(t, HandleAll(t, m, es).value, p') && Extends(p', p)
    ensures if es == [] then p' == p else p'.To? && p'.state == es[|es| - 1].next
    decreases es
  {
    if es == [] {
      p' := p;
    } else {
      var p1 := HandleExtends(t, m, es[0], p);
      p' := HandleAllExtends(t, Handle(t, m, es[0]).value, es[1..], p1);
      ExtendsTransitive(p', p1, p);
    }
  }

  /** Over any run from NULL, the hooks called are those of the states visited, each change once. */
  lemma RunsFormOneChain(t: Table, es: seq<Event>) returns (p: Path)
    requires t.Valid() && HandleAll(t, Machine(None, []), es).Ok?
    ensures Chain(t, HandleAll(t, Machine(None, []), es).value, p)
    ensures es != [] ==> p.To? && p.state == es[|es| - 1].next
  {
    p := HandleAllExtends(t, Machine(None, []), es, NotStarted);
  }

  /** The relay's case: a handler that raises one event and returns its result changes state once. */
  lemma ReturningTheNestedResult(t: Table, m: Machine, outer: Kind, inner: Event)
    requires Positioned(t, m) && m.current.Some? && outer in t.states[m.current.value].handlers
    requires Handle(t, m, inner).Ok?
    ensures Handle(t, m, Event(outer, [inner], inner.next)) == Handle(t, m, inner)
  {
    var m1 := Handle(t, m, inner).value;
    assert [inner][1..] == [];
    assert HandleAll(t, m1, []) == Ok(m1);
    assert HandleAll(t, m, [inner]) == Ok(m1);
  }

  class Stm {
    const table: Table
    var current: Option<nat>
    var hooks: seq<Hook>

    ghost predicate Valid()
      reads this
    {
      Positioned(table, View())
    }

    ghost function View(): Machine
      reads this
    {
      Machine(current, hooks)
    }

    constructor (t: Table)
      requires t.Valid()
      ensures table == t && Valid() && View() == Machine(None, [])
    {
      table, current, hooks := t, None, [];
    }

    /** `stm_init`: true iff it does not abort. */
    static method Check(states: seq<StateDef>, initial: nat) returns (ok: bool)
      requires states != []
      ensures ok <==> Table(states, initial).Valid()
    {
      var i := 0;
      while i <= |states| - 1
        invariant 0 <= i <= |states|
        invariant forall k :: 0 <= k < i ==> states[k].state == k
      {
        if i != states[i].state {
          return false;
        }
        i := i + 1;
      }
      return initial < |states| - 1;
    }

    method CallArrival(s: nat)
      requires s < |table.states|
      modifies this`hooks
      ensures hooks == old(hooks) + table.Arrive(s)
    {
      if table.states[s].arrival {
        hooks := hooks + [Arrival(s)];
      }
    }

    method CallDeparture(s: nat)
      requires s < |table.states|
      modifies this`hooks
      ensures hooks == old(hooks) + table.Depart(s)
    {
      if table.states[s].departure {
        hooks := hooks + [Departure(s)];
      }
    }

    method HandleFirst()
      requires Valid()
      modifies this
      ensures Valid() && View() == First(table, old(View()))
    {
      if current == None {
        current := Some(table.initial);
        CallArrival(current.value);
      }
    }

    method DoJump(next: nat) returns (ok: bool)
      requires Valid()
      modifies this
      ensures ok <==> Jump(table, old(View()), next).Ok?
      ensures ok ==> Valid() && View() == Jump(table, old(View()), next).value
    {
      if next > |table.states| - 1 {
        return false;
      }
      if Moves(current, next) {
        if current.Some? {
          CallDeparture(current.value);
        }
        current := Some(next);
        CallArrival(next);
      }
      return true;
    }

    /** `stm_handler_read`, `_write` and `_block`, with the handler's own re-entrant calls; false is `abort`. */
    method HandleEvent(e: Event) returns (ok: bool)
      requires Valid()
      modifies this
      ensures ok <==> Handle(table, old(View()), e).Ok?
      ensures ok ==> Valid() && View() == Handle(table, old(View()), e).value
      decreases e
    {
      HandleFirst();
      if e.kind !in table.states[current.value].handlers {
        return false;
      }
      ghost var m := View();
      var i := 0;
      while i < |e.nested|
        invariant i <= |e.nested| && Valid()
        invariant HandleAll(table, m, e.nested) == HandleAll(table, View(), e.nested[i..])
      {
        assert e.nested[i..][1..] == e.nested[i + 1..];
        var done := HandleEvent(e.nested[i]);
        if !done {
          return false;
        }
        i := i + 1;
      }
      ok := DoJump(e.next);
    }

    /** `stm_handler_close`: the departure hook of the current state; `current` stays. */
    method HandleClose()
      requires Valid()
      modifies this`hooks
      ensures hooks == old(hooks) + if current.Some? then table.Depart(current.value) else []
    {
      if current.Some? {
        CallDeparture(current.value);
      }
    }
  }
}
