/**
 * The table-driven parser of src/server/parser.c and the automaton that src/server/parser_utils.c builds to
 * compare its input with a string, ignoring case.
 */
module StringAutomaton {
  import opened Bytes
  import opened Results

  // ---------------------------------------------------------------- characters

  /** Characters of the strings to compare with. */
  type Ascii = c: byte | c < 128

  function ToLower(c: byte): byte { if 65 <= c <= 90 then c + 32 else c }

  function ToUpper(c: byte): byte { if 97 <= c <= 122 then c - 32 else c }

  predicate SameLetter(a: byte, b: byte) { ToLower(a) == ToLower(b) }

  predicate SameIgnoringCase(a: seq<byte>, b: seq<byte>) {
    |a| == |b| && forall i :: 0 <= i < |a| ==> SameLetter(a[i], b[i])
  }

  /** The two labels of a row stand for exactly one letter. */
  lemma LabelsOfALetter(x: Ascii, c: byte)
    ensures c == ToLower(x) || c == ToUpper(x) <==> SameLetter(x, c)
  {
  }

  // ---------------------------------------------------------------- definitions and events

  datatype Action = MayEq | Eq | Neq

  /** An action writes the event's type, its length (1) and its first byte. */
  datatype Event = Event(kind: Option<Action>, n: nat, first: byte, next: bool)

  function Act(a: Action, c: byte): Event { Event(Some(a), 1, c, false) }

  const ANY: int := 512

  /** `act1` is NULL in storage that calloc left untouched. */
  datatype Transition = Transition(when: int, dest: nat, act1: Option<Action>, act2: Option<Action>)

  const UNTOUCHED := Transition(0, 0, None, None)

  /** The three assignments of the table construction. */
  function Written(tr: Transition, when: int, dest: nat, act1: Action): Transition {
    Transition(when, dest, Some(act1), tr.act2)
  }

  /** `states[q]` is where the row of state `q` starts in `transitions`, `statesN[q]` its length. */
  datatype Definition = Definition(transitions: seq<Transition>, states: seq<nat>, statesN: seq<nat>, start: nat)
  {
    predicate HasRow(q: nat) {
      q < |states| == |statesN| && states[q] + statesN[q] <= |transitions|
    }

    function Row(q: nat): seq<Transition>
      requires HasRow(q)
    {
      transitions[states[q]..states[q] + statesN[q]]
    }
  }

  // ---------------------------------------------------------------- parser_feed

  predicate Matches(when: int, kind: nat, c: byte) {
    if when <= 0xFF then c == when
    else if when == ANY then true
    else And(kind, when) != 0
  }

  /** The first transition that matches. */
  function Pick(row: seq<Transition>, kind: nat, c: byte): Option<Transition> {
    if row == [] then None
    else if Matches(row[0].when, kind, c) then Some(row[0])
    else Pick(row[1..], kind, c)
  }

  datatype Machine = Machine(state: nat, e1: Event, e2: Event)

  function Take(m: Machine, tr: Transition, c: byte): Result<Machine> {
    if tr.act1 == None then Crashed(WildAccess)
    else if tr.act2 == None then Ok(Machine(tr.dest, Act(tr.act1.value, c), m.e2.(next := false)))
    else Ok(Machine(tr.dest, Act(tr.act1.value, c).(next := true), Act(tr.act2.value, c)))
  }

  function FeedByte(classes: seq<nat>, d: Definition, m: Machine, c: byte): Result<Machine> {
    if c >= |classes| || !d.HasRow(m.state) then Crashed(WildAccess)
    else
      match Pick(d.Row(m.state), classes[c], c)
      case None => Ok(m.(e1 := m.e1.(next := false), e2 := m.e2.(next := false)))
      case Some(tr) => Take(m, tr, c)
  }

  function FeedAll(classes: seq<nat>, d: Definition, m: Machine, t: seq<byte>): Result<Machine> {
    if t == [] then Ok(m)
    else
      var m1 :- FeedAll(classes, d, m, t[..|t| - 1]);
      FeedByte(classes, d, m1, t[|t| - 1])
  }

  // ---------------------------------------------------------------- the string automaton

  /** The row of state `q` in the automaton for `s`: states |s| and |s| + 1 are the two sinks. */
  function RowFor(s: seq<Ascii>, q: nat): seq<Transition> {
    var fail := Transition(ANY, |s| + 1, Some(Neq), None);
    if q < |s| then
      var hit := if q + 1 == |s| then Eq else MayEq;
      [Transition(ToLower(s[q]), q + 1, Some(hit), None), Transition(ToUpper(s[q]), q + 1, Some(hit), None), fail]
    else [fail]
  }

  ghost predicate Compares(d: Definition, s: seq<Ascii>) {
    && d.start == 0
    && |d.states| == |d.statesN| == |s| + 2
    && forall q :: 0 <= q < |s| + 2 ==> d.HasRow(q) && d.Row(q) == RowFor(s, q)
  }

  /** What the last event has to say about the input so far. */
  function Verdict(s: seq<Ascii>, t: seq<byte>): Action {
    if SameIgnoringCase(s, t) then Eq
    else if |t| < |s| && SameIgnoringCase(s[..|t|], t) then MayEq
    else Neq
  }

  /** The state after `t`: as far into `s` as `t` agrees with it, or the failure sink. */
  function Where(s: seq<Ascii>, t: seq<byte>): nat {
    if |t| <= |s| && SameIgnoringCase(s[..|t|], t) then |t| else |s| + 1
  }

  lemma SnocSame(s: seq<Ascii>, t: seq<byte>, c: byte)
    requires |t| < |s|
    ensures SameIgnoringCase(s[..|t| + 1], t + [c]) <==> SameIgnoringCase(s[..|t|], t) && SameLetter(s[|t|], c)
  {
    var a, b := s[..|t| + 1], t + [c];
    assert forall i :: 0 <= i < |t| ==> a[i] == s[..|t|][i] && b[i] == t[i];
    assert a[|t|] == s[|t|] && b[|t|] == c;
  }

  /** A mismatch is never made good. */
  lemma SnocDiffers(s: seq<Ascii>, t: seq<byte>, c: byte)
    requires Where(s, t) == |s| + 1
    ensures Where(s, t + [c]) == |s| + 1
  {
    if |t| < |s| {
      SnocSame(s, t, c);
    }
  }

  lemma VerdictIsWhere(s: seq<Ascii>, t: seq<byte>)
    ensures Verdict(s, t) == if Where(s, t) == |s| + 1 then Neq else if |t| == |s| then Eq else MayEq
  {
    if |t| == |s| {
      assert s[..|t|] == s;
    }
  }

  /** What a row of the automaton picks: its letter's target, or the failure sink. */
  lemma PickInRow(s: seq<Ascii>, q: nat, kind: nat, c: byte)
    ensures var fail := RowFor(s, |s|)[0];
            Pick(RowFor(s, q), kind, c) ==
            Some(if q < |s| && SameLetter(s[q], c) then RowFor(s, q)[if c == ToLower(s[q]) then 0 else 1] else fail)
  {
    hide And;
    var row := RowFor(s, q);
    if q < |s| {
      LabelsOfALetter(s[q], c);
      assert row[1..] == [row[1], row[2]] && row[1..][1..] == [row[2]];
      assert Pick(row[1..][1..], kind, c) == Some(row[2]);
    }
  }

  /** One step from the state where `t` led goes where `t + [c]` leads, and says so. */
  lemma StepFollows(classes: seq<nat>, d: Definition, s: seq<Ascii>, m: Machine, t: seq<byte>, c: byte)
    requires Compares(d, s) && m.state == Where(s, t) && c < |classes|
    ensures var r := FeedByte(classes, d, m, c);
            && r.Ok? && r.value.state == Where(s, t + [c])
            && r.value.e1 == Act(Verdict(s, t + [c]), c)
  {
    hide Pick, Verdict;
    assert d.HasRow(m.state) && d.Row(m.state) == RowFor(s, m.state);
    PickInRow(s, m.state, classes[c], c);
    VerdictIsWhere(s, t + [c]);
    if m.state < |s| {
      SnocSame(s, t, c);
    } else if m.state == |s| + 1 {
      SnocDiffers(s, t, c);
    }
  }

  /**
   * For every ASCII string `s`, from the start state, whatever the classes: unless an input byte lies outside
   * the class table, the last event is EQ if and only if the input equals `s` ignoring case, MAYEQ if and only
   * if it is a proper prefix, NEQ otherwise.
   */
  lemma {:induction false} LastEventIsTheVerdict(classes: seq<nat>, d: Definition, s: seq<Ascii>, m: Machine, t: seq<byte>)
    requires Compares(d, s) && m.state == d.start
    requires forall i :: 0 <= i < |t| ==> t[i] < |classes|
    ensures var r := FeedAll(classes, d, m, t);
            && r.Ok? && r.value.state == Where(s, t) <= |s| + 1
            && (t != [] ==> r.value.e1 == Act(Verdict(s, t), t[|t| - 1]))
  {
    hide FeedByte, Verdict, Where;
    if t == [] {
      assert Where(s, t) == 0 by { StartsAtZero(s); }
    } else {
      var init, c := t[..|t| - 1], t[|t| - 1];
      LastEventIsTheVerdict(classes, d, s, m, init);
      StepFollows(classes, d, s, FeedAll(classes, d, m, init).value, init, c);
      assert t == init + [c];
      WhereInRange(s, t);
    }
  }

  lemma StartsAtZero(s: seq<Ascii>)
    ensures Where(s, []) == 0
  {
  }

  lemma WhereInRange(s: seq<Ascii>, t: seq<byte>)
    ensures Where(s, t) <= |s| + 1
  {
  }

  /** `parser_no_classes` has 0xFF entries, one too few for a byte. */
  const NO_CLASSES: seq<nat> := seq(0xFF, _ => 0)

  /** With that table, feeding stays inside the tables if and only if no input byte is 255. */
  lemma {:induction false} NoClassesSuffices(d: Definition, s: seq<Ascii>, m: Machine, t: seq<byte>)
    requires Compares(d, s) && m.state == d.start
    ensures FeedAll(NO_CLASSES, d, m, t).Ok? <==> 255 !in t
  {
    hide Compares;
    if t != [] {
      var init, c := t[..|t| - 1], t[|t| - 1];
      assert t == init + [c];
      NoClassesSuffices(d, s, m, init);
      if 255 !in t {
        LastEventIsTheVerdict(NO_CLASSES, d, s, m, t);
      }
    }
  }

  // ---------------------------------------------------------------- parser_utils_strcmpi

  /** Row `q` is in place, three transitions to a state. */
  predicate RowInPlace(d: Definition, s: seq<Ascii>, q: nat) {
    && |d.transitions| == 3 * (|s| + 2) && |d.states| == |d.statesN| == |s| + 2 && q < |s| + 2
    && d.states[q] == 3 * q && d.statesN[q] == |RowFor(s, q)|
    && d.Row(q) == RowFor(s, q)
  }

  /** The rows below `upTo` are in place, and nothing else has been written. */
  ghost predicate RowsInPlace(d: Definition, s: seq<Ascii>, upTo: nat) {
    && d.start == 0
    && |d.transitions| == 3 * (|s| + 2) && |d.states| == |d.statesN| == |s| + 2 && upTo <= |s| + 2
    && (forall q :: 0 <= q < upTo ==> RowInPlace(d, s, q))
    && (forall k :: 3 * upTo <= k < |d.transitions| ==> d.transitions[k] == UNTOUCHED)
  }

  /** Writing row `q` alone leaves those below it as they were. */
  lemma OneMoreRow(d: Definition, d': Definition, s: seq<Ascii>, q: nat)
    requires RowsInPlace(d, s, q) && RowInPlace(d', s, q) && d'.start == 0
    requires d'.states[..q] == d.states[..q] && d'.statesN[..q] == d.statesN[..q]
    requires d'.transitions[..3 * q] == d.transitions[..3 * q]
    requires forall k :: 3 * (q + 1) <= k < |d'.transitions| ==> d'.transitions[k] == d.transitions[k]
    ensures RowsInPlace(d', s, q + 1)
  {
    forall p | 0 <= p < q ensures RowInPlace(d', s, p) {
      assert RowInPlace(d, s, p);
      var n := 3 * p + |RowFor(s, p)|;
      assert d'.states[p] == d'.states[..q][p] && d'.statesN[p] == d'.statesN[..q][p];
      assert n <= 3 * q;
      assert d'.transitions[3 * p..n] == d'.transitions[..3 * q][3 * p..n];
      assert d.transitions[3 * p..n] == d.transitions[..3 * q][3 * p..n];
    }
  }

  lemma AllRowsCompare(d: Definition, s: seq<Ascii>)
    requires RowsInPlace(d, s, |s| + 2)
    ensures Compares(d, s)
  {
    forall q | 0 <= q < |s| + 2 ensures d.HasRow(q) && d.Row(q) == RowFor(s, q) {
      assert RowInPlace(d, s, q);
    }
  }

  /** The three arrays of a `parser_definition`. */
  class Tables {
    const transitions: array<Transition>
    const states: array<nat>
    const statesN: array<nat>
    const start: nat := 0

    ghost function View(): (d: Definition)
      reads transitions, states, statesN
      ensures d.start == 0
    {
      Definition(transitions[..], states[..], statesN[..], start)
    }

    /** Three calloc calls. */
    constructor (n: nat)
      ensures fresh(transitions) && fresh(states) && fresh(statesN) && states != statesN
      ensures forall k :: 0 <= k < transitions.Length ==> transitions[k] == UNTOUCHED
      ensures transitions.Length == 3 * (n + 2) && states.Length == statesN.Length == n + 2
    {
      transitions := new Transition[3 * (n + 2)](_ => UNTOUCHED);
      states := new nat[n + 2](_ => 0);
      statesN := new nat[n + 2](_ => 0);
    }

    /** The body of the loop: the row of one letter. */
    method PutLetter(s: seq<Ascii>, i: nat)
      requires RowsInPlace(View(), s, i) && i < |s| && states != statesN
      modifies transitions, states, statesN
      ensures RowsInPlace(View(), s, i + 1)
    {
      var stEq, stNeq := |s|, |s| + 1;
      var dest := if i + 1 == |s| then stEq else i + 1;
      var hit := if i + 1 == |s| then Eq else MayEq;
      var row, lower, upper := i * 3, ToLower(s[i]), ToUpper(s[i]);
      transitions[row] := Written(transitions[row], lower, dest, hit);
      transitions[row + 1] := Written(transitions[row + 1], upper, dest, hit);
      transitions[row + 2] := Written(transitions[row + 2], ANY, stNeq, Neq);
      states[i] := row;
      statesN[i] := 3;
      assert View().Row(i) == RowFor(s, i);
      OneMoreRow(old(View()), View(), s, i);
    }

    /** The row of one of the two sinks. */
    method PutSink(s: seq<Ascii>, q: nat)
      requires RowsInPlace(View(), s, q) && |s| <= q < |s| + 2 && states != statesN
      modifies transitions, states, statesN
      ensures RowsInPlace(View(), s, q + 1)
    {
      transitions[q * 3] := Written(transitions[q * 3], ANY, |s| + 1, Neq);
      states[q] := q * 3;
      statesN[q] := 1;
      assert View().Row(q) == RowFor(s, q);
      OneMoreRow(old(View()), View(), s, q);
    }

    /** `parser_utils_strcmpi`. */
    static method Strcmpi(s: seq<Ascii>) returns (d: Tables)
      ensures fresh(d) && fresh(d.transitions) && fresh(d.states) && fresh(d.statesN)
      ensures Compares(d.View(), s)
    {
      d := new Tables(|s|);
      for i := 0 to |s|
        invariant RowsInPlace(d.View(), s, i) && d.states != d.statesN
      {
        d.PutLetter(s, i);
      }
      d.PutSink(s, |s|);
      d.PutSink(s, |s| + 1);
      AllRowsCompare(d.View(), s);
    }
  }

  // ---------------------------------------------------------------- struct parser

  class Parser {
    const classes: array<nat>
    const def: Tables
    var state: nat
    var e1: Event
    var e2: Event

    ghost function View(): Machine
      reads this
    {
      Machine(state, e1, e2)
    }

    /** `parser_init`: zeroed storage, at the start state. */
    constructor (classes: array<nat>, def: Tables)
      ensures this.classes == classes && this.def == def
      ensures View() == Machine(def.start, Event(None, 0, 0, false), Event(None, 0, 0, false))
    {
      this.classes, this.def := classes, def;
      state, e1, e2 := def.start, Event(None, 0, 0, false), Event(None, 0, 0, false);
    }

    /** `parser_reset`: only the state; the events stay. */
    method Reset()
      modifies this
      ensures View() == old(View()).(state := def.start)
    {
      state := def.start;
    }

    /** `parser_feed`; `ok` is false when it reads outside its tables or calls a null action. */
    method Feed(c: byte) returns (ok: bool)
      modifies this
      ensures var r := FeedByte(classes[..], def.View(), old(View()), c);
              ok == r.Ok? && (ok ==> View() == r.value)
    {
      ghost var d := def.View();
      if c >= classes.Length {
        return false;
      }
      var kind := classes[c];
      if state >= def.states.Length || state >= def.statesN.Length || def.states.Length != def.statesN.Length
        || def.states[state] + def.statesN[state] > def.transitions.Length {
        return false;
      }
      e1, e2 := e1.(next := false), e2.(next := false);
      var first, n := def.states[state], def.statesN[state];
      ghost var row := d.Row(state);
      var i, matched := 0, false;
      while i < n && !matched
        decreases n - i, !matched
        invariant 0 <= i <= n == |row|
        invariant !matched ==> Pick(row, kind, c) == Pick(row[i..], kind, c)
        invariant matched ==> i < n && Pick(row, kind, c) == Some(row[i])
        invariant row == def.View().Row(state)
      {
        var when := def.transitions[first + i].when;
        matched := if when <= 0xFF then c == when else if when == ANY then true else And(kind, when) != 0;
        if !matched {
          assert row[i..][1..] == row[i + 1..];
          i := i + 1;
        }
      }
      if matched {
        var tr := def.transitions[first + i];
        if tr.act1 == None {
          return false;
        }
        e1 := Act(tr.act1.value, c);
        if tr.act2.Some? {
          e1 := e1.(next := true);
          e2 := Act(tr.act2.value, c);
        }
        state := tr.dest;
      }
      return true;
    }
  }
}
