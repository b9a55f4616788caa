/** src/shared/selector.c: the table of descriptors, its derived fd sets, and one dispatch pass. */
module Selectors {
  import opened Bytes
  import opened Results
  import opened SelectorTable

  const FD_UNUSED: int := -1

  datatype Item<T> = Item(fd: int, interest: Interest, data: Option<T>)

  predicate ItemUsed<T>(i: Item<T>) { i.fd != FD_UNUSED }

  function FreshItem<T>(): Item<T> { Item(FD_UNUSED, OP_NOOP, None) }

  /** A slot in use, or cleared since: only memory that `realloc` added may hold an unused slot with an interest. */
  predicate Settled<T>(i: Item<T>) { ItemUsed(i) || i.interest == OP_NOOP }

  ghost predicate KeepsSettled<T>(was: seq<Item<T>>, now: seq<Item<T>>) {
    |was| <= |now| && forall i :: 0 <= i < |was| && Settled(was[i]) ==> Settled(now[i])
  }

  /** Slot `i` is unused or holds descriptor `i`. */
  predicate Indexed<T>(items: seq<Item<T>>) {
    forall i :: 0 <= i < |items| ==> items[i].fd == FD_UNUSED || (items[i].fd == i && items[i].data.Some?)
  }

  function TableOf<T>(items: seq<Item<T>>): Table<T>
    requires Indexed(items)
  {
    map i | 0 <= i < |items| && ItemUsed(items[i]) :: Slot(items[i].interest, items[i].data.value)
  }

  /** The largest registered descriptor, 0 if there is none. */
  ghost predicate IsMaxFd<T>(t: Table<T>, m: int) {
    && (forall fd :: fd in t ==> fd <= m)
    && (m in t || (m == 0 && t == map[]))
  }

  ghost predicate Readers<T>(t: Table<T>, s: set<int>) {
    forall fd :: fd in s <==> fd in t && t[fd].interest.read
  }

  ghost predicate Writers<T>(t: Table<T>, s: set<int>) {
    forall fd :: fd in s <==> fd in t && t[fd].interest.write
  }

  /** `1 << bits` is the least power of two above `n`. */
  ghost predicate LeastPowerAbove(n: nat, bits: nat) {
    n < Shl1(bits) && if n == 0 then bits == 0 else bits > 0 && Shl1(bits - 1) <= n
  }

  /** `tmp` is `n` shifted right by as many bits as `p` has. */
  ghost predicate Shifted(n: nat, tmp: nat, p: nat) { tmp * p <= n < (tmp + 1) * p }

  lemma ShiftOut(n: nat, tmp: nat, p: nat)
    requires Shifted(n, tmp, p)
    ensures Shifted(n, tmp / 2, 2 * p)
    ensures tmp >= 1 ==> p <= n
  {
    var h := tmp / 2;
    assert h * (2 * p) == 2 * h * p && (h + 1) * (2 * p) == (2 * h + 2) * p;
    if tmp == 2 * h {
      assert (2 * h + 1) * p <= (2 * h + 2) * p;
    } else {
      assert tmp == 2 * h + 1;
      assert 2 * h * p <= (2 * h + 1) * p;
    }
    if tmp >= 1 {
      assert p <= tmp * p;
    }
  }

  method BitLength(n: nat) returns (bits: nat)
    ensures LeastPowerAbove(n, bits)
  {
    bits := 0;
    var tmp := n;
    assert Shifted(n, tmp, 1);
    while tmp != 0
      invariant Shifted(n, tmp, Shl1(bits))
      invariant if bits == 0 then tmp == n else n > 0 && Shl1(bits - 1) <= n
      decreases tmp
    {
      ShiftOut(n, tmp, Shl1(bits));
      tmp := tmp / 2;
      bits := bits + 1;
    }
  }

  /** `next_capacity`: one more than the least power of two above `n`, capped at the platform's limit. */
  method NextCapacity(n: nat) returns (capacity: nat, ghost bits: nat)
    ensures LeastPowerAbove(n, bits)
    ensures capacity == 1 + if Shl1(bits) > ITEMS_MAX_SIZE then ITEMS_MAX_SIZE else Shl1(bits)
    ensures n <= ITEMS_MAX_SIZE ==> n < capacity <= ITEMS_MAX_SIZE + 1
    ensures capacity <= 2 * n + 2
  {
    var length := BitLength(n);
    bits := length;
    var tmp := Shl1(length);
    if tmp > ITEMS_MAX_SIZE {
      tmp := ITEMS_MAX_SIZE;
    }
    capacity := tmp + 1;
  }

  datatype Kind = Reading | Writing

  /** A handler call: the key it was given, and the table at that instant. */
  datatype Call<T> = Call(kind: Kind, fd: int, data: T, table: Table<T>)

  /** What a callback may do to the selector. */
  datatype Op<T> = Register(fd: int, interest: Interest, data: T) | Unregister(fd: int) | SetInterest(fd: int, interest: Interest)

  /** A handler runs only for a registered descriptor with that interest at that instant, reported ready. */
  ghost predicate Legitimate<T>(c: Call<T>, slaveR: set<int>, slaveW: set<int>) {
    && c.fd in c.table
    && (c.kind == Reading ==> c.fd in slaveR && c.table[c.fd].interest.read)
    && (c.kind == Writing ==> c.fd in slaveW && c.table[c.fd].interest.write)
  }

  /** Descriptors are visited in order, each with at most one read followed by at most one write. */
  ghost predicate Follows<T>(later: Call<T>, earlier: Call<T>) {
    earlier.fd < later.fd || (earlier.fd == later.fd && earlier.kind == Reading && later.kind == Writing)
  }

  /** The attachment is the slot's own, except for a write whose slot the read before it replaced. */
  ghost predicate GivenItsOwnData<T>(before: seq<Call<T>>, c: Call<T>) {
    || (c.fd in c.table && c.table[c.fd].data == c.data)
    || (c.kind == Writing && before != [] && var last := before[|before| - 1]; last.fd == c.fd && last.data == c.data)
  }

  ghost predicate SafePass<T>(calls: seq<Call<T>>, slaveR: set<int>, slaveW: set<int>) {
    && (forall k :: 0 <= k < |calls| ==> Legitimate(calls[k], slaveR, slaveW))
    && (forall j, k :: 0 <= j < k < |calls| ==> Follows(calls[k], calls[j]))
    && (forall k :: 0 <= k < |calls| ==> GivenItsOwnData(calls[..k], calls[k]))
  }

  lemma OneMoreCall<T>(calls: seq<Call<T>>, c: Call<T>, slaveR: set<int>, slaveW: set<int>)
    requires SafePass(calls, slaveR, slaveW) && Legitimate(c, slaveR, slaveW) && GivenItsOwnData(calls, c)
    requires forall k :: 0 <= k < |calls| ==> Follows(c, calls[k])
    ensures SafePass(calls + [c], slaveR, slaveW)
  {
    var all := calls + [c];
    forall k | 0 <= k < |all|
      ensures GivenItsOwnData(all[..k], all[k])
    {
      assert k < |calls| ==> all[..k] == calls[..k];
      assert k == |calls| ==> all[..k] == calls;
    }
  }

  /** What one operation of a callback does to the table; the array has `size` slots and does not grow. */
  function Apply<T>(t: Table<T>, op: Op<T>, size: nat): Table<T> {
    if op.fd >= size then t
    else
      match op
      case Register(fd, interest, data) => SelectorTable.Register(t, fd, interest, data).1
      case Unregister(fd) => SelectorTable.Unregister(t, fd).1
      case SetInterest(fd, interest) => SelectorTable.SetInterest(t, fd, interest).1
  }

  function ApplyAll<T>(t: Table<T>, ops: seq<Op<T>>, size: nat): Table<T>
    decreases |ops|
  {
    if ops == [] then t else ApplyAll(Apply(t, ops[0], size), ops[1..], size)
  }

  /** The result of `select`, and the callbacks: what the handler just called does, given all calls so far. */
  datatype Round<!T> = Round(slaveR: set<int>, slaveW: set<int>, callback: seq<Call<T>> -> seq<Op<T>>, size: nat)

  datatype Progress<T> = Progress(calls: seq<Call<T>>, table: Table<T>)

  function CallHandler<T(!new)>(w: Round<T>, p: Progress<T>, kind: Kind, fd: int, data: T): Progress<T> {
    var calls := p.calls + [Call(kind, fd, data, p.table)];
    Progress(calls, ApplyAll(p.table, w.callback(calls), w.size))
  }

  /** One turn of the loop of `handle_iteration`. */
  function Visit<T(!new)>(w: Round<T>, p: Progress<T>, i: int): Progress<T> {
    if i !in p.table then p
    else
      var data := p.table[i].data;
      var p1 := if i in w.slaveR && p.table[i].interest.read then CallHandler(w, p, Reading, i, data) else p;
      if i in w.slaveW && i in p1.table && p1.table[i].interest.write then CallHandler(w, p1, Writing, i, data) else p1
  }

  function Pass<T(!new)>(w: Round<T>, p: Progress<T>, i: int, n: int): Progress<T>
    decreases n + 1 - i
  {
    if i > n then p else Pass(w, Visit(w, p, i), i + 1, n)
  }

  /** Whatever the callbacks do, the pass visits each descriptor once and calls only what it may. */
  lemma {:induction false} PassIsSafe<T(!new)>(w: Round<T>, p: Progress<T>, i: int, n: int)
    requires SafePass(p.calls, w.slaveR, w.slaveW)
    requires forall k :: 0 <= k < |p.calls| ==> p.calls[k].fd < i
    ensures SafePass(Pass(w, p, i, n).calls, w.slaveR, w.slaveW)
    decreases n + 1 - i
  {
    hide SafePass, ApplyAll;
    if i <= n {
      if i in p.table {
        var data := p.table[i].data;
        var p1 := p;
        if i in w.slaveR && p.table[i].interest.read {
          OneMoreCall(p.calls, Call(Reading, i, data, p.table), w.slaveR, w.slaveW);
          p1 := CallHandler(w, p, Reading, i, data);
        }
        if i in w.slaveW && i in p1.table && p1.table[i].interest.write {
          OneMoreCall(p1.calls, Call(Writing, i, data, p1.table), w.slaveR, w.slaveW);
        }
      }
      PassIsSafe(w, Visit(w, p, i), i + 1, n);
    }
  }

  predicate Called<T>(calls: seq<Call<T>>, kind: Kind, fd: int) {
    exists k :: 0 <= k < |calls| && calls[k].kind == kind && calls[k].fd == fd
  }

  predicate Due<T>(w: Round<T>, t: Table<T>, kind: Kind, fd: int) {
    fd in t && if kind == Reading then fd in w.slaveR && t[fd].interest.read else fd in w.slaveW && t[fd].interest.write
  }

  lemma CalledAfter<T>(calls: seq<Call<T>>, c: Call<T>)
    ensures forall kind, fd :: Called(calls + [c], kind, fd) <==> Called(calls, kind, fd) || (kind == c.kind && fd == c.fd)
  {
    var all := calls + [c];
    assert all[|calls|] == c;
    forall kind, fd | Called(calls, kind, fd)
      ensures Called(all, kind, fd)
    {
      var k :| 0 <= k < |calls| && calls[k].kind == kind && calls[k].fd == fd;
      assert all[k] == calls[k];
    }
  }

  /** With callbacks that leave the selector alone, exactly the due handlers of `i..n` are called. */
  lemma {:induction false} QuietPassIsComplete<T(!new)>(w: Round<T>, p: Progress<T>, i: int, n: int)
    requires forall calls :: w.callback(calls) == []
    ensures Pass(w, p, i, n).table == p.table
    ensures forall kind, fd :: Called(Pass(w, p, i, n).calls, kind, fd) <==>
              Called(p.calls, kind, fd) || (i <= fd <= n && Due(w, p.table, kind, fd))
    decreases n + 1 - i
  {
    if i <= n {
      if i in p.table {
        var data := p.table[i].data;
        CalledAfter(p.calls, Call(Reading, i, data, p.table));
        CalledAfter(p.calls, Call(Writing, i, data, p.table));
        CalledAfter(p.calls + [Call(Reading, i, data, p.table)], Call(Writing, i, data, p.table));
      }
      assert Visit(w, p, i).table == p.table;
      QuietPassIsComplete(w, Visit(w, p, i), i + 1, n);
    }
  }

  class Selector<T(!new)> {
    var fds: array<Item<T>>
    var masterR: set<int>
    var masterW: set<int>
    var maxFd: int

    ghost predicate Valid()
      reads this, fds
    {
      && fds.Length > 0
      && Indexed(fds[..])
      && Readers(View(), masterR) && Writers(View(), masterW)
      && IsMaxFd(View(), maxFd)
    }

    function View(): Table<T>
      reads this, fds
      requires Indexed(fds[..])
    {
      TableOf(fds[..])
    }

    /** `selector_new`: null for a size the platform cannot handle, or without memory. */
    static method New(initialElements: nat, memory: bool) returns (s: Selector?<T>)
      ensures s != null <==> memory && initialElements <= ITEMS_MAX_SIZE
      ensures s != null ==> fresh(s) && fresh(s.fds) && s.Valid() && s.View() == map[] && s.fds.Length > initialElements
    {
      if !memory || initialElements > ITEMS_MAX_SIZE {
        return null;
      }
      s := new Selector(initialElements);
    }

    constructor (initialElements: nat)
      requires initialElements <= ITEMS_MAX_SIZE
      ensures Valid() && fresh(fds) && View() == map[]
      ensures initialElements < fds.Length <= ITEMS_MAX_SIZE + 1 && fds.Length <= 2 * initialElements + 2
    {
      var size, _ := NextCapacity(initialElements);
      fds := new Item<T>[size](_ => FreshItem());
      masterR, masterW, maxFd := {}, {}, 0;
    }

    /** `items_max_fd`. */
    method ItemsMaxFd() returns (max: int)
      requires Indexed(fds[..]) && -1 <= maxFd < fds.Length
      requires forall fd :: fd in View() ==> fd <= maxFd
      ensures IsMaxFd(View(), max)
    {
      max := 0;
      var i := 0;
      ghost var any := false;
      while i <= maxFd
        invariant 0 <= i <= maxFd + 1
        invariant forall k :: 0 <= k < i && ItemUsed(fds[k]) ==> k <= max
        invariant any <==> exists k :: 0 <= k < i && ItemUsed(fds[k])
        invariant if any then max in View() else max == 0
        decreases maxFd + 1 - i
      {
        assert fds[..][i] == fds[i];
        if ItemUsed(fds[i]) {
          any := true;
          if fds[i].fd > max {
            max := fds[i].fd;
          }
        }
        i := i + 1;
      }
      assert any || View() == map[];
    }

    /** `items_update_fdset_for_fd`. */
    method UpdateFdSets(item: Item<T>)
      modifies this`masterR, this`masterW
      ensures masterR == if item.fd != FD_UNUSED && item.interest.read then old(masterR) + {item.fd} else old(masterR) - {item.fd}
      ensures masterW == if item.fd != FD_UNUSED && item.interest.write then old(masterW) + {item.fd} else old(masterW) - {item.fd}
    {
      masterR := masterR - {item.fd};
      masterW := masterW - {item.fd};
      if ItemUsed(item) {
        if item.interest.read {
          masterR := masterR + {item.fd};
        }
        if item.interest.write {
          masterW := masterW + {item.fd};
        }
      }
    }

    /** `realloc`: the old contents, then whatever the memory held. */
    method Realloc(newSize: nat) returns (bigger: array<Item<T>>)
      requires fds.Length <= newSize
      ensures fresh(bigger) && bigger.Length == newSize
      ensures forall i :: 0 <= i < fds.Length ==> bigger[i] == fds[i]
    {
      bigger := new Item<T>[newSize](_ => Item(0, OP_WRITE, None));
      for i := 0 to fds.Length
        invariant forall k :: 0 <= k < i ==> bigger[k] == fds[k]
      {
        bigger[i] := fds[i];
      }
    }

    /** `items_init`. */
    method ItemsInit(items: array<Item<T>>, last: nat)
      requires last <= items.Length
      modifies items
      ensures forall i :: 0 <= i < last ==> items[i] == old(items[i])
      ensures forall i :: last <= i < items.Length ==> !ItemUsed(items[i])
    {
      for i := last to items.Length
        invariant forall k :: 0 <= k < last ==> items[k] == old(items[k])
        invariant forall k :: last <= k < i ==> !ItemUsed(items[k])
      {
        items[i] := items[i].(fd := FD_UNUSED);
      }
    }

    /** `ensure_capacity`: growth keeps the old slots and leaves the new ones unused. */
    method EnsureCapacity(n: nat, memory: bool) returns (status: Status)
      requires Valid()
      modifies this`fds
      ensures Valid() && View() == old(View()) && KeepsSettled(old(fds[..]), fds[..])
      ensures status == if n < old(fds).Length then Success else if n > ITEMS_MAX_SIZE then MaxFd
                        else if memory then Success else NoMemory
      ensures status == Success ==> n < fds.Length
      ensures fds == old(fds) || (fresh(fds) && fds.Length > old(fds).Length)
      ensures n < old(fds).Length || status != Success ==> fds == old(fds)
    {
      if n < fds.Length {
        return Success;
      } else if n > ITEMS_MAX_SIZE {
        return MaxFd;
      } else if !memory {
        return NoMemory;
      } else {
        var newSize, _ := NextCapacity(n);
        var bigger := Realloc(newSize);
        var oldSize := fds.Length;
        ItemsInit(bigger, oldSize);
        assert forall i :: 0 <= i < newSize ==> bigger[..][i] == bigger[i];
        assert forall i :: 0 <= i < oldSize ==> fds[..][i] == fds[i];
        assert TableOf(bigger[..]) == View();
        fds := bigger;
        return Success;
      }
    }

    /** The last step of `selector_register`: occupy slot `fd`. */
    method Occupy(fd: int, interest: Interest, data: T)
      requires Valid() && 0 <= fd < fds.Length && !ItemUsed(fds[fd])
      modifies this`masterR, this`masterW, this`maxFd, fds
      ensures Valid() && View() == old(View())[fd := Slot(interest, data)]
      ensures KeepsSettled(old(fds[..]), fds[..])
    {
      ghost var t := View();
      assert fds[..][fd] == fds[fd];
      assert fd !in t;
      fds[fd] := Item(fd, interest, Some(data));
      if fd > maxFd {
        maxFd := fd;
      }
      UpdateFdSets(fds[fd]);
      assert View() == t[fd := Slot(interest, data)];
    }

    /**
     * `selector_register`. Its capacity test is `>`: a valid descriptor equal to the array's size is looked up
     * past the end, and that is the only way to get there.
     */
    method Register(fd: int, hasHandler: bool, interest: Interest, data: T, memory: bool) returns (status: Status)
      requires Valid()
      modifies this, fds
      ensures Valid() && KeepsSettled(old(fds[..]), fds[..])
      ensures status == OutOfBounds <==> hasHandler && ValidFd(fd) && fd == old(fds.Length)
      ensures status == NoMemory <==> hasHandler && ValidFd(fd) && fd > old(fds.Length) && !memory
      ensures hasHandler && status != OutOfBounds && status != NoMemory ==>
                (status, View()) == SelectorTable.Register(old(View()), fd, interest, data)
      ensures status == OutOfBounds || status == NoMemory ==> View() == old(View())
      ensures !hasHandler ==> status == IllegalArgument && View() == old(View())
      ensures !ValidFd(fd) || old(fd <= fds.Length) ==> fds == old(fds)
      ensures fds == old(fds) || fresh(fds)
    {
      if !ValidFd(fd) || !hasHandler {
        return IllegalArgument;
      }
      if fd == fds.Length {
        return OutOfBounds;
      }
      if fd > fds.Length {
        status := EnsureCapacity(fd, memory);
        if status != Success {
          return;
        }
      }
      assert fds[..][fd] == fds[fd];
      if ItemUsed(fds[fd]) {
        return FdInUse;
      }
      Occupy(fd, interest, data);
      return Success;
    }

    /** `selector_unregister_fd`, after the close callback has run. */
    method Unregister(fd: int) returns (status: Status)
      requires Valid()
      modifies this, fds
      ensures Valid() && (status == OutOfBounds <==> ValidFd(fd) && fd >= fds.Length)
      ensures if status == OutOfBounds then View() == old(View())
              else (status, View()) == SelectorTable.Unregister(old(View()), fd)
      ensures fds == old(fds) && KeepsSettled(old(fds[..]), fds[..])
    {
      if !ValidFd(fd) {
        return IllegalArgument;
      }
      if fd >= fds.Length {
        return OutOfBounds;
      }
      assert fds[..][fd] == fds[fd];
      if !ItemUsed(fds[fd]) {
        return IllegalArgument;
      }
      ghost var t := View();
      fds[fd] := fds[fd].(interest := OP_NOOP);
      UpdateFdSets(fds[fd]);
      fds[fd] := FreshItem();
      assert View() == t - {fd};
      maxFd := ItemsMaxFd();
      return Success;
    }

    method SetInterest(fd: int, interest: Interest) returns (status: Status)
      requires Valid()
      modifies this, fds
      ensures Valid() && (status == OutOfBounds <==> ValidFd(fd) && fd >= fds.Length)
      ensures if status == OutOfBounds then View() == old(View())
              else (status, View()) == SelectorTable.SetInterest(old(View()), fd, interest)
      ensures fds == old(fds) && KeepsSettled(old(fds[..]), fds[..])
    {
      if !ValidFd(fd) {
        return IllegalArgument;
      }
      if fd >= fds.Length {
        return OutOfBounds;
      }
      assert fds[..][fd] == fds[fd];
      if !ItemUsed(fds[fd]) {
        return IllegalArgument;
      }
      ghost var t := View();
      fds[fd] := fds[fd].(interest := interest);
      UpdateFdSets(fds[fd]);
      assert View() == t[fd := Slot(interest, t[fd].data)];
      return Success;
    }

    /** Run a callback's operations. */
    method Perform(ops: seq<Op<T>>)
      requires Valid()
      modifies this, fds
      ensures Valid() && fds == old(fds) && KeepsSettled(old(fds[..]), fds[..])
      ensures View() == ApplyAll(old(View()), ops, fds.Length)
    {
      for i := 0 to |ops|
        invariant Valid() && fds == old(fds) && KeepsSettled(old(fds[..]), fds[..])
        invariant ApplyAll(View(), ops[i..], fds.Length) == ApplyAll(old(View()), ops, fds.Length)
      {
        assert ops[i..][1..] == ops[i + 1..];
        if ops[i].fd < fds.Length {
          match ops[i] {
            case Register(fd, interest, data) => var _ := Register(fd, true, interest, data, true);
            case Unregister(fd) => var _ := Unregister(fd);
            case SetInterest(fd, interest) => var _ := SetInterest(fd, interest);
          }
        }
      }
    }

    /** `handle_iteration`, returning the calls it made. */
    method HandleIteration(w: Round<T>) returns (calls: seq<Call<T>>)
      requires Valid() && w.size == fds.Length
      modifies this, fds
      ensures Valid() && fds == old(fds)
      ensures Progress(calls, View()) == Pass(w, Progress([], old(View())), 0, old(maxFd))
    {
      calls := [];
      var n := maxFd;
      var i := 0;
      while i <= n
        invariant Valid() && fds == old(fds)
        invariant 0 <= i && n < fds.Length
        invariant Pass(w, Progress(calls, View()), i, n) == Pass(w, Progress([], old(View())), 0, n)
      {
        hide IsMaxFd, Readers, Writers, ApplyAll;
        ghost var p := Progress(calls, View());
        assert fds[..][i] == fds[i];
        if ItemUsed(fds[i]) {
          var data := fds[i].data.value;
          if fds[i].fd in w.slaveR && fds[i].interest.read {
            calls := calls + [Call(Reading, i, data, View())];
            assert Settled(fds[..][i]);
            Perform(w.callback(calls));
          }
          assert fds[..][i] == fds[i] && Settled(fds[i]);
          if i in w.slaveW && fds[i].interest.write {
            calls := calls + [Call(Writing, i, data, View())];
            Perform(w.callback(calls));
          }
        }
        assert Progress(calls, View()) == Visit(w, p, i);
        i := i + 1;
      }
    }
  }

  /** What a selector made for no elements does with the descriptor after its array's last. */
  method RegisterPastTheEnd<T(!new)>(interest: Interest, data: T) returns (status: Status)
    ensures status == OutOfBounds
  {
    var s := new Selector<T>(0);
    status := s.Register(s.fds.Length, true, interest, data, true);
  }
}
