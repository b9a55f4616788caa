/** `initiate_origin_connection` as a walk: which addresses are passed over, and where it ends. */
module OriginWalk {
  import opened Bytes
  import opened Results
  import opened SelectorTable
  import opened Connection
  import R = RequestParser

  /** Unregistering the origin, if there is one, does just that. */
  ghost predicate Droppable(c: Conn, t: Slots, id: nat) {
    && DropOrigin(c, t, id) == Ok((c.(originFd := -1), t - {c.originFd}))
    && c.clientFd != -1 && c.clientFd in t - {c.originFd} && -1 !in t
  }

  /** The walk goes on to the next address: no socket, no slot for it, or an error from `connect`. */
  predicate Fails(t: Slots, id: nat, a: Attempt) {
    !a.Opened? || Register(t, a.fd, OP_NOOP, Client(id)).0 != Success || a.result.Refused?
  }

  function Nth(attempts: seq<Attempt>, i: nat): Attempt { if i < |attempts| then attempts[i] else NoSocket }

  function Later(attempts: seq<Attempt>, i: nat): seq<Attempt> { if i < |attempts| then attempts[i..] else [] }

  predicate AllFail(t: Slots, id: nat, attempts: seq<Attempt>, n: nat) {
    forall i :: 0 <= i < n ==> Fails(t, id, Nth(attempts, i))
  }

  lemma FailureGoesOn(c: Conn, t: Slots, key: Key, a: Attempt, bound: Option<R.SockAddr>)
    requires c.originFd == -1 && c.current != [] && Fails(t, key.id, a)
    requires c.clientFd != -1 && c.clientFd in t && -1 !in t
    ensures var trial := TryAddress(c, t, key, a, bound);
            && trial.TryNext? && Droppable(trial.c, trial.t, key.id) && trial.t - {trial.c.originFd} == t
            && trial.c == c.(current := c.current[1..], originFd := trial.c.originFd, dialed := trial.c.dialed)
  {
    assert t - {-1} == t;
    if a.Opened? && Register(t, a.fd, OP_NOOP, Client(key.id)).0 == Success {
      assert t[a.fd := Slot(OP_NOOP, Client(key.id))] - {a.fd} == t;
    }
  }

  lemma SuccessSettles(c: Conn, t: Slots, key: Key, a: Attempt, bound: Option<R.SockAddr>)
    requires c.current != [] && !Fails(t, key.id, a)
    ensures var trial := TryAddress(c, t, key, a, bound);
            trial.Settled? && (trial.result.Ok? ==> trial.result.value.next != ReqWrite)
  {
  }

  /** Nothing changes when the origin has already been dropped. */
  lemma DroppedAlready(c: Conn, t: Slots, key: Key, attempts: seq<Attempt>, bound: Option<R.SockAddr>)
    requires Droppable(c, t, key.id)
    ensures Droppable(c.(originFd := -1), t - {c.originFd}, key.id)
    ensures InitiateOriginConnection(c, t, key, attempts, bound)
         == InitiateOriginConnection(c.(originFd := -1), t - {c.originFd}, key, attempts, bound)
  {
    hide TryAddress, ErrorReply;
    var t' := t - {c.originFd};
    assert t' - {-1} == t';
  }

  /** The walk passes over attempts that fail: only the list gets shorter, and the history of dialling longer. */
  lemma {:induction false} Skips(c: Conn, t: Slots, key: Key, attempts: seq<Attempt>, bound: Option<R.SockAddr>, n: nat)
    returns (c': Conn)
    requires Droppable(c, t, key.id) && n <= |c.current| && AllFail(t - {c.originFd}, key.id, attempts, n)
    ensures c' == c.(originFd := -1, current := c.current[n..], dialed := c'.dialed)
    ensures Droppable(c', t - {c.originFd}, key.id)
    ensures InitiateOriginConnection(c, t, key, attempts, bound)
         == InitiateOriginConnection(c', t - {c.originFd}, key, Later(attempts, n), bound)
    decreases n
  {
    hide TryAddress, ErrorReply, DropOrigin;
    var t' := t - {c.originFd};
    DroppedAlready(c, t, key, attempts, bound);
    if n == 0 {
      c' := c.(originFd := -1);
      assert Later(attempts, 0) == attempts;
    } else {
      var c1 := c.(originFd := -1);
      assert Fails(t', key.id, Nth(attempts, 0));
      FailureGoesOn(c1, t', key, Nth(attempts, 0), bound);
      var trial := TryAddress(c1, t', key, Nth(attempts, 0), bound);
      var rest := if attempts == [] then [] else attempts[1..];
      forall i | 0 <= i < n - 1 ensures Fails(t', key.id, Nth(rest, i)) {
        assert Nth(rest, i) == Nth(attempts, i + 1);
      }
      c' := Skips(trial.c, trial.t, key, rest, bound, n - 1);
      assert Later(rest, n - 1) == Later(attempts, n);
      assert c.current[1..][n - 1..] == c.current[n..];
    }
  }

  /** The first attempt that does not fail, or `n`. */
  lemma {:induction false} FirstUsable(t: Slots, id: nat, attempts: seq<Attempt>, n: nat) returns (i: nat)
    ensures i <= n && AllFail(t, id, attempts, i)
    ensures i < n ==> !Fails(t, id, Nth(attempts, i))
    ensures i == n <==> AllFail(t, id, attempts, n)
  {
    i := 0;
    while i < n && Fails(t, id, Nth(attempts, i))
      invariant i <= n && AllFail(t, id, attempts, i)
    {
      i := i + 1;
    }
  }

  /** A walk over addresses that all fail is an error reply, from the key, for a connection without origin. */
  lemma ExhaustedWalk(c: Conn, t: Slots, key: Key, attempts: seq<Attempt>, bound: Option<R.SockAddr>) returns (c': Conn)
    requires Droppable(c, t, key.id) && AllFail(t - {c.originFd}, key.id, attempts, |c.current|)
    ensures c' == c.(originFd := -1, current := [], dialed := c'.dialed)
    ensures InitiateOriginConnection(c, t, key, attempts, bound)
         == ErrorReply(c', t - {c.originFd}, key, R.CON_HOST_UNREACHABLE)
  {
    hide TryAddress, ErrorReply;
    c' := Skips(c, t, key, attempts, bound, |c.current|);
    assert (t - {c.originFd}) - {-1} == t - {c.originFd};
  }

  /** A walk that meets an address it can use is settled by that attempt. */
  lemma SettledWalk(c: Conn, t: Slots, key: Key, attempts: seq<Attempt>, bound: Option<R.SockAddr>, i: nat)
    returns (c': Conn)
    requires Droppable(c, t, key.id) && i < |c.current| && AllFail(t - {c.originFd}, key.id, attempts, i)
    requires !Fails(t - {c.originFd}, key.id, Nth(attempts, i))
    ensures c' == c.(originFd := -1, current := c.current[i..], dialed := c'.dialed)
    ensures TryAddress(c', t - {c.originFd}, key, Nth(attempts, i), bound)
         == Settled(InitiateOriginConnection(c, t, key, attempts, bound))
    ensures var r := InitiateOriginConnection(c, t, key, attempts, bound); r.Ok? ==> r.value.next != ReqWrite
  {
    hide TryAddress, ErrorReply;
    c' := Skips(c, t, key, attempts, bound, i);
    assert (t - {c.originFd}) - {-1} == t - {c.originFd};
    SuccessSettles(c', t - {c.originFd}, key, Nth(attempts, i), bound);
  }
}
