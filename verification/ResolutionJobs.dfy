/** src/shared/selector.c: `resolution_jobs`, which resolver threads push to and the selector's thread drains. */
module ResolutionJobs {
  import opened Results
  import opened SelectorTable
  import opened Selectors

  /** What became of a job: its handler was called, on that attachment and table, or its slot was unused. */
  datatype Notice<T> =
    | Dispatched(fd: int, data: T, table: Table<T>)
    | Dropped(fd: int)

  /** The drain as a function; `callback` is what the handler just called does to the selector. */
  function Drained<T>(callback: seq<Notice<T>> -> seq<Op<T>>, jobs: seq<int>, log: seq<Notice<T>>, t: Table<T>, size: nat)
    : (seq<Notice<T>>, Table<T>)
    decreases |jobs|
  {
    if jobs == [] then (log, t)
    else if jobs[0] !in t then Drained(callback, jobs[1..], log + [Dropped(jobs[0])], t, size)
    else
      var log' := log + [Dispatched(jobs[0], t[jobs[0]].data, t)];
      Drained(callback, jobs[1..], log', ApplyAll(t, callback(log'), size), size)
  }

  /** A notice says what the table said: a dispatched job's slot was in use, with that attachment. */
  ghost predicate Truthful<T>(n: Notice<T>) {
    n.Dispatched? ==> n.fd in n.table && n.table[n.fd].data == n.data
  }

  /** Whatever the handlers do, every job gets exactly one notice, in the list's order. */
  lemma {:induction false} EveryJobIsAnswered<T(!new)>(
    callback: seq<Notice<T>> -> seq<Op<T>>, jobs: seq<int>, log: seq<Notice<T>>, t: Table<T>, size: nat)
    ensures var log' := Drained(callback, jobs, log, t, size).0;
            && |log'| == |log| + |jobs| && log <= log'
            && forall k :: |log| <= k < |log'| ==> log'[k].fd == jobs[k - |log|] && Truthful(log'[k])
    decreases |jobs|
  {
    if jobs != [] {
      var fd := jobs[0];
      var notice := if fd in t then Dispatched(fd, t[fd].data, t) else Dropped(fd);
      var log1 := log + [notice];
      var t1 := if fd in t then ApplyAll(t, callback(log1), size) else t;
      EveryJobIsAnswered(callback, jobs[1..], log1, t1, size);
      var log' := Drained(callback, jobs, log, t, size).0;
      assert log' == Drained(callback, jobs[1..], log1, t1, size).0;
      assert log'[|log|] == notice;
      forall k | |log| <= k < |log'|
        ensures log'[k].fd == jobs[k - |log|] && Truthful(log'[k])
      {
        if k > |log| {
          assert jobs[1..][k - |log1|] == jobs[k - |log|];
        }
      }
    }
  }

  class JobList<T(!new)> {
    const selector: Selector<T>
    var jobs: seq<int>

    ghost predicate Valid()
      reads this, selector, selector.fds
    {
      selector.Valid()
    }

    constructor (selector: Selector<T>)
      requires selector.Valid()
      ensures Valid() && this.selector == selector && jobs == []
    {
      this.selector, jobs := selector, [];
    }

    /** `selector_notify_block`: push a job, unless there is no memory for it. */
    method NotifyBlock(fd: int, memory: bool) returns (status: Status)
      requires Valid()
      modifies this
      ensures Valid()
      ensures status == if memory then Success else NoMemory
      ensures jobs == if memory then [fd] + old(jobs) else old(jobs)
    {
      if !memory {
        return NoMemory;
      }
      jobs := [fd] + jobs;
      return Success;
    }

    /** `handle_block_notifications`: one pass over the list, then the list is empty; false for a job past the array. */
    method HandleBlockNotifications(callback: seq<Notice<T>> -> seq<Op<T>>) returns (ok: bool, log: seq<Notice<T>>)
      requires Valid()
      modifies this, selector, selector.fds
      ensures selector.fds == old(selector.fds)
      ensures ok <==> forall j :: 0 <= j < |old(jobs)| ==> 0 <= old(jobs)[j] < selector.fds.Length
      ensures ok ==> Valid() && jobs == []
      ensures ok ==> (log, selector.View()) == Drained(callback, old(jobs), [], old(selector.View()), selector.fds.Length)
    {
      ok, log := true, [];
      ghost var size := selector.fds.Length;
      var j := 0;
      while j < |jobs|
        invariant Valid() && jobs == old(jobs) && selector.fds == old(selector.fds) && j <= |jobs|
        invariant forall i :: 0 <= i < j ==> 0 <= jobs[i] < size
        invariant Drained(callback, jobs[j..], log, selector.View(), size)
               == Drained(callback, jobs, [], old(selector.View()), size)
      {
        var fd := jobs[j];
        if fd < 0 || fd >= selector.fds.Length {
          return false, log;
        }
        assert jobs[j..][0] == fd && jobs[j..][1..] == jobs[j + 1..];
        assert selector.fds[..][fd] == selector.fds[fd];
        if ItemUsed(selector.fds[fd]) {
          log := log + [Dispatched(fd, selector.fds[fd].data.value, selector.View())];
          selector.Perform(callback(log));
        } else {
          log := log + [Dropped(fd)];
        }
        j := j + 1;
      }
      jobs := [];
    }
  }
}
