/** Byte-at-a-time machines fed from a buffer: the loop shared by the three message parsers. */
module Incremental {
  import opened Bytes

  /** Consume bytes until the machine is done or the input ends; returns the state and the unread rest. */
  function Feed<S(!new)>(step: (S, byte) -> S, done: S -> bool, s: S, input: seq<byte>): (r: (S, seq<byte>))
    ensures |r.1| <= |input|
    ensures done(r.0) || r.1 == []
    decreases |input|
  {
    if input == [] || done(s) then (s, input)
    else Feed(step, done, step(s, input[0]), input[1..])
  }

  lemma {:induction false} FeedAppend<S(!new)>(step: (S, byte) -> S, done: S -> bool, s: S, a: seq<byte>, b: seq<byte>)
    ensures var r := Feed(step, done, s, a);
            Feed(step, done, s, a + b) == Feed(step, done, r.0, r.1 + b)
    decreases |a|
  {
    if a == [] || done(s) {
      assert a == [] ==> a + b == b;
    } else {
      assert (a + b)[1..] == a[1..] + b;
      FeedAppend(step, done, step(s, a[0]), a[1..], b);
    }
  }

  /** `bs` takes the machine from `s` to `s'`, every byte being used. */
  ghost predicate Consumes<S(!new)>(step: (S, byte) -> S, done: S -> bool, s: S, bs: seq<byte>, s': S) {
    Feed(step, done, s, bs) == (s', [])
  }

  lemma ConsumesThenFeed<S(!new)>(step: (S, byte) -> S, done: S -> bool, s: S, bs: seq<byte>, s': S, rest: seq<byte>)
    requires Consumes(step, done, s, bs, s')
    ensures Feed(step, done, s, bs + rest) == Feed(step, done, s', rest)
  {
    FeedAppend(step, done, s, bs, rest);
    assert [] + rest == rest;
  }

  /** The leftover is a suffix, and the part before it takes the machine to the same state. */
  lemma {:induction false} UsedPartConsumes<S(!new)>(step: (S, byte) -> S, done: S -> bool, s: S, input: seq<byte>)
    ensures var r := Feed(step, done, s, input);
            && Consumes(step, done, s, input[..|input| - |r.1|], r.0)
            && input == input[..|input| - |r.1|] + r.1
    decreases |input|
  {
    if input != [] && !done(s) {
      UsedPartConsumes(step, done, step(s, input[0]), input[1..]);
      var r := Feed(step, done, s, input);
      var used := input[..|input| - |r.1|];
      assert used[1..] == input[1..][..|input[1..]| - |r.1|];
    }
  }

  /** A parse call adds what it uses to what was used before. */
  lemma ConsumesMore<S(!new)>(step: (S, byte) -> S, done: S -> bool, s: S, before: seq<byte>, s': S, input: seq<byte>)
    requires Consumes(step, done, s, before, s')
    ensures var r := Feed(step, done, s', input);
            && Consumes(step, done, s, before + input[..|input| - |r.1|], r.0)
            && input == input[..|input| - |r.1|] + r.1
  {
    UsedPartConsumes(step, done, s', input);
    ConsumesThenFeed(step, done, s, before, s', input[..|input| - |Feed(step, done, s', input).1|]);
  }

  /** A message that is over is consumed exactly, whatever follows it. */
  lemma DoneStops<S(!new)>(step: (S, byte) -> S, done: S -> bool, s: S, bs: seq<byte>, s': S, rest: seq<byte>)
    requires Consumes(step, done, s, bs, s') && done(s')
    ensures Feed(step, done, s, bs + rest) == (s', rest)
  {
    ConsumesThenFeed(step, done, s, bs, s', rest);
  }

  function Flatten(chunks: seq<seq<byte>>): seq<byte> {
    if chunks == [] then [] else chunks[0] + Flatten(chunks[1..])
  }

  /** One parse call per received chunk, each on what the last call left plus the chunk. */
  function FeedChunks<S(!new)>(step: (S, byte) -> S, done: S -> bool, s: S, pending: seq<byte>, chunks: seq<seq<byte>>): (S, seq<byte>)
    decreases |chunks|
  {
    if chunks == [] then (s, pending)
    else
      var r := Feed(step, done, s, pending + chunks[0]);
      FeedChunks(step, done, r.0, r.1, chunks[1..])
  }

  /** However the stream is cut, state and leftover are those of one call on all of it. */
  lemma {:induction false} ChunkIndependence<S(!new)>(
    step: (S, byte) -> S, done: S -> bool, s: S, pending: seq<byte>, chunks: seq<seq<byte>>)
    requires done(s) || pending == []
    ensures FeedChunks(step, done, s, pending, chunks) == Feed(step, done, s, pending + Flatten(chunks))
    decreases |chunks|
  {
    if chunks == [] {
      assert pending + Flatten(chunks) == pending;
    } else {
      var r := Feed(step, done, s, pending + chunks[0]);
      ChunkIndependence(step, done, r.0, r.1, chunks[1..]);
      FeedAppend(step, done, s, pending + chunks[0], Flatten(chunks[1..]));
      assert pending + Flatten(chunks) == (pending + chunks[0]) + Flatten(chunks[1..]);
    }
  }

  /** A machine whose rank falls with every byte stops within that many bytes. */
  lemma {:induction false} RankBounds<S(!new)>(
    step: (S, byte) -> S, done: S -> bool, rank: S -> nat, s: S, input: seq<byte>)
    requires forall s', b :: !done(s') ==> rank(step(s', b)) < rank(s')
    ensures |input| - |Feed(step, done, s, input).1| <= rank(s)
    ensures |input| >= rank(s) ==> done(Feed(step, done, s, input).0)
    decreases |input|
  {
    if done(s) {
    } else if input == [] {
      assert rank(step(s, 0)) < rank(s);
    } else {
      RankBounds(step, done, rank, step(s, input[0]), input[1..]);
    }
  }
}
