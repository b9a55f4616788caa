/** src/server/buffer.c: a bounded FIFO with direct access for I/O. */
module Buffers {
  import opened Bytes

  /** What a buffer means: where reading starts, the unread bytes, and the capacity. */
  datatype Buf = Buf(read: nat, contents: seq<byte>, limit: nat) {

    predicate Valid() {
      && read + |contents| <= limit
      && (contents == [] ==> read == 0)
    }

    /** Contiguous free space: what `buffer_write_ptr` offers to `recv`. */
    function Space(): nat
      requires Valid()
    {
      limit - read - |contents|
    }

    function Append(bs: seq<byte>): (b: Buf)
      requires Valid() && |bs| <= Space()
      ensures b.Valid()
    {
      this.(contents := contents + bs)
    }

    /** Consume `n` bytes; a drained buffer is reset. */
    function Drop(n: nat): (b: Buf)
      requires Valid() && n <= |contents|
      ensures b.Valid()
    {
      if n == |contents| then Buf(0, [], limit) else Buf(read + n, contents[n..], limit)
    }

    function Compact(): (b: Buf)
      requires Valid()
      ensures b.Valid()
    {
      this.(read := 0)
    }
  }

  /** BUFFER_SIZE, the capacity of both buffers of a connection. */
  const BUFFER_SIZE: nat := 1024

  type GoodBuf = b: Buf | b.Valid() witness Buf(0, [], BUFFER_SIZE)

  /** The buffer after a parser has used all but `left` of what it holds. */
  function Leaving(b: GoodBuf, left: seq<byte>): GoodBuf {
    if |left| >= |b.contents| then b else b.Drop(|b.contents| - |left|)
  }

  /** What `b'` holds beyond `b`. */
  function Added(b: GoodBuf, b': GoodBuf): seq<byte> {
    if |b.contents| <= |b'.contents| then b'.contents[|b.contents|..] else []
  }

  class Buffer {
    const data: array<byte>
    var read: nat
    var write: nat

    /** R <= W <= limit. */
    ghost predicate InBounds()
      reads this
    {
      read <= write <= data.Length
    }

    /** Between operations an empty buffer is always reset. */
    ghost predicate Valid()
      reads this
    {
      InBounds() && (read == write ==> read == 0)
    }

    ghost function View(): (b: Buf)
      reads this, data
      requires InBounds()
    {
      Buf(read, data[read..write], data.Length)
    }

    constructor (n: nat)
      ensures Valid() && fresh(data)
      ensures View() == Buf(0, [], n)
    {
      data := new byte[n](_ => 0);
      read, write := 0, 0;
    }

    method Reset()
      modifies this
      ensures Valid() && View() == Buf(0, [], data.Length)
    {
      read, write := 0, 0;
    }

    predicate CanWrite()
      reads this
      requires Valid()
      ensures CanWrite() <==> View().Space() > 0
    {
      data.Length - write > 0
    }

    predicate CanRead()
      reads this
      requires Valid()
      ensures CanRead() <==> View().contents != []
    {
      write - read > 0
    }

    /** What `recv` does with the pointer of `buffer_write_ptr`: store bytes past the write cursor. */
    method Receive(bs: seq<byte>)
      requires Valid() && |bs| <= View().Space()
      modifies data
      ensures Valid() && View() == old(View())
      ensures data[write..write + |bs|] == bs
    {
      for i := 0 to |bs|
        invariant data[..write] == old(data[..write])
        invariant data[write..write + i] == bs[..i]
      {
        data[write + i] := bs[i];
      }
      assert bs[..|bs|] == bs;
      assert data[read..write] == data[..write][read..write];
      assert old(data[read..write]) == old(data[..write])[read..write];
    }

    /** `buffer_write_adv`: publish `bytes` bytes; a negative count is ignored. */
    method WriteAdv(bytes: int)
      requires Valid() && bytes <= View().Space()
      modifies this`write
      ensures Valid()
      ensures bytes < 0 ==> View() == old(View())
      ensures bytes >= 0 ==> View() == old(View().Append(data[write..write + bytes]))
    {
      if bytes > -1 {
        assert data[read..write + bytes] == data[read..write] + data[write..write + bytes];
        write := write + bytes;
      }
    }

    method ReadAdv(bytes: int)
      requires Valid() && bytes <= |View().contents|
      modifies this, data
      ensures Valid()
      ensures bytes < 0 ==> View() == old(View())
      ensures bytes >= 0 ==> View() == old(View().Drop(bytes))
    {
      if bytes > -1 {
        assert data[read..write][bytes..] == data[read + bytes..write];
        read := read + bytes;
        if read == write {
          Compact();
        }
      }
    }

    /** `buffer_read`: the next byte, or 0 when there is none. */
    method ReadByte() returns (ret: byte)
      requires Valid()
      modifies this, data
      ensures Valid()
      ensures old(View()).contents == [] ==> ret == 0 && View() == old(View())
      ensures old(View()).contents != [] ==>
                ret == old(View()).contents[0] && View() == old(View().Drop(1))
    {
      if CanRead() {
        ret := data[read];
        ReadAdv(1);
      } else {
        ret := 0;
      }
    }

    /** `buffer_write`: append one byte, or do nothing when there is no room. */
    method WriteByte(c: byte)
      requires Valid()
      modifies this, data
      ensures Valid()
      ensures View() == if old(View()).Space() > 0 then old(View()).Append([c]) else old(View())
    {
      if CanWrite() {
        ghost var was := View();
        data[write] := c;
        assert View() == was;
        WriteAdv(1);
        assert View() == was.Append([c]);
      }
    }

    /** `buffer_compact`: move the unread bytes to the front of the array. */
    method Compact()
      requires InBounds()
      modifies this, data
      ensures Valid() && View() == Buf(0, old(View()).contents, data.Length)
    {
      if read == 0 {
      } else if read == write {
        read, write := 0, 0;
      } else {
        var n := write - read;
        for i := 0 to n
          invariant InBounds() && read == old(read) && write == old(write)
          invariant forall k :: 0 <= k < i ==> data[k] == old(data[read + k])
          invariant forall k :: i <= k < data.Length ==> data[k] == old(data[k])
        {
          data[i] := data[read + i];
        }
        assert data[0..n] == old(data[read..write]);
        read, write := 0, n;
      }
    }
  }

  /** One operation of a producer or a consumer on a buffer. */
  datatype Op = Put(bs: seq<byte>) | Take(n: nat) | Squeeze

  predicate Fits(b: Buf, op: Op) {
    b.Valid() && (op.Put? ==> |op.bs| <= b.Space()) && (op.Take? ==> op.n <= |b.contents|)
  }

  function Do(b: Buf, op: Op): (b': Buf)
    requires Fits(b, op)
    ensures b'.Valid() && b'.limit == b.limit
  {
    match op
    case Put(bs) => b.Append(bs)
    case Take(n) => b.Drop(n)
    case Squeeze => b.Compact()
  }

  ghost predicate CanRun(b: Buf, ops: seq<Op>)
    decreases |ops|
  {
    ops == [] || (Fits(b, ops[0]) && CanRun(Do(b, ops[0]), ops[1..]))
  }

  ghost function Run(b: Buf, ops: seq<Op>): Buf
    requires CanRun(b, ops)
    decreases |ops|
  {
    if ops == [] then b else Run(Do(b, ops[0]), ops[1..])
  }

  ghost function AllPut(ops: seq<Op>): seq<byte> {
    if ops == [] then [] else (if ops[0].Put? then ops[0].bs else []) + AllPut(ops[1..])
  }

  ghost function AllTaken(b: Buf, ops: seq<Op>): seq<byte>
    requires CanRun(b, ops)
    decreases |ops|
  {
    if ops == [] then []
    else (if ops[0].Take? then b.contents[..ops[0].n] else []) + AllTaken(Do(b, ops[0]), ops[1..])
  }

  /** Whatever the interleaving, bytes come out in the order they went in, none lost or repeated. */
  lemma {:induction false} FifoOverRuns(b: Buf, ops: seq<Op>)
    requires CanRun(b, ops)
    ensures b.contents + AllPut(ops) == AllTaken(b, ops) + Run(b, ops).contents
    decreases |ops|
  {
    if ops != [] {
      var b' := Do(b, ops[0]);
      FifoOverRuns(b', ops[1..]);
      match ops[0]
      case Put(bs) =>
        assert b.contents + AllPut(ops) == b'.contents + AllPut(ops[1..]);
      case Take(n) =>
        assert b.contents == b.contents[..n] + b'.contents;
        assert b.contents + AllPut(ops) == b.contents[..n] + (b'.contents + AllPut(ops[1..]));
      case Squeeze =>
        assert AllPut(ops) == AllPut(ops[1..]);
    }
  }
}
