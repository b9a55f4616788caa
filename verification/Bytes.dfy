/** Bytes, and the few bit operations of C that the sources use on them. */
module Bytes {

  type byte = b: int | 0 <= b < 256

  /** Length of the fixed arrays that hold names, passwords and addresses (MAX_LENGTH + 1). */
  const FIELD_SIZE: nat := 256

  type Field = f: seq<byte> | |f| == FIELD_SIZE witness seq(FIELD_SIZE, _ => 0)

  /** Storage as calloc leaves it. */
  function Zeros(): Field { seq(FIELD_SIZE, _ => 0) }

  /** The C string at the start of an array: its characters up to the first zero. */
  function Text(f: seq<byte>): string {
    if f == [] || f[0] == 0 then "" else [f[0] as char] + Text(f[1..])
  }

  /** `uint8_t` increment, which wraps. */
  function Inc(b: byte): byte { (b + 1) % 256 }

  /** `uint8_t` decrement, which wraps. */
  function Dec(b: byte): byte { (b + 255) % 256 }

  /** C's `a | b`. */
  function Or(a: nat, b: nat): nat
    decreases a + b
  {
    if a == 0 then b
    else if b == 0 then a
    else 2 * Or(a / 2, b / 2) + (if a % 2 == 1 || b % 2 == 1 then 1 else 0)
  }

  /** C's `a & b`. */
  function And(a: nat, b: nat): nat
    decreases a + b
  {
    if a == 0 || b == 0 then 0
    else 2 * And(a / 2, b / 2) + (if a % 2 == 1 && b % 2 == 1 then 1 else 0)
  }

  /** C's `1 << bits`. */
  function Shl1(bits: nat): nat {
    if bits == 0 then 1 else 2 * Shl1(bits - 1)
  }

  lemma OrDouble(a: nat, b: nat)
    ensures Or(2 * a, b) == 2 * Or(a, b / 2) + b % 2
  {
  }

  lemma OrZero(a: nat)
    ensures Or(a, 0) == a
  {
  }

  /** Or-ing a byte into bits that are all clear is addition. */
  lemma OrOfPortBytes(high: byte, low: byte)
    ensures Or(256 * high, low) == 256 * high + low
  {
    hide Or;
    OrDouble(128 * high, low);
    OrDouble(64 * high, low / 2);
    OrDouble(32 * high, low / 2 / 2);
    OrDouble(16 * high, low / 2 / 2 / 2);
    OrDouble(8 * high, low / 2 / 2 / 2 / 2);
    OrDouble(4 * high, low / 2 / 2 / 2 / 2 / 2);
    OrDouble(2 * high, low / 2 / 2 / 2 / 2 / 2 / 2);
    OrDouble(high, low / 2 / 2 / 2 / 2 / 2 / 2 / 2);
    OrZero(high);
  }

  /** `f` with `bs` written from position `k` on. */
  function Store(f: Field, k: nat, bs: seq<byte>): Field
    requires k + |bs| <= FIELD_SIZE
  {
    f[..k] + bs + f[k + |bs|..]
  }

  lemma StoreOneMore(f: Field, k: nat, bs: seq<byte>)
    requires bs != [] && k + |bs| <= FIELD_SIZE
    ensures Store(f[k := bs[0]], k + 1, bs[1..]) == Store(f, k, bs)
  {
    var f' := f[k := bs[0]];
    assert f'[..k + 1] == f[..k] + [bs[0]];
    assert f'[k + |bs|..] == f[k + |bs|..];
    assert bs == [bs[0]] + bs[1..];
  }

  lemma StoreNothing(f: Field, k: nat)
    requires k <= FIELD_SIZE
    ensures Store(f, k, []) == f
  {
  }

  /** How many bytes a field of declared length `n` takes: the 8-bit cursor meets 0 only after 256. */
  function FieldLength(n: byte): nat { if n == 0 then 256 else n }
}
