/** src/server/negotiation_parser.c: the method-selection message of section 3 of RFC 1928. */
module NegotiationParser {
  import opened Bytes
  import opened Buffers
  import opened Incremental

  const SOCKS_VERSION: byte := 5
  const PASS: byte := 2
  const NOT_ACCEPTABLE: byte := 255

  datatype State = NegVersion | NegMethodCount | NegMethodList | NegDone | NegError

  datatype Neg = Neg(state: State, selected: byte, quantity: byte)

  /** `initialize_negotiation_parser` leaves the counter as it was. */
  function Init(quantity: byte): Neg { Neg(NegVersion, NOT_ACCEPTABLE, quantity) }

  predicate Done(p: Neg) { p.state == NegDone || p.state == NegError }

  function Step(p: Neg, b: byte): Neg {
    match p.state
    case NegVersion => p.(state := if b == SOCKS_VERSION then NegMethodCount else NegError)
    case NegMethodCount =>
      if b == 0 then p.(state := NegDone) else p.(state := NegMethodList, quantity := b)
    case NegMethodList =>
      Neg(if Dec(p.quantity) == 0 then NegDone else NegMethodList,
          if b == PASS then b else p.selected, Dec(p.quantity))
    case _ => p
  }

  function Parse(p: Neg, input: seq<byte>): (Neg, seq<byte>) { Feed(Step, Done, p, input) }

  /** Bytes still needed: the counter wraps, so a counter of 0 would mean 256 more. */
  function Rank(p: Neg): nat {
    match p.state
    case NegVersion => 257
    case NegMethodCount => 256
    case NegMethodList => if p.quantity == 0 then 256 else p.quantity
    case _ => 0
  }

  /** Every stream ends the parser within 257 bytes. */
  lemma Terminates(q: byte, input: seq<byte>)
    ensures |input| - |Parse(Init(q), input).1| <= 257
    ensures |input| >= 257 ==> Done(Parse(Init(q), input).0)
  {
    RankBounds(Step, Done, Rank, Init(q), input);
  }

  lemma {:induction false} ParseMethods(p: Neg, methods: seq<byte>, rest: seq<byte>)
    requires p.state == NegMethodList && |methods| == p.quantity > 0
    ensures Parse(p, methods + rest)
         == (Neg(NegDone, if PASS in methods then PASS else p.selected, 0), rest)
    decreases |methods|
  {
    var input := methods + rest;
    var p' := Step(p, methods[0]);
    assert input[0] == methods[0] && input[1..] == methods[1..] + rest;
    assert Parse(p, input) == Parse(p', input[1..]);
    if |methods| == 1 {
      assert input[1..] == rest;
    } else {
      ParseMethods(p', methods[1..], rest);
    }
  }

  function Encode(methods: seq<byte>): seq<byte>
    requires |methods| <= 255
  {
    [SOCKS_VERSION, |methods|] + methods
  }

  /** A well-formed list is consumed exactly, and 0x02 is selected iff the client offers it. */
  lemma RoundTrip(q: byte, methods: seq<byte>, rest: seq<byte>)
    requires |methods| <= 255
    ensures var r := Parse(Init(q), Encode(methods) + rest);
            && r.0.state == NegDone && r.1 == rest
            && r.0.selected == if PASS in methods then PASS else NOT_ACCEPTABLE
  {
    var input := Encode(methods) + rest;
    var p1 := Step(Init(q), input[0]);
    var p2 := Step(p1, input[1]);
    assert input[1..][1..] == methods + rest;
    assert Parse(Init(q), input) == Parse(p1, input[1..]) == Parse(p2, methods + rest);
    if methods == [] {
      assert methods + rest == rest;
    } else {
      ParseMethods(p2, methods, rest);
    }
  }

  predicate IsMessage(input: seq<byte>, methods: seq<byte>, rest: seq<byte>) {
    |methods| <= 255 && input == Encode(methods) + rest
  }

  /** The parser is done exactly on such a list, and fails exactly on a wrong version byte. */
  lemma Grammar(q: byte, input: seq<byte>)
    ensures var r := Parse(Init(q), input);
            && (r.0.state == NegDone <==> exists methods, rest :: IsMessage(input, methods, rest))
            && (r.0.state == NegError <==> input != [] && input[0] != SOCKS_VERSION)
  {
    var r := Parse(Init(q), input);
    forall methods, rest | IsMessage(input, methods, rest)
      ensures r.0.state == NegDone
    {
      RoundTrip(q, methods, rest);
    }
    if input != [] {
      var p1 := Step(Init(q), input[0]);
      assert r == Parse(p1, input[1..]);
      if |input| >= 2 && input[0] == SOCKS_VERSION {
        if input[1] <= |input| - 2 {
          var methods, rest := input[2..2 + input[1]], input[2 + input[1]..];
          assert IsMessage(input, methods, rest);
          RoundTrip(q, methods, rest);
        } else {
          var p2 := Step(p1, input[1]);
          assert input[1..][1..] == input[2..];
          assert r == Parse(p2, input[2..]);
          ListTooShort(p2, input[2..]);
        }
      }
    }
  }

  lemma {:induction false} ListTooShort(p: Neg, input: seq<byte>)
    requires p.state == NegMethodList && |input| < p.quantity
    ensures Parse(p, input).0.state == NegMethodList
    decreases |input|
  {
    if input != [] {
      ListTooShort(Step(p, input[0]), input[1..]);
    }
  }

  lemma ParseByte(p: Neg, input: seq<byte>, k: nat)
    requires k < |input| && !Done(p)
    ensures Parse(p, input[k..]) == Parse(Step(p, input[k]), input[k + 1..])
  {
    assert input[k..][1..] == input[k + 1..];
  }

  lemma ParseStops(p: Neg, input: seq<byte>)
    requires input == [] || Done(p)
    ensures Parse(p, input) == (p, input)
  {
  }

  class Parser {
    var selectedMethod: byte
    var currentState: State
    var methodQuantity: byte

    ghost function View(): Neg
      reads this
    {
      Neg(currentState, selectedMethod, methodQuantity)
    }

    /** The zeroed union of a fresh connection. */
    constructor ()
      ensures View() == Neg(NegVersion, 0, 0)
    {
      selectedMethod, currentState, methodQuantity := 0, NegVersion, 0;
    }

    method Initialize()
      modifies this
      ensures View() == Init(old(methodQuantity))
    {
      currentState := NegVersion;
      selectedMethod := NOT_ACCEPTABLE;
    }

    method ParseVersion(version: byte)
      requires currentState == NegVersion
      modifies this
      ensures View() == Step(old(View()), version)
    {
      if SOCKS_VERSION == version {
        currentState := NegMethodCount;
        return;
      }
      currentState := NegError;
    }

    method ParseMethodCount(quantity: byte)
      requires currentState == NegMethodCount
      modifies this
      ensures View() == Step(old(View()), quantity)
    {
      if quantity == 0 {
        currentState := NegDone;
        return;
      }
      methodQuantity := quantity;
      currentState := NegMethodList;
    }

    method ParseMethod(currentMethod: byte)
      requires currentState == NegMethodList
      modifies this
      ensures View() == Step(old(View()), currentMethod)
    {
      methodQuantity := Dec(methodQuantity);
      if currentMethod == PASS {
        selectedMethod := currentMethod;
      }
      currentState := if methodQuantity == 0 then NegDone else NegMethodList;
    }

    predicate IsDone()
      reads this
      ensures IsDone() <==> Done(View())
    {
      currentState == NegDone || currentState == NegError
    }

    /** `negotiation_parse`. */
    method Run(buffer: Buffer)
      requires buffer.Valid()
      modifies this, buffer, buffer.data
      ensures buffer.Valid()
      ensures var b := old(buffer.View()); var r := Parse(old(View()), b.contents);
              && View() == r.0
              && buffer.View() == if r.1 == b.contents then b else b.Drop(|b.contents| - |r.1|)
      ensures IsDone() || buffer.View() == Buf(0, [], buffer.data.Length)
    {
      hide Parse, Step;
      ghost var b, p0 := buffer.View(), View();
      ghost var k := 0;
      assert b.contents[0..] == b.contents;
      while buffer.CanRead() && !IsDone()
        invariant buffer.Valid() && k <= |b.contents|
        invariant buffer.View() == if k == 0 then b else b.Drop(k)
        invariant buffer.View().contents == b.contents[k..]
        invariant Parse(p0, b.contents) == Parse(View(), b.contents[k..])
        decreases |b.contents| - k
      {
        ParseByte(View(), b.contents, k);
        var c := buffer.ReadByte();
        match currentState {
          case NegVersion => ParseVersion(c);
          case NegMethodCount => ParseMethodCount(c);
          case NegMethodList => ParseMethod(c);
        }
        k := k + 1;
      }
      ParseStops(View(), b.contents[k..]);
    }

    /** `generate_negotiation_response`: 0 when both bytes of the reply were queued. */
    method GenerateResponse(buffer: Buffer) returns (status: int)
      requires buffer.Valid()
      modifies buffer, buffer.data
      ensures buffer.Valid()
      ensures var b := old(buffer.View());
              (status, buffer.View()) == Respond(View(), b)
    {
      if currentState == NegError || !buffer.CanWrite() {
        return 1;
      }
      buffer.WriteByte(SOCKS_VERSION);
      if !buffer.CanWrite() {
        return 1;
      }
      ghost var b := old(buffer.View());
      buffer.WriteByte(selectedMethod);
      assert b.contents + [SOCKS_VERSION] + [selectedMethod] == b.contents + [SOCKS_VERSION, selectedMethod];
      return 0;
    }
  }

  /** The status and the buffer left by `generate_negotiation_response`. */
  function Respond(p: Neg, b: Buf): (int, Buf)
    requires b.Valid()
  {
    if p.state == NegError || b.Space() == 0 then (1, b)
    else if b.Space() == 1 then (1, b.Append([SOCKS_VERSION]))
    else (0, b.Append([SOCKS_VERSION, p.selected]))
  }

  /** A reply for a parsed list names 0x02 exactly when the client offered it. */
  lemma ReplySaysWhetherOffered(q: byte, methods: seq<byte>, rest: seq<byte>, b: Buf)
    requires |methods| <= 255 && b.Valid() && b.Space() >= 2
    ensures var r := Respond(Parse(Init(q), Encode(methods) + rest).0, b);
            && r.0 == 0
            && r.1.contents == b.contents + [SOCKS_VERSION, if PASS in methods then PASS else NOT_ACCEPTABLE]
  {
    RoundTrip(q, methods, rest);
  }
}
