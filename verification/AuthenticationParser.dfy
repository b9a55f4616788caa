/** src/server/authentication_parser.c: the username/password message of section 2 of RFC 1929. */
module AuthenticationParser {
  import opened Bytes
  import opened Buffers
  import opened Incremental

  const AUTH_VERSION: byte := 1
  const AUTHENTICATED: byte := 0
  const ACCESS_DENIED: byte := 1

  datatype State = AuthVersion | AuthUlen | AuthUname | AuthPlen | AuthPasswd | AuthDone | AuthError

  datatype RawAuth = Auth(state: State, length: byte, bytesRead: byte, uname: Field, passwd: Field)

  predicate BetweenFields(s: State) { s.AuthVersion? || s.AuthUlen? || s.AuthPlen? }

  /** The cursor is back at 0 whenever no field is being read. */
  type Auth = p: RawAuth | BetweenFields(p.state) ==> p.bytesRead == 0
    witness Auth(AuthVersion, 0, 0, Zeros(), Zeros())

  /** `initialize_auth_parser` does not clear the two arrays. */
  function Init(uname: Field, passwd: Field): Auth { Auth(AuthVersion, 0, 0, uname, passwd) }

  predicate Done(p: Auth) { p.state == AuthDone || p.state == AuthError }

  function Step(p: Auth, b: byte): Auth {
    match p.state
    case AuthVersion => p.(state := if b == AUTH_VERSION then AuthUlen else AuthError)
    case AuthUlen => if b == 0 then p.(state := AuthPlen) else p.(state := AuthUname, length := b)
    case AuthPlen => p.(state := AuthPasswd, length := b)
    case AuthUname =>
      var q := p.(uname := p.uname[p.bytesRead := b]);
      if Inc(p.bytesRead) == p.length then q.(bytesRead := 0, state := AuthPlen)
      else q.(bytesRead := Inc(p.bytesRead))
    case AuthPasswd =>
      var q := p.(passwd := p.passwd[p.bytesRead := b]);
      if Inc(p.bytesRead) == p.length then q.(bytesRead := 0, state := AuthDone)
      else q.(bytesRead := Inc(p.bytesRead))
    case _ => p
  }

  function Parse(p: Auth, input: seq<byte>): (Auth, seq<byte>) { Feed(Step, Done, p, input) }

  /** Bytes until the wrapping cursor meets the length. */
  function Missing(p: Auth): nat {
    if p.bytesRead < p.length then p.length - p.bytesRead else 256 - p.bytesRead + p.length
  }

  function Rank(p: Auth): nat {
    match p.state
    case AuthVersion => 514
    case AuthUlen => 513
    case AuthUname => Missing(p) + 257
    case AuthPlen => 257
    case AuthPasswd => Missing(p)
    case _ => 0
  }

  /** Every stream ends the parser within 514 bytes, zero-length fields included. */
  lemma Terminates(u: Field, w: Field, input: seq<byte>)
    ensures |input| - |Parse(Init(u, w), input).1| <= 514
    ensures |input| >= 514 ==> Done(Parse(Init(u, w), input).0)
  {
    RankBounds(Step, Done, Rank, Init(u, w), input);
  }

  /** The state after the last byte of the field being read. */
  function FieldRead(p: Auth, bs: seq<byte>): Auth
    requires p.state in {AuthUname, AuthPasswd} && p.bytesRead + |bs| <= FIELD_SIZE
  {
    if p.state == AuthUname then
      p.(state := AuthPlen, bytesRead := 0, uname := Store(p.uname, p.bytesRead, bs))
    else
      p.(state := AuthDone, bytesRead := 0, passwd := Store(p.passwd, p.bytesRead, bs))
  }

  lemma FieldReadByByte(p: Auth, bs: seq<byte>)
    requires p.state in {AuthUname, AuthPasswd}
    requires p.bytesRead < FieldLength(p.length) == p.bytesRead + |bs|
    ensures var p' := Step(p, bs[0]);
            && (|bs| == 1 ==> p' == FieldRead(p, bs))
            && (|bs| > 1 ==> p'.state == p.state && p'.bytesRead == p.bytesRead + 1 && p'.length == p.length)
            && (|bs| > 1 ==> FieldRead(p', bs[1..]) == FieldRead(p, bs))
  {
    hide Store;
    var f := if p.state == AuthUname then p.uname else p.passwd;
    StoreOneMore(f, p.bytesRead, bs);
    if |bs| == 1 {
      StoreNothing(f[p.bytesRead := bs[0]], p.bytesRead + 1);
      assert bs[1..] == [];
    }
  }

  lemma {:induction false} ParseField(p: Auth, bs: seq<byte>, rest: seq<byte>)
    requires p.state in {AuthUname, AuthPasswd}
    requires p.bytesRead < FieldLength(p.length) == p.bytesRead + |bs|
    ensures Parse(p, bs + rest) == Parse(FieldRead(p, bs), rest)
    decreases |bs|
  {
    var p' := Step(p, bs[0]);
    assert (bs + rest)[0] == bs[0] && (bs + rest)[1..] == bs[1..] + rest;
    assert Parse(p, bs + rest) == Parse(p', bs[1..] + rest);
    FieldReadByByte(p, bs);
    if |bs| == 1 {
      assert bs[1..] + rest == rest;
    } else {
      ParseField(p', bs[1..], rest);
    }
  }

  lemma {:induction false} FieldTooShort(p: Auth, input: seq<byte>)
    requires p.state in {AuthUname, AuthPasswd} && p.bytesRead + |input| < FieldLength(p.length)
    ensures Parse(p, input).0.state == p.state
    decreases |input|
  {
    if input != [] {
      FieldTooShort(Step(p, input[0]), input[1..]);
    }
  }

  /** A message as the parser reads it: a declared password length of 0 takes 256 bytes. */
  function Encode(uname: seq<byte>, plen: byte, passwd: seq<byte>): seq<byte>
    requires |uname| <= 255
  {
    [AUTH_VERSION, |uname|] + uname + [plen] + passwd
  }

  lemma ParseUname(p: Auth, uname: seq<byte>, rest: seq<byte>)
    requires p.state == AuthVersion && |uname| <= 255
    ensures var r := Parse(p, [AUTH_VERSION, |uname|] + uname + rest);
            exists q: Auth :: q.state == AuthPlen && q.uname == Store(p.uname, 0, uname) && q.passwd == p.passwd
                         && r == Parse(q, rest)
  {
    var input := [AUTH_VERSION, |uname|] + uname + rest;
    var p1 := Step(p, input[0]);
    var p2 := Step(p1, input[1]);
    assert input[1..][1..] == uname + rest;
    assert Parse(p, input) == Parse(p1, input[1..]) == Parse(p2, uname + rest);
    if uname == [] {
      assert uname + rest == rest && Store(p.uname, 0, uname) == p.uname;
      assert Parse(p, input) == Parse(p2, rest);
    } else {
      ParseField(p2, uname, rest);
      var q := FieldRead(p2, uname);
      assert Parse(p, input) == Parse(q, rest);
    }
  }

  /** Names and passwords are stored as sent, and exactly the message is consumed. */
  lemma Reads(p: Auth, uname: seq<byte>, plen: byte, passwd: seq<byte>, rest: seq<byte>)
    requires p.state == AuthVersion && |uname| <= 255 && |passwd| == FieldLength(plen)
    ensures var r := Parse(p, Encode(uname, plen, passwd) + rest);
            && r.0.state == AuthDone && r.1 == rest
            && r.0.uname == Store(p.uname, 0, uname) && r.0.passwd == Store(p.passwd, 0, passwd)
  {
    var tail := [plen] + passwd + rest;
    assert Encode(uname, plen, passwd) + rest == [AUTH_VERSION, |uname|] + uname + tail;
    ParseUname(p, uname, tail);
    var q: Auth :| q.state == AuthPlen && q.uname == Store(p.uname, 0, uname) && q.passwd == p.passwd
              && Parse(p, Encode(uname, plen, passwd) + rest) == Parse(q, tail);
    var q' := Step(q, plen);
    assert tail[1..] == passwd + rest;
    assert Parse(q, tail) == Parse(q', passwd + rest);
    ParseField(q', passwd, rest);
    assert Parse(FieldRead(q', passwd), rest) == (FieldRead(q', passwd), rest);
  }

  /** Every credential pair of the protocol round-trips, NUL-terminated, with exact consumption. */
  lemma RoundTrip(uname: seq<byte>, passwd: seq<byte>, rest: seq<byte>)
    requires 1 <= |uname| <= 255 && 1 <= |passwd| <= 255
    ensures var r := Parse(Init(Zeros(), Zeros()), Encode(uname, |passwd|, passwd) + rest);
            && r.0.state == AuthDone && r.1 == rest
            && r.0.uname[..|uname|] == uname && r.0.uname[|uname|] == 0
            && r.0.passwd[..|passwd|] == passwd && r.0.passwd[|passwd|] == 0
  {
    Reads(Init(Zeros(), Zeros()), uname, |passwd|, passwd, rest);
  }

  predicate IsMessage(input: seq<byte>, uname: seq<byte>, plen: byte, passwd: seq<byte>, rest: seq<byte>) {
    && |uname| <= 255 && |passwd| == FieldLength(plen)
    && input == Encode(uname, plen, passwd) + rest
  }

  /** The parser is done exactly on such a message, and fails exactly on a wrong version byte. */
  lemma Grammar(p: Auth, input: seq<byte>)
    requires p.state == AuthVersion
    ensures var r := Parse(p, input);
            && (r.0.state == AuthDone <==>
                exists uname, plen, passwd, rest :: IsMessage(input, uname, plen, passwd, rest))
            && (r.0.state == AuthError <==> input != [] && input[0] != AUTH_VERSION)
  {
    forall uname, plen, passwd, rest | IsMessage(input, uname, plen, passwd, rest)
      ensures Parse(p, input).0.state == AuthDone
    {
      Reads(p, uname, plen, passwd, rest);
    }
    if input != [] {
      var p1 := Step(p, input[0]);
      assert Parse(p, input) == Parse(p1, input[1..]);
      if |input| >= 2 && input[0] == AUTH_VERSION {
        GrammarAfterVersion(p, input);
      }
    }
  }

  lemma PasswordPresent(q: Auth, tail: seq<byte>)
    requires q.state == AuthPlen
    ensures var r := Parse(q, tail);
            && (r.0.state == AuthDone ==> tail != [] && FieldLength(tail[0]) < |tail|)
            && r.0.state != AuthError
  {
    if tail != [] {
      var q' := Step(q, tail[0]);
      assert Parse(q, tail) == Parse(q', tail[1..]);
      if FieldLength(tail[0]) < |tail| {
        var n := FieldLength(tail[0]);
        assert tail[1..] == tail[1..1 + n] + tail[1 + n..];
        ParseField(q', tail[1..1 + n], tail[1 + n..]);
      } else {
        FieldTooShort(q', tail[1..]);
      }
    }
  }

  lemma GrammarAfterVersion(p: Auth, input: seq<byte>)
    requires p.state == AuthVersion && |input| >= 2 && input[0] == AUTH_VERSION
    ensures var r := Parse(p, input);
            && (r.0.state == AuthDone ==>
                exists uname, plen, passwd, rest :: IsMessage(input, uname, plen, passwd, rest))
            && r.0.state != AuthError
  {
    var n := input[1];
    if n > |input| - 2 {
      var p1 := Step(p, input[0]);
      var p2 := Step(p1, n);
      assert input[1..][1..] == input[2..];
      assert Parse(p, input) == Parse(p1, input[1..]) == Parse(p2, input[2..]);
      FieldTooShort(p2, input[2..]);
    } else {
      var uname, tail := input[2..2 + n], input[2 + n..];
      assert input == [AUTH_VERSION, |uname|] + uname + tail;
      ParseUname(p, uname, tail);
      var q: Auth :| q.state == AuthPlen && Parse(p, input) == Parse(q, tail);
      PasswordPresent(q, tail);
      if Parse(p, input).0.state == AuthDone {
        SplitPassword(input, uname, tail);
      }
    }
  }

  lemma SplitPassword(input: seq<byte>, uname: seq<byte>, tail: seq<byte>)
    requires |uname| <= 255 && input == [AUTH_VERSION, |uname|] + uname + tail
    requires tail != [] && FieldLength(tail[0]) < |tail|
    ensures exists u, plen, passwd, rest :: IsMessage(input, u, plen, passwd, rest)
  {
    var n := FieldLength(tail[0]);
    assert tail == [tail[0]] + tail[1..1 + n] + tail[1 + n..];
    assert input == Encode(uname, tail[0], tail[1..1 + n]) + tail[1 + n..];
    assert IsMessage(input, uname, tail[0], tail[1..1 + n], tail[1 + n..]);
  }

  /** The status and the buffer left by `auth_generate_response`. */
  function Respond(b: Buf, authenticated: byte): (int, Buf)
    requires b.Valid()
  {
    if b.Space() == 0 then (1, b)
    else if b.Space() == 1 then (1, b.Append([AUTH_VERSION]))
    else (0, b.Append([AUTH_VERSION, authenticated]))
  }

  lemma ParseByte(p: Auth, input: seq<byte>, k: nat)
    requires k < |input| && !Done(p)
    ensures Parse(p, input[k..]) == Parse(Step(p, input[k]), input[k + 1..])
  {
    assert input[k..][1..] == input[k + 1..];
  }

  lemma ParseStops(p: Auth, input: seq<byte>)
    requires input == [] || Done(p)
    ensures Parse(p, input) == (p, input)
  {
  }

  class Parser {
    var currentState: State
    var length: byte
    var bytesRead: byte
    const uname: array<byte>
    const passwd: array<byte>

    ghost predicate Valid()
      reads this
    {
      && uname.Length == passwd.Length == FIELD_SIZE && uname != passwd
      && (BetweenFields(currentState) ==> bytesRead == 0)
    }

    ghost function View(): Auth
      reads this, uname, passwd
      requires Valid()
    {
      Auth(currentState, length, bytesRead, uname[..], passwd[..])
    }

    constructor ()
      ensures Valid() && fresh(uname) && fresh(passwd) && View() == Init(Zeros(), Zeros())
    {
      currentState, length, bytesRead := AuthVersion, 0, 0;
      uname := new byte[FIELD_SIZE](_ => 0);
      passwd := new byte[FIELD_SIZE](_ => 0);
      new;
      assert uname[..] == Zeros() && passwd[..] == Zeros();
    }

    method Initialize()
      requires uname.Length == passwd.Length == FIELD_SIZE && uname != passwd
      modifies this
      ensures Valid() && View() == Init(uname[..], passwd[..])
    {
      currentState := AuthVersion;
      length := 0;
      bytesRead := 0;
    }

    method ParseVersion(version: byte)
      requires Valid() && currentState == AuthVersion
      modifies this
      ensures Valid() && View() == Step(old(View()), version)
    {
      if version == AUTH_VERSION {
        currentState := AuthUlen;
        return;
      }
      currentState := AuthError;
    }

    method ParseLength(n: byte)
      requires Valid() && currentState in {AuthUlen, AuthPlen}
      modifies this
      ensures Valid() && View() == Step(old(View()), n)
    {
      if n == 0 && currentState == AuthUlen {
        currentState := AuthPlen;
        return;
      }
      currentState := if currentState == AuthUlen then AuthUname else AuthPasswd;
      length := n;
    }

    method ParseCharacters(b: byte)
      requires Valid() && currentState in {AuthUname, AuthPasswd}
      modifies this, uname, passwd
      ensures Valid() && View() == Step(old(View()), b)
    {
      if currentState == AuthUname {
        uname[bytesRead] := b;
      } else {
        passwd[bytesRead] := b;
      }
      bytesRead := Inc(bytesRead);
      if bytesRead == length {
        bytesRead := 0;
        currentState := if currentState == AuthUname then AuthPlen else AuthDone;
      }
    }

    predicate IsDone()
      reads this, uname, passwd
      requires Valid()
      ensures IsDone() <==> Done(View())
    {
      currentState == AuthDone || currentState == AuthError
    }

    /** `auth_parse`. */
    method Run(buffer: Buffer)
      requires Valid() && buffer.Valid() && buffer.data !in {uname, passwd}
      modifies this, uname, passwd, buffer, buffer.data
      ensures Valid() && buffer.Valid()
      ensures var b := old(buffer.View()); var r := Parse(old(View()), b.contents);
              && View() == r.0
              && buffer.View() == if r.1 == b.contents then b else b.Drop(|b.contents| - |r.1|)
      ensures IsDone() || buffer.View() == Buf(0, [], buffer.data.Length)
    {
      hide Parse, Step;
      ghost var b, p0 := buffer.View(), View();
      ghost var k := 0;
      assert b.contents[0..] == b.contents;
      while buffer.CanRead() && !IsDone()
        invariant Valid() && buffer.Valid() && k <= |b.contents|
        invariant buffer.View() == if k == 0 then b else b.Drop(k)
        invariant buffer.View().contents == b.contents[k..]
        invariant Parse(p0, b.contents) == Parse(View(), b.contents[k..])
        decreases |b.contents| - k
      {
        ParseByte(View(), b.contents, k);
        ghost var p := View();
        var c := buffer.ReadByte();
        assert View() == p;
        match currentState {
          case AuthVersion => ParseVersion(c);
          case AuthUlen => ParseLength(c);
          case AuthPlen => ParseLength(c);
          case AuthUname => ParseCharacters(c);
          case AuthPasswd => ParseCharacters(c);
        }
        k := k + 1;
      }
      ParseStops(View(), b.contents[k..]);
    }
  }

  /** `auth_generate_response`: 0 when both bytes of the reply were queued. */
  method GenerateResponse(buffer: Buffer, authenticated: byte) returns (status: int)
    requires buffer.Valid()
    modifies buffer, buffer.data
    ensures buffer.Valid()
    ensures (status, buffer.View()) == Respond(old(buffer.View()), authenticated)
  {
    ghost var b := buffer.View();
    if !buffer.CanWrite() {
      return 1;
    }
    buffer.WriteByte(AUTH_VERSION);
    if !buffer.CanWrite() {
      return 1;
    }
    buffer.WriteByte(authenticated);
    assert b.contents + [AUTH_VERSION] + [authenticated] == b.contents + [AUTH_VERSION, authenticated];
    return 0;
  }
}
