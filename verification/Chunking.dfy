/** The three handshake messages, received in pieces: where `recv` cuts the client's stream does not matter. */
module Chunking {
  import opened Bytes
  import opened Incremental
  import N = NegotiationParser
  import A = AuthenticationParser
  import R = RequestParser

  /** From any state between calls, two ways of cutting one stream give the same state, fields and leftover. */
  lemma CutsAgree(n: N.Neg, a: A.Auth, r: R.Req, cut: seq<seq<byte>>, cut': seq<seq<byte>>)
    requires Flatten(cut) == Flatten(cut')
    ensures FeedChunks(N.Step, N.Done, n, [], cut) == FeedChunks(N.Step, N.Done, n, [], cut')
    ensures FeedChunks(A.Step, A.Done, a, [], cut) == FeedChunks(A.Step, A.Done, a, [], cut')
    ensures FeedChunks(R.Step, R.Done, r, [], cut) == FeedChunks(R.Step, R.Done, r, [], cut')
  {
    hide FeedChunks, Feed;
    ChunkIndependence(N.Step, N.Done, n, [], cut);
    ChunkIndependence(N.Step, N.Done, n, [], cut');
    ChunkIndependence(A.Step, A.Done, a, [], cut);
    ChunkIndependence(A.Step, A.Done, a, [], cut');
    ChunkIndependence(R.Step, R.Done, r, [], cut);
    ChunkIndependence(R.Step, R.Done, r, [], cut');
  }

  /** A method list in any pieces: 0x02 is selected if and only if it was offered; what follows is left over. */
  lemma MethodsInPieces(q: byte, methods: seq<byte>, rest: seq<byte>, cut: seq<seq<byte>>)
    requires |methods| <= 255 && Flatten(cut) == N.Encode(methods) + rest
    ensures var (p, left) := FeedChunks(N.Step, N.Done, N.Init(q), [], cut);
            && p.state == N.NegDone && left == rest
            && (p.selected == N.PASS <==> N.PASS in methods) && (p.selected == N.PASS || p.selected == N.NOT_ACCEPTABLE)
  {
    hide FeedChunks, N.Step, N.Done;
    ChunkIndependence(N.Step, N.Done, N.Init(q), [], cut);
    assert [] + Flatten(cut) == Flatten(cut);
    N.RoundTrip(q, methods, rest);
  }

  /** Credentials in any pieces: both strings arrive, ended by a zero; what follows is left over. */
  lemma CredentialsInPieces(uname: seq<byte>, passwd: seq<byte>, rest: seq<byte>, cut: seq<seq<byte>>)
    requires 1 <= |uname| <= 255 && 1 <= |passwd| <= 255
    requires Flatten(cut) == A.Encode(uname, |passwd|, passwd) + rest
    ensures var (p, left) := FeedChunks(A.Step, A.Done, A.Init(Zeros(), Zeros()), [], cut);
            && p.state == A.AuthDone && left == rest
            && p.uname[..|uname|] == uname && p.uname[|uname|] == 0
            && p.passwd[..|passwd|] == passwd && p.passwd[|passwd|] == 0
  {
    hide FeedChunks, A.Step, A.Done, A.Init, Zeros;
    var start := A.Init(Zeros(), Zeros());
    ChunkIndependence(A.Step, A.Done, start, [], cut);
    assert [] + Flatten(cut) == Flatten(cut);
    A.RoundTrip(uname, passwd, rest);
  }

  /** A CONNECT request in any pieces: address and port arrive; what follows is left over, for the origin. */
  lemma RequestInPieces(p0: R.Req, atyp: byte, bs: seq<byte>, high: byte, low: byte, rest: seq<byte>, cut: seq<seq<byte>>)
    requires p0.state == R.ReqVersion
    requires (atyp == R.IPV4 && |bs| == 4) || (atyp == R.IPV6 && |bs| == 16) || (atyp == R.DN && 1 <= |bs| <= 255)
    requires Flatten(cut) == R.Encode(atyp, |bs|, bs, high, low) + rest
    ensures var (p, left) := FeedChunks(R.Step, R.Done, p0, [], cut);
            && p.state == R.ReqDone && left == rest
            && p.atyp == atyp && R.Names(p.address, atyp, bs) && p.port == 256 * high + low
  {
    hide FeedChunks, R.Step, R.Done;
    ChunkIndependence(R.Step, R.Done, p0, [], cut);
    assert [] + Flatten(cut) == Flatten(cut);
    R.RoundTrip(p0, atyp, bs, high, low, rest);
  }
}
