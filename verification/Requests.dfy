/** What the page asks for, on the wire and back: the messages its encoder builds are the ones the server
    acts on, whatever the chunks they arrive in. */
module Requests {
  import opened Bytes
  import opened Framing
  import Echo
  import Wire

  /** The requests of the page.  Keys are -1, 0 or 1. */
  datatype Request =
    | Join(version: nat)
    | Keys(seqNo: nat, mx: int, my: int, attack: bool, skill: bool)
    | Ping(timeUs: int)

  predicate Sendable(r: Request) {
    match r
    case Join(v) => v < 65536
    case Keys(n, mx, my, _, _) => n < 0x1_0000_0000 && -128 <= mx < 128 && -128 <= my < 128
    case Ping(t) => -0x8000_0000_0000_0000 <= t < 0x8000_0000_0000_0000
  }

  function Flag(b: bool): Byte { if b then 1 else 0 }

  const TWO63: int := 0x8000_0000_0000_0000

  function Signed64(t: int): (n: nat)
    requires -TWO63 <= t < TWO63
    ensures n < 2 * TWO63
  {
    if t < 0 then t + 2 * TWO63 else t
  }

  /** The page's encoder. */
  function Encoded(r: Request): (b: seq<Byte>)
    requires Sendable(r)
  {
    match r
    case Join(v) => Put16(6) + Put16(C2S_JOIN) + Put16(v)
    case Keys(n, mx, my, attack, skill) =>
      Put16(12) + Put16(C2S_INPUT) + Le(n, 4)
      + [Wire.Wrapped(mx, 256) as Byte, Wire.Wrapped(my, 256) as Byte, Flag(attack), Flag(skill)]
    case Ping(t) => Put16(12) + Put16(C2S_PING) + Le(Signed64(t), 8)
  }

  /** What the server takes from a frame it accepts; attack and skill count as pressed unless zero. */
  function Taken(f: Frame): Request
    requires ServerOk(f) && TypeAt(f) != ECHO
  {
    if TypeAt(f) == C2S_JOIN then Join(Le16(f[4], f[5]))
    else if TypeAt(f) == C2S_INPUT then
      Keys(FromLe(f[4..8]), Wire.Unwrapped(f[8] as nat, 256), Wire.Unwrapped(f[9] as nat, 256), f[10] != 0, f[11] != 0)
    else
      var n := FromLe(f[4..12]);
      Ping(if n < TWO63 then n else n - 2 * TWO63)
  }

  lemma EightBytes()
    ensures Pow256(4) == 0x1_0000_0000 && Pow256(8) == 2 * TWO63
  {
    assert Pow256(4) == 256 * (256 * Pow256(2));
    assert Pow256(8) == 256 * (256 * (256 * (256 * Pow256(4))));
  }

  /** Every request of the page is a whole message that the server accepts and takes for what it was; byte
      for byte it starts with its length and type, lowest byte first. */
  lemma RequestRoundTrip(r: Request)
    requires Sendable(r)
    ensures var f := Encoded(r);
      && Framed(SERVER_MAX, f) && ServerOk(f) && TypeAt(f) != ECHO && Taken(f) == r
      && f[0] as int + 256 * f[1] as int == |f|
      && f[2] as int + 256 * f[3] as int == (if r.Join? then 10 else if r.Keys? then 11 else 12)
      && (r.Keys? ==> f[4] as int + 256 * (f[5] as int + 256 * (f[6] as int + 256 * f[7] as int)) == r.seqNo)
  {
    hide Pow256;
    EightBytes();
    var f := Encoded(r);
    match r
    case Join(v) =>
    case Keys(n, mx, my, attack, skill) =>
      FromLeOfLe(n, 4);
      assert f[4..8] == Le(n, 4);
      FourSpelled(f[4..8]);
    case Ping(t) =>
      FromLeOfLe(Signed64(t), 8);
      assert f[4..12] == Le(Signed64(t), 8);
  }

  lemma FourSpelled(b: seq<Byte>)
    requires |b| == 4
    ensures FromLe(b) == b[0] as int + 256 * (b[1] as int + 256 * (b[2] as int + 256 * b[3] as int))
  {
    assert FromLe(b[1..]) == b[1] as int + 256 * FromLe(b[1..][1..]);
    assert b[1..][1..] == b[2..] && b[2..][1..] == b[3..] && b[3..][1..] == [];
    assert FromLe(b[3..]) == b[3] as int + 256 * FromLe([]);
  }

  /** The server accepts an echo of any size, the three requests of the page in their one size each, and
      nothing else; in particular nothing it sends itself.  The load client gives up on an echo without room
      for its number and time, and on a refused join, and on nothing else. */
  lemma WhoAcceptsWhat(f: Frame)
    requires |f| >= 4
    ensures ServerOk(f) <==> TypeAt(f) == 1 || (TypeAt(f), |f|) in {(10, 6), (11, 12), (12, 12)}
    ensures 100 <= TypeAt(f) <= 104 ==> !ServerOk(f)
    ensures DummyOk(f) <==> TypeAt(f) != 101 && (TypeAt(f) == 1 ==> |f| >= 20)
  { }

  predicate IsRequest(f: Frame, r: Request) { ServerOk(f) && TypeAt(f) != ECHO && Taken(f) == r }

  function AllEncoded(rs: seq<Request>): (fs: seq<Frame>)
    requires forall k :: 0 <= k < |rs| ==> Sendable(rs[k])
    ensures |fs| == |rs| && forall k :: 0 <= k < |rs| ==> fs[k] == Encoded(rs[k])
  {
    seq(|rs|, k requires 0 <= k < |rs| => Encoded(rs[k]))
  }

  /** However the page's requests are cut into chunks, the server takes exactly them, in order. */
  lemma PageIsHeard(rs: seq<Request>, chunks: seq<seq<Byte>>)
    requires forall k :: 0 <= k < |rs| ==> Sendable(rs[k])
    requires Prefix(Flat(chunks), Flat(AllEncoded(rs)))
    ensures var server := FeedAll(SERVER_MAX, ServerOk, FRESH, chunks);
      && !server.dead && |server.got| <= |rs|
      && (forall k :: 0 <= k < |server.got| ==> IsRequest(server.got[k], rs[k]))
      && (Flat(chunks) == Flat(AllEncoded(rs)) ==> |server.got| == |rs|)
  {
    hide Encoded, Taken, Framed, FeedAll, TypeAt;
    var log := AllEncoded(rs);
    forall k | 0 <= k < |log| ensures Framed(SERVER_MAX, log[k]) && IsRequest(log[k], rs[k]) {
      RequestRoundTrip(rs[k]);
    }
    Echo.Received(ServerOk, log, chunks);
    var got := FeedAll(SERVER_MAX, ServerOk, FRESH, chunks).got;
    forall k | 0 <= k < |got| ensures got[k] == log[k] { assert got[k] == log[..|got|][k]; }
  }
}
