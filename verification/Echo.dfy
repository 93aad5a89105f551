/** The load client's echo traffic: packets whose size and padding follow from a seed and a sequence
    number, the verifier of what comes back, and the send backlog. */
module Echo {
  import opened Bytes
  import opened Framing

  /** Seed of the connection and the range of packet sizes. */
  datatype Plan = Plan(seed: bv64, lo: nat, hi: nat)

  predicate Usable(p: Plan) { ECHO_MIN <= p.lo <= p.hi <= SERVER_MAX }

  const TWO64: nat := 0x1_0000_0000_0000_0000

  function Mix64(x0: bv64): bv64 {
    var x1 := x0 + 0x9E3779B97F4A7C15;
    var x2 := (x1 ^ (x1 >> 30)) * 0xBF58476D1CE4E5B9;
    var x3 := (x2 ^ (x2 >> 27)) * 0x94D049BB133111EB;
    x3 ^ (x3 >> 31)
  }

  /** Total size of the packet with this sequence number. */
  function EchoSizeFor(p: Plan, seqNo: nat): (size: nat)
    requires Usable(p) && seqNo < TWO64
    ensures p.lo <= size <= p.hi
  {
    if p.hi <= p.lo then p.lo
    else p.lo + (Mix64(p.seed ^ ((seqNo as bv64) * 0xD1B54A32D192ED03)) as nat) % (p.hi - p.lo + 1)
  }

  /** The generator's value for this number. */
  function Draw(p: Plan, seqNo: nat): nat
    requires seqNo < TWO64
  {
    Mix64(p.seed ^ ((seqNo as bv64) * 0xD1B54A32D192ED03)) as nat
  }

  /** Every size in the range, both ends included, is drawn by its own class of generator values. */
  lemma SizesAreSpread(p: Plan, seqNo: nat, size: nat)
    requires Usable(p) && seqNo < TWO64 && p.lo <= size <= p.hi
    ensures EchoSizeFor(p, seqNo) == size <==> Draw(p, seqNo) % (p.hi - p.lo + 1) == size - p.lo
  {
    hide Mix64;
    var m := Draw(p, seqNo);
    if p.hi == p.lo { assert m % 1 == 0; }
  }

  function Put64(n: nat): (b: seq<Byte>)
    requires n < TWO64
    ensures |b| == 8
  {
    Le(n, 8)
  }

  function Get64(b: seq<Byte>): nat
    requires |b| == 8
  {
    FromLe(b)
  }

  lemma Get64Put64(n: nat)
    requires n < TWO64
    ensures Get64(Put64(n)) == n
  {
    assert Pow256(8) == 256 * (256 * (256 * (256 * Pow256(4))));
    assert Pow256(4) == 256 * (256 * (256 * (256 * Pow256(0))));
    FromLeOfLe(n, 8);
  }

  function WordBytes(s: bv64): (b: seq<Byte>)
    ensures |b| == 8
  {
    Put64(s as nat)
  }

  /** Padding of `n` bytes: eight bytes of each value of the generator, the last ones cut short. */
  function Pad(n: nat, s: bv64): (b: seq<Byte>)
    ensures |b| == n
  {
    if n == 0 then [] else
      var t := Mix64(s);
      if n < 8 then WordBytes(t)[..n] else WordBytes(t) + Pad(n - 8, t)
  }

  function PadSeed(p: Plan, seqNo: nat): bv64
    requires seqNo < TWO64
  {
    p.seed ^ (seqNo as bv64)
  }

  /** A buffer with some bytes written over it. */
  function Over(was: seq<Byte>, from: nat, bytes: seq<Byte>): (r: seq<Byte>)
    requires from + |bytes| <= |was|
    ensures |r| == |was|
  {
    was[..from] + bytes + was[from + |bytes|..]
  }

  method FillPad(buf: array<Byte>, from: nat, n: nat, start: bv64)
    requires from + n <= buf.Length
    modifies buf
    ensures buf[..] == Over(old(buf[..]), from, Pad(n, start))
  {
    hide Mix64, WordBytes, Pad, Over;
    OverNothing(buf[..], from);
    var s := start;
    var i := 0;
    ghost var done: seq<Byte> := [];
    ghost var rest := Pad(n, start);
    assert done + rest == rest;
    while i < n
      invariant i < n ==> |done| == i
      invariant rest == (if i < n then Pad(n - i, s) else []) && |done| + |rest| == n
      invariant Pad(n, start) == done + rest
      invariant buf[..] == Over(old(buf[..]), from, done)
      decreases n - i
    {
      PadNext(n - i, s);
      s := Mix64(s);
      var chunk := if n - i < 8 then n - i else 8;
      var word := WordBytes(s)[..chunk];
      CopyIn(buf, from + i, word);
      rest := if n - i <= 8 then [] else Pad(n - i - 8, s);
      PadSplit(n, start, done, word, rest);
      Spliced(old(buf[..]), from, done, word);
      done := done + word;
      i := i + 8;
    }
    assert done + [] == done;
  }

  /** The generator run `n` times. */
  function Mixed(s: bv64, n: nat): bv64
    decreases n
  {
    if n == 0 then s else Mixed(Mix64(s), n - 1)
  }

  /** Byte `k` of the padding is byte `k` modulo eight of the generator's value number `k / 8`, counted from
      its first, whatever the length. */
  lemma {:induction false} PadAt(n: nat, s: bv64, k: nat)
    requires k < n
    ensures Pad(n, s)[k] == WordBytes(Mixed(s, k / 8 + 1))[k % 8]
    decreases n
  {
    hide Mix64, WordBytes;
    var t := Mix64(s);
    if k < 8 {
      assert Mixed(s, 1) == Mixed(t, 0);
    } else {
      PadAt(n - 8, t, k - 8);
      assert Mixed(s, k / 8 + 1) == Mixed(t, k / 8);
    }
  }

  lemma PadNext(n: nat, s: bv64)
    requires n > 0
    ensures var t := Mix64(s);
      Pad(n, s) == WordBytes(t)[..if n < 8 then n else 8] + if n <= 8 then [] else Pad(n - 8, t)
  {
    hide Mix64, WordBytes;
    var t := Mix64(s);
    assert WordBytes(t)[..8] == WordBytes(t);
    if n == 8 { assert Pad(0, t) == []; }
  }

  lemma PadSplit(n: nat, s: bv64, done: seq<Byte>, word: seq<Byte>, rest: seq<Byte>)
    requires Pad(n, s) == done + (word + rest)
    ensures Pad(n, s) == (done + word) + rest
  {
    assert done + (word + rest) == (done + word) + rest;
  }

  lemma Spliced(was: seq<Byte>, from: nat, done: seq<Byte>, word: seq<Byte>)
    requires from + |done| + |word| <= |was|
    ensures Over(Over(was, from, done), from + |done|, word) == Over(was, from, done + word)
  { }

  lemma OverNothing(was: seq<Byte>, from: nat)
    requires from <= |was|
    ensures Over(was, from, []) == was
  { }

  method CopyIn(buf: array<Byte>, from: nat, bytes: seq<Byte>)
    requires from + |bytes| <= buf.Length
    modifies buf
    ensures buf[..] == Over(old(buf[..]), from, bytes)
  {
    for k := 0 to |bytes|
      invariant buf[..from] == old(buf[..from])
      invariant buf[from..from + k] == bytes[..k]
      invariant buf[from + k..] == old(buf[from + k..])
    {
      buf[from + k] := bytes[k];
    }
    assert buf[..] == buf[..from] + buf[from..from + |bytes|] + buf[from + |bytes|..];
  }

  // ---- Packets ----------------------------------------------------------------------------

  /** The packet sent for a sequence number at a given time. */
  function Packet(p: Plan, seqNo: nat, sent: nat): (f: Frame)
    requires Usable(p) && seqNo < TWO64 && sent < TWO64
    ensures |f| == EchoSizeFor(p, seqNo)
  {
    var size := EchoSizeFor(p, seqNo);
    Put16(size) + Put16(ECHO) + Put64(seqNo) + Put64(sent) + Pad(size - ECHO_MIN, PadSeed(p, seqNo))
  }

  function SeqOf(f: Frame): (n: nat)
    requires |f| >= ECHO_MIN
    ensures n < TWO64
  {
    Get64Bound(f[4..12]);
    Get64(f[4..12])
  }

  lemma Get64Bound(b: seq<Byte>)
    requires |b| == 8
    ensures Get64(b) < TWO64
  {
    assert Pow256(8) == 256 * (256 * (256 * (256 * Pow256(4))));
    assert Pow256(4) == 256 * (256 * (256 * (256 * Pow256(0))));
    FromLeBound(b);
  }

  /** Size and padding are those generated for the packet's sequence number. */
  predicate Genuine(p: Plan, f: Frame)
    requires Usable(p) && |f| >= ECHO_MIN
  {
    |f| == EchoSizeFor(p, SeqOf(f)) && f[ECHO_MIN..] == Pad(|f| - ECHO_MIN, PadSeed(p, SeqOf(f)))
  }

  lemma PacketIsGenuine(p: Plan, seqNo: nat, sent: nat)
    requires Usable(p) && seqNo < TWO64 && sent < TWO64
    ensures var f := Packet(p, seqNo, sent);
      Genuine(p, f) && SeqOf(f) == seqNo && Framed(SERVER_MAX, f) && ServerOk(f) && DummyOk(f)
  {
    hide Mix64, Pad, Put64, Get64, EchoSizeFor;
    var f := Packet(p, seqNo, sent);
    Get64Put64(seqNo);
    assert f[4..12] == Put64(seqNo);
    assert f[ECHO_MIN..] == Pad(|f| - ECHO_MIN, PadSeed(p, seqNo));
  }

  /** Building the next packet in the send buffer. */
  method BuildEcho(p: Plan, buf: array<Byte>, seqNo: nat, sent: nat) returns (size: nat)
    requires Usable(p) && buf.Length == SERVER_MAX && seqNo < TWO64 && sent < TWO64
    modifies buf
    ensures size <= SERVER_MAX && buf[..size] == Packet(p, seqNo, sent)
  {
    hide Mix64, Pad, Put64;
    size := EchoSizeFor(p, seqNo);
    var head := Put16(size) + Put16(ECHO) + Put64(seqNo) + Put64(sent);
    CopyIn(buf, 0, head);
    assert buf[..ECHO_MIN] == head;
    if size > ECHO_MIN {
      FillPad(buf, ECHO_MIN, size - ECHO_MIN, PadSeed(p, seqNo));
    }
    assert size == ECHO_MIN ==> Pad(size - ECHO_MIN, PadSeed(p, seqNo)) == [];
  }

  // ---- The verifier -----------------------------------------------------------------------

  datatype Check = Check(awaited: nat, padErrors: nat, orderErrors: nat, late: nat)

  const CLEAN := Check(1, 0, 0, 0)

  function OnEcho(p: Plan, c: Check, f: Frame): Check
    requires Usable(p) && |f| >= ECHO_MIN
  {
    var c1 := if Genuine(p, f) then c else c.(padErrors := c.padErrors + 1);
    var n := SeqOf(f);
    if n == c.awaited then c1.(awaited := c.awaited + 1)
    else if n < c.awaited then c1.(late := c.late + 1)
    else c1.(orderErrors := c.orderErrors + 1, awaited := n + 1)
  }

  predicate Echoes(fs: seq<Frame>) { forall k :: 0 <= k < |fs| ==> |fs[k]| >= ECHO_MIN }

  function Verify(p: Plan, c: Check, fs: seq<Frame>): Check
    requires Usable(p) && Echoes(fs)
    decreases |fs|
  {
    if fs == [] then c else Verify(p, OnEcho(p, c, fs[0]), fs[1..])
  }

  /** The packets not counted late, by sequence number, in order of arrival. */
  function OnTime(awaited: nat, fs: seq<Frame>): seq<nat>
    requires Echoes(fs)
    decreases |fs|
  {
    if fs == [] then []
    else
      var n := SeqOf(fs[0]);
      if n < awaited then OnTime(awaited, fs[1..]) else [n] + OnTime(n + 1, fs[1..])
  }

  function Range(from: nat, to: nat): (r: seq<nat>)
    ensures |r| == (if from <= to then to - from else 0) && forall k :: 0 <= k < |r| ==> r[k] == from + k
    decreases if from <= to then to - from else 0
  {
    if from >= to then [] else [from] + Range(from + 1, to)
  }

  ghost predicate AllGenuine(p: Plan, fs: seq<Frame>)
    requires Usable(p) && Echoes(fs)
  {
    forall k :: 0 <= k < |fs| ==> Genuine(p, fs[k])
  }

  /** The verifier is exact: it flags no padding exactly when every packet is as generated, and no order
      error exactly when the packets that are not late are the expected ones one by one; it counts every
      packet as late or not. */
  lemma {:induction false} VerifierExact(p: Plan, c: Check, fs: seq<Frame>)
    requires Usable(p) && Echoes(fs)
    ensures var d := Verify(p, c, fs);
      && d.padErrors >= c.padErrors && d.orderErrors >= c.orderErrors && d.awaited >= c.awaited
      && (d.padErrors == c.padErrors <==> AllGenuine(p, fs))
      && (d.orderErrors == c.orderErrors <==> OnTime(c.awaited, fs) == Range(c.awaited, d.awaited))
      && d.late - c.late + |OnTime(c.awaited, fs)| == |fs|
      && |OnTime(c.awaited, fs)| <= d.awaited - c.awaited
    decreases |fs|
  {
    hide Genuine, Get64;
    if fs != [] {
      var f := fs[0];
      var c1 := OnEcho(p, c, f);
      VerifierExact(p, c1, fs[1..]);
      assert AllGenuine(p, fs) <==> Genuine(p, f) && AllGenuine(p, fs[1..]) by {
        assert forall k :: 0 <= k < |fs[1..]| ==> fs[1..][k] == fs[k + 1];
        assert forall k :: 0 < k < |fs| ==> fs[k] == fs[1..][k - 1];
      }
      var d := Verify(p, c, fs);
      var n := SeqOf(f);
      if n >= c.awaited {
        var rest := OnTime(n + 1, fs[1..]);
        assert OnTime(c.awaited, fs) == [n] + rest;
        if n == c.awaited {
          assert Range(n, d.awaited) == [n] + Range(n + 1, d.awaited);
          assert ([n] + rest)[1..] == rest && ([n] + Range(n + 1, d.awaited))[1..] == Range(n + 1, d.awaited);
        } else {
          assert d.orderErrors > c.orderErrors;
          assert Range(c.awaited, d.awaited)[0] == c.awaited;
        }
      }
    }
  }

  /** With no flag raised on a connection, the packets that are not late are 1 .. awaited-1 in order with
      no gap, and all are as generated. */
  lemma NoFlagMeansInOrder(p: Plan, fs: seq<Frame>)
    requires Usable(p) && Echoes(fs)
    ensures var d := Verify(p, CLEAN, fs);
      d.padErrors == 0 && d.orderErrors == 0 <==> AllGenuine(p, fs) && OnTime(1, fs) == Range(1, d.awaited)
  {
    VerifierExact(p, CLEAN, fs);
  }

  // ---- A lossless connection --------------------------------------------------------------

  /** The packets with sequence numbers `from` onwards, sent at the given times. */
  function Packets(p: Plan, from: nat, times: seq<nat>): (fs: seq<Frame>)
    requires Usable(p) && from + |times| < TWO64 && forall k :: 0 <= k < |times| ==> times[k] < TWO64
    ensures |fs| == |times|
    decreases |times|
  {
    if times == [] then [] else [Packet(p, from, times[0])] + Packets(p, from + 1, times[1..])
  }

  lemma {:induction false} PacketsAt(p: Plan, from: nat, times: seq<nat>, k: nat)
    requires Usable(p) && from + |times| < TWO64 && forall j :: 0 <= j < |times| ==> times[j] < TWO64
    requires k < |times|
    ensures Packets(p, from, times)[k] == Packet(p, from + k, times[k])
    decreases |times|
  {
    hide Packet, EchoSizeFor;
    if k > 0 { PacketsAt(p, from + 1, times[1..], k - 1); }
  }

  lemma {:induction false} InOrderIsClean(p: Plan, c: Check, from: nat, times: seq<nat>, fs: seq<Frame>)
    requires Usable(p) && from + |times| < TWO64 && forall k :: 0 <= k < |times| ==> times[k] < TWO64
    requires Prefix(fs, Packets(p, from, times)) && c.awaited == from
    ensures Echoes(fs)
    ensures Verify(p, c, fs) == c.(awaited := from + |fs|)
    decreases |fs|
  {
    hide Packet, Genuine, SeqOf, Mix64, EchoSizeFor, Put64, Pad;
    var all := Packets(p, from, times);
    forall k | 0 <= k < |fs| ensures |fs[k]| >= ECHO_MIN {
      assert fs[k] == all[..|fs|][k];
      PacketsAt(p, from, times, k);
    }
    if fs != [] {
      assert fs[0] == all[..|fs|][0] == Packet(p, from, times[0]);
      PacketIsGenuine(p, from, times[0]);
      assert all[1..] == Packets(p, from + 1, times[1..]);
      assert fs[1..] == all[1..][..|fs| - 1];
      InOrderIsClean(p, c.(awaited := from + 1), from + 1, times[1..], fs[1..]);
    }
  }

  /** The whole loop: the client sends packets 1..n, the server reads any part of that stream in any
      chunks and echoes the frames, the client reads any part of the echo in any chunks; then the verifier
      raises no flag, and once everything has come back it has seen all of them. */
  lemma EchoNeverFlags(p: Plan, times: seq<nat>, up: seq<seq<Byte>>, down: seq<seq<Byte>>)
    requires Usable(p) && 1 + |times| < TWO64 && forall k :: 0 <= k < |times| ==> times[k] < TWO64
    requires Prefix(Flat(up), Flat(Packets(p, 1, times)))
    requires Prefix(Flat(down), Flat(FeedAll(SERVER_MAX, ServerOk, FRESH, up).got))
    ensures var server, client := FeedAll(SERVER_MAX, ServerOk, FRESH, up), FeedAll(SERVER_MAX, DummyOk, FRESH, down);
      && !server.dead && !client.dead && Echoes(client.got)
      && Verify(p, CLEAN, client.got) == CLEAN.(awaited := 1 + |client.got|)
      && (Flat(up) == Flat(Packets(p, 1, times)) && Flat(down) == Flat(server.got) ==> |client.got| == |times|)
  {
    hide Packet, Genuine, Framed, ServerOk, DummyOk, FeedAll, Packets, Flat, Verify;
    var all := Packets(p, 1, times);
    PacketsAccepted(p, times);
    var server := FeedAll(SERVER_MAX, ServerOk, FRESH, up);
    Received(ServerOk, all, up);
    forall k | 0 <= k < |server.got| ensures Framed(SERVER_MAX, server.got[k]) && DummyOk(server.got[k]) {
      assert server.got[k] == all[k];
    }
    Received(DummyOk, server.got, down);
    var client := FeedAll(SERVER_MAX, DummyOk, FRESH, down);
    PrefixTrans(client.got, server.got, all);
    InOrderIsClean(p, CLEAN, 1, times, client.got);
  }

  lemma PacketsAccepted(p: Plan, times: seq<nat>)
    requires Usable(p) && 1 + |times| < TWO64 && forall k :: 0 <= k < |times| ==> times[k] < TWO64
    ensures forall k :: 0 <= k < |Packets(p, 1, times)| ==>
      var f := Packets(p, 1, times)[k]; Framed(SERVER_MAX, f) && ServerOk(f) && DummyOk(f)
  {
    hide Packet, Genuine, Framed, ServerOk, DummyOk, Packets;
    var all := Packets(p, 1, times);
    forall k | 0 <= k < |all| ensures Framed(SERVER_MAX, all[k]) && ServerOk(all[k]) && DummyOk(all[k]) {
      PacketsAt(p, 1, times, k);
      PacketIsGenuine(p, 1 + k, times[k]);
    }
  }

  /** Reading a prefix of a stream of accepted messages, in any chunks. */
  lemma Received(ok: Frame -> bool, log: seq<Frame>, chunks: seq<seq<Byte>>)
    requires forall k :: 0 <= k < |log| ==> Framed(SERVER_MAX, log[k]) && ok(log[k])
    requires Prefix(Flat(chunks), Flat(log))
    ensures var r := FeedAll(SERVER_MAX, ok, FRESH, chunks);
      !r.dead && Prefix(r.got, log) && (Flat(chunks) == Flat(log) ==> r.got == log)
  {
    PrefixParses(SERVER_MAX, log, Flat(chunks));
    GoodIff(SERVER_MAX, ok, Flat(chunks));
    var q := Parse(SERVER_MAX, AnyFrame, Flat(chunks));
    assert forall i :: 0 <= i < |q.frames| ==> q.frames[i] == log[i];
    ChunkIndependence(SERVER_MAX, ok, chunks);
  }
}
