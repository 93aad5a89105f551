/** Length-prefixed framing: what a byte stream means, and the three receivers that take it apart
    chunk by chunk. */
module Framing {
  import opened Bytes

  const HEADER: nat := 4
  const SERVER_MAX: nat := 1024
  const PAGE_MAX: nat := 4096
  const RECV_RING: nat := 8192
  const DUMMY_BUF: nat := 4096

  type Frame = seq<Byte>

  function SizeAt(b: seq<Byte>): nat
    requires |b| >= HEADER
  {
    Le16(b[0], b[1])
  }

  function TypeAt(b: seq<Byte>): nat
    requires |b| >= HEADER
  {
    Le16(b[2], b[3])
  }

  predicate BadHeader(max: nat, b: seq<Byte>)
    requires |b| >= HEADER
  {
    SizeAt(b) < HEADER || SizeAt(b) > max
  }

  /** A complete message as it goes on the wire. */
  predicate Framed(max: nat, m: Frame) {
    |m| >= HEADER && SizeAt(m) == |m| && |m| <= max
  }

  /** Frames in order; what is left; whether the stream was given up, and if so `rest` starts with the
      offending bytes. */
  datatype Parsed = Parsed(frames: seq<Frame>, rest: seq<Byte>, bad: bool)

  /** What a whole byte string means.  `ok` says which complete frames the receiver accepts. */
  function Parse(max: nat, ok: Frame -> bool, b: seq<Byte>): Parsed
    decreases |b|
  {
    if |b| < HEADER then Parsed([], b, false)
    else if BadHeader(max, b) then Parsed([], b, true)
    else if |b| < SizeAt(b) then Parsed([], b, false)
    else if !ok(b[..SizeAt(b)]) then Parsed([], b, true)
    else
      var p := Parse(max, ok, b[SizeAt(b)..]);
      p.(frames := [b[..SizeAt(b)]] + p.frames)
  }

  function AnyFrame(f: Frame): bool { true }

  function Joined(p: Parsed, q: Parsed): Parsed { Parsed(p.frames + q.frames, q.rest, q.bad) }

  /** The string starts with a complete frame. */
  predicate Ready(max: nat, b: seq<Byte>) {
    |b| >= HEADER && !BadHeader(max, b) && |b| >= SizeAt(b)
  }

  function Head(max: nat, b: seq<Byte>): (f: Frame)
    requires Ready(max, b)
    ensures |f| == SizeAt(b) >= HEADER
  {
    b[..SizeAt(b)]
  }

  function Tail(max: nat, b: seq<Byte>): (t: seq<Byte>)
    requires Ready(max, b)
    ensures |t| < |b|
  {
    b[SizeAt(b)..]
  }

  lemma ParseHead(max: nat, ok: Frame -> bool, b: seq<Byte>)
    requires Ready(max, b)
    ensures Parse(max, ok, b) ==
      if ok(Head(max, b)) then
        Parse(max, ok, Tail(max, b)).(frames := [Head(max, b)] + Parse(max, ok, Tail(max, b)).frames)
      else Parsed([], b, true)
  { }

  lemma ParseStop(max: nat, ok: Frame -> bool, b: seq<Byte>)
    requires !Ready(max, b)
    ensures Parse(max, ok, b) == Parsed([], b, |b| >= HEADER && BadHeader(max, b))
  { }

  lemma HeadOf(max: nat, a: seq<Byte>, b: seq<Byte>)
    requires Ready(max, a)
    ensures Ready(max, a + b) && Head(max, a + b) == Head(max, a) && Tail(max, a + b) == Tail(max, a) + b
    ensures Head(max, a) + Tail(max, a) == a && Framed(max, Head(max, a))
  {
    hide Le16;
    assert SizeAt(a + b) == SizeAt(a) == SizeAt(a[..SizeAt(a)]);
  }

  predicate ReadsOn(max: nat, ok: Frame -> bool, a: seq<Byte>, b: seq<Byte>) {
    var p := Parse(max, ok, a);
    Parse(max, ok, a + b) ==
      if p.bad then p.(rest := p.rest + b) else Joined(p, Parse(max, ok, p.rest + b))
  }

  lemma ReadsOnStart(max: nat, ok: Frame -> bool, a: seq<Byte>, b: seq<Byte>)
    requires !Ready(max, a)
    ensures ReadsOn(max, ok, a, b)
  {
    hide Le16;
    if |a| >= HEADER {
      assert SizeAt(a + b) == SizeAt(a);
      if BadHeader(max, a) { assert BadHeader(max, a + b); }
    }
    var p := Parse(max, ok, a);
    assert p == Parsed([], a, p.bad);
    assert [] + Parse(max, ok, a + b).frames == Parse(max, ok, a + b).frames;
  }

  function Led(f: Frame, p: Parsed): Parsed { p.(frames := [f] + p.frames) }

  lemma LedJoined(f: Frame, p: Parsed, q: Parsed)
    ensures Joined(Led(f, p), q) == Led(f, Joined(p, q))
  {
    assert [f] + (p.frames + q.frames) == ([f] + p.frames) + q.frames;
  }

  lemma ReadsOnFrame(max: nat, ok: Frame -> bool, a: seq<Byte>, b: seq<Byte>)
    requires Ready(max, a) && (ok(Head(max, a)) ==> ReadsOn(max, ok, Tail(max, a), b))
    ensures ReadsOn(max, ok, a, b)
  {
    hide Parse, Ready, Head, Tail, Joined, Le16, SizeAt;
    HeadOf(max, a, b);
    ParseHead(max, ok, a);
    ParseHead(max, ok, a + b);
    if ok(Head(max, a)) {
      var q := Parse(max, ok, Tail(max, a));
      var r := Parse(max, ok, q.rest + b);
      LedJoined(Head(max, a), q, r);
      assert Parse(max, ok, a) == Led(Head(max, a), q);
      assert Parse(max, ok, a + b) == Led(Head(max, a), Parse(max, ok, Tail(max, a) + b));
    }
  }

  /** Reading on: what is left over, continued with later bytes, gives what the whole string gives. */
  lemma {:induction false} ParseOn(max: nat, ok: Frame -> bool, a: seq<Byte>, b: seq<Byte>)
    ensures ReadsOn(max, ok, a, b)
    decreases |a|
  {
    hide ReadsOn;
    if !Ready(max, a) {
      ReadsOnStart(max, ok, a, b);
    } else {
      ParseOn(max, ok, Tail(max, a), b);
      ReadsOnFrame(max, ok, a, b);
    }
  }

  /** What a parse result says about the bytes: frames and leftover are exactly the bytes; every frame
      is complete, within bounds and accepted; the leftover of a good stream is an incomplete frame. */
  predicate Means(max: nat, ok: Frame -> bool, b: seq<Byte>, p: Parsed) {
    && Flat(p.frames) + p.rest == b
    && (forall k :: 0 <= k < |p.frames| ==> Framed(max, p.frames[k]) && ok(p.frames[k]))
    && (!p.bad ==> |p.rest| < max && (|p.rest| < HEADER || |p.rest| < SizeAt(p.rest) <= max))
    && (p.bad ==> |p.rest| >= HEADER)
  }

  lemma MeansMore(max: nat, ok: Frame -> bool, f: Frame, b: seq<Byte>, p: Parsed)
    requires Means(max, ok, b, p) && Framed(max, f) && ok(f)
    ensures Means(max, ok, f + b, p.(frames := [f] + p.frames))
  {
    hide Framed, Le16;
    assert ([f] + p.frames)[1..] == p.frames;
    assert (f + Flat(p.frames)) + p.rest == f + (Flat(p.frames) + p.rest);
  }

  lemma MeansNone(max: nat, ok: Frame -> bool, b: seq<Byte>)
    requires max >= HEADER && (!Ready(max, b) || !ok(Head(max, b)))
    ensures Means(max, ok, b, Parse(max, ok, b))
  {
    hide Le16;
    assert Parse(max, ok, b).frames == [] && Parse(max, ok, b).rest == b;
    assert Flat([]) + b == b;
  }

  lemma {:induction false} ParseMeans(max: nat, ok: Frame -> bool, b: seq<Byte>)
    requires max >= HEADER
    ensures Means(max, ok, b, Parse(max, ok, b))
    decreases |b|
  {
    hide Means;
    if Ready(max, b) && ok(Head(max, b)) {
      HeadOf(max, b, []);
      ParseHead(max, ok, b);
      ParseMeans(max, ok, Tail(max, b));
      MeansMore(max, ok, Head(max, b), Tail(max, b), Parse(max, ok, Tail(max, b)));
    } else {
      MeansNone(max, ok, b);
    }
  }

  // ---- A receiver that gives up for good --------------------------------------------------

  /** The server and the load client: once a stream is bad the connection is closed. */
  datatype Reader = Reader(acc: seq<Byte>, dead: bool, got: seq<Frame>)

  const FRESH := Reader([], false, [])

  function Feed(max: nat, ok: Frame -> bool, r: Reader, chunk: seq<Byte>): Reader {
    if r.dead then r
    else
      var p := Parse(max, ok, r.acc + chunk);
      Reader(p.rest, p.bad, r.got + p.frames)
  }

  function FeedAll(max: nat, ok: Frame -> bool, r: Reader, chunks: seq<seq<Byte>>): Reader
    decreases |chunks|
  {
    if chunks == [] then r else FeedAll(max, ok, Feed(max, ok, r, chunks[0]), chunks[1..])
  }

  /** The reader stands where reading `b` in one piece would have left it. */
  predicate ReadAs(max: nat, ok: Frame -> bool, r: Reader, b: seq<Byte>) {
    var p := Parse(max, ok, b);
    r.got == p.frames && r.dead == p.bad && (!r.dead ==> r.acc == p.rest)
  }

  lemma {:induction false} FeedsAs(max: nat, ok: Frame -> bool, r: Reader, b: seq<Byte>, chunks: seq<seq<Byte>>)
    requires ReadAs(max, ok, r, b)
    ensures ReadAs(max, ok, FeedAll(max, ok, r, chunks), b + Flat(chunks))
    decreases |chunks|
  {
    if chunks == [] {
      assert b + [] == b;
    } else {
      ParseOn(max, ok, b, chunks[0]);
      FeedsAs(max, ok, Feed(max, ok, r, chunks[0]), b + chunks[0], chunks[1..]);
      assert b + chunks[0] + Flat(chunks[1..]) == b + (chunks[0] + Flat(chunks[1..]));
    }
  }

  /** Frames and the decision to give up depend only on the bytes, not on how they were cut. */
  lemma ChunkIndependence(max: nat, ok: Frame -> bool, chunks: seq<seq<Byte>>)
    ensures var r, p := FeedAll(max, ok, FRESH, chunks), Parse(max, ok, Flat(chunks));
      r.got == p.frames && r.dead == p.bad && (!r.dead ==> r.acc == p.rest)
  {
    FeedsAs(max, ok, FRESH, [], chunks);
    assert [] + Flat(chunks) == Flat(chunks);
  }

  /** Between reads less than one maximal frame is left over, so neither the server's receive ring nor
      the load client's buffer is ever full when it reads again. */
  lemma BuffersNeverFill(ok: Frame -> bool, chunks: seq<seq<Byte>>)
    ensures var r := FeedAll(SERVER_MAX, ok, FRESH, chunks);
      !r.dead ==> |r.acc| < SERVER_MAX && |r.acc| < RECV_RING - 1 && |r.acc| < DUMMY_BUF
  {
    ChunkIndependence(SERVER_MAX, ok, chunks);
    ParseMeans(SERVER_MAX, ok, Flat(chunks));
  }

  // ---- Which frames are accepted ----------------------------------------------------------

  const ECHO: nat := 1
  const C2S_JOIN: nat := 10
  const C2S_INPUT: nat := 11
  const C2S_PING: nat := 12
  const S2C_JOIN_FAIL: nat := 101
  const ECHO_MIN: nat := 20

  /** The server disconnects on an unknown type and on a wrong length. */
  function ServerOk(f: Frame): bool {
    |f| >= HEADER &&
    (TypeAt(f) == ECHO || (TypeAt(f) == C2S_JOIN && |f| == 6) || (TypeAt(f) == C2S_INPUT && |f| == 12) ||
     (TypeAt(f) == C2S_PING && |f| == 12))
  }

  /** The load client gives up on an echo shorter than its head and on a refused join. */
  function DummyOk(f: Frame): bool {
    |f| >= HEADER && !(TypeAt(f) == ECHO && |f| < ECHO_MIN) && TypeAt(f) != S2C_JOIN_FAIL
  }

  /** A stream is good for a receiver exactly when its headers are good and it accepts every frame;
      then what it delivers does not depend on which receiver it is. */
  lemma {:induction false} GoodIff(max: nat, ok: Frame -> bool, b: seq<Byte>)
    ensures var p, q := Parse(max, ok, b), Parse(max, AnyFrame, b);
      && (!p.bad <==> !q.bad && forall k :: 0 <= k < |q.frames| ==> ok(q.frames[k]))
      && (!p.bad ==> p == q)
    decreases |b|
  {
    if |b| >= HEADER && !BadHeader(max, b) && |b| >= SizeAt(b) {
      var n := SizeAt(b);
      GoodIff(max, ok, b[n..]);
      var q, q1 := Parse(max, AnyFrame, b), Parse(max, AnyFrame, b[n..]);
      assert q.frames[0] == b[..n];
      assert forall k :: 0 <= k < |q1.frames| ==> q1.frames[k] == q.frames[k + 1];
    }
  }

  lemma {:induction false} WiderLimit(max: nat, wide: nat, b: seq<Byte>)
    requires max <= wide && !Parse(max, AnyFrame, b).bad
    ensures Parse(wide, AnyFrame, b) == Parse(max, AnyFrame, b)
    decreases |b|
  {
    if |b| >= HEADER && !BadHeader(max, b) && |b| >= SizeAt(b) {
      WiderLimit(max, wide, b[SizeAt(b)..]);
    }
  }

  /** On a stream the server accepts, the load client's parser (if it accepts the frames too) and the
      page's reassembler deliver the same frames and keep the same leftover. */
  lemma ReceiversAgree(b: seq<Byte>)
    requires !Parse(SERVER_MAX, ServerOk, b).bad
    ensures Parse(PAGE_MAX, AnyFrame, b) == Parse(SERVER_MAX, ServerOk, b)
    ensures !Parse(SERVER_MAX, DummyOk, b).bad ==> Parse(SERVER_MAX, DummyOk, b) == Parse(SERVER_MAX, ServerOk, b)
  {
    GoodIff(SERVER_MAX, ServerOk, b);
    GoodIff(SERVER_MAX, DummyOk, b);
    WiderLimit(SERVER_MAX, PAGE_MAX, b);
  }

  /** Reading any prefix of a stream of whole messages gives a prefix of the messages, and reading all
      of it gives all of them. */
  lemma {:induction false} PrefixParses(max: nat, log: seq<Frame>, w: seq<Byte>)
    requires forall k :: 0 <= k < |log| ==> Framed(max, log[k])
    requires Prefix(w, Flat(log))
    ensures var p := Parse(max, AnyFrame, w);
      && !p.bad && Prefix(p.frames, log)
      && (w == Flat(log) ==> p.frames == log && p.rest == [])
    decreases |log|
  {
    hide Le16;
    if log != [] {
      var m, later := log[0], Flat(log[1..]);
      if |w| < |m| {
        assert w == (m + later)[..|w|] == m[..|w|];
        assert !Ready(max, w);
        ParseStop(max, AnyFrame, w);
      } else {
        var u := w[|m|..];
        assert w == m + u && Prefix(u, later) by {
          assert w == (m + later)[..|w|];
        }
        assert SizeAt(w) == SizeAt(m) && Head(max, w) == m && Tail(max, w) == u;
        ParseHead(max, AnyFrame, w);
        PrefixParses(max, log[1..], u);
        FirstThenRest(log, m, Parse(max, AnyFrame, u).frames);
      }
    }
  }

  lemma FirstThenRest(log: seq<Frame>, m: Frame, frames: seq<Frame>)
    requires log != [] && log[0] == m && Prefix(frames, log[1..])
    ensures Prefix([m] + frames, log)
    ensures frames == log[1..] ==> [m] + frames == log
  {
    assert log == [m] + log[1..];
    assert log[..1 + |frames|] == [m] + log[1..][..|frames|];
  }

  // ---- The page's reassembler -------------------------------------------------------------

  /** On a bad header the page drops everything it has and goes on with the next chunk. */
  datatype Page = Page(acc: seq<Byte>, got: seq<Frame>)

  const BLANK := Page([], [])

  function Push(g: Page, chunk: seq<Byte>): Page {
    var p := Parse(PAGE_MAX, AnyFrame, g.acc + chunk);
    Page(if p.bad then [] else p.rest, g.got + p.frames)
  }

  function PushAll(g: Page, chunks: seq<seq<Byte>>): Page
    decreases |chunks|
  {
    if chunks == [] then g else PushAll(Push(g, chunks[0]), chunks[1..])
  }

  function Whole(b: seq<Byte>): Page {
    var p := Parse(PAGE_MAX, AnyFrame, b);
    Page(if p.bad then [] else p.rest, p.frames)
  }

  /** The stream is good, or goes bad only with its very last byte. */
  predicate Tame(b: seq<Byte>) {
    var p := Parse(PAGE_MAX, AnyFrame, b);
    p.bad ==> |p.rest| == HEADER
  }

  lemma TamePrefix(a: seq<Byte>, b: seq<Byte>)
    requires Tame(a + b)
    ensures Tame(a) && (Parse(PAGE_MAX, AnyFrame, a).bad ==> b == [])
  {
    ParseOn(PAGE_MAX, AnyFrame, a, b);
    ParseMeans(PAGE_MAX, AnyFrame, a);
  }

  lemma {:induction false} TamePushes(g: Page, a: seq<Byte>, chunks: seq<seq<Byte>>)
    requires Tame(a + Flat(chunks)) && g == Whole(a)
    ensures PushAll(g, chunks) == Whole(a + Flat(chunks))
    decreases |chunks|
  {
    if chunks == [] {
      assert a + [] == a;
    } else {
      var c, rest := chunks[0], Flat(chunks[1..]);
      assert a + (c + rest) == (a + c) + rest;
      TamePrefix(a + c, rest);
      TamePrefix(a, c);
      ParseOn(PAGE_MAX, AnyFrame, a, c);
      if Parse(PAGE_MAX, AnyFrame, a).bad {
        assert c == [] && a + c == a && [] + c == c && g.got + [] == g.got;
      }
      assert Push(g, c) == Whole(a + c);
      TamePushes(Push(g, c), a + c, chunks[1..]);
    }
  }

  lemma {:induction false} BadEarlier(b: seq<Byte>)
    requires Parse(PAGE_MAX, AnyFrame, b).bad && |Parse(PAGE_MAX, AnyFrame, b).rest| > HEADER
    ensures |b| > HEADER && Parse(PAGE_MAX, AnyFrame, b[..|b| - 1]).bad
    decreases |b|
  {
    var a := b[..|b| - 1];
    if !BadHeader(PAGE_MAX, b) {
      var n := SizeAt(b);
      ParseMeans(PAGE_MAX, AnyFrame, b[n..]);
      BadEarlier(b[n..]);
      assert a[..n] == b[..n] && a[n..] == b[n..][..|b[n..]| - 1];
    }
  }

  lemma FlatTwo(a: seq<Byte>, b: seq<Byte>)
    ensures Flat([a, b]) == a + b
  {
    assert [a, b] == [a] + [b];
    FlatMore([a], b);
    FlatMore([], a);
    assert [] + [a] == [a] && [] + a == a;
  }

  /** The page's result is independent of chunking exactly for such streams. */
  lemma PageChunkIndependentIff(b: seq<Byte>)
    ensures (forall chunks :: Flat(chunks) == b ==> PushAll(BLANK, chunks) == Whole(b)) <==> Tame(b)
  {
    if Tame(b) {
      forall chunks | Flat(chunks) == b ensures PushAll(BLANK, chunks) == Whole(b) {
        assert [] + b == b;
        TamePushes(BLANK, [], chunks);
      }
    } else {
      CutBeforeLast(b);
    }
  }

  lemma CutBeforeLast(b: seq<Byte>)
    requires !Tame(b)
    ensures exists chunks :: Flat(chunks) == b && PushAll(BLANK, chunks) != Whole(b)
  {
    ParseMeans(PAGE_MAX, AnyFrame, b);
    BadEarlier(b);
    var a, c := b[..|b| - 1], b[|b| - 1..];
    FlatTwo(a, c);
    assert a + c == b && [] + a == a && [] + c == c;
    var g := Push(BLANK, a);
    assert g.acc == [];
    assert PushAll(BLANK, [a, c]) == Push(g, c) by {
      assert [a, c][1..] == [c] && [c][1..] == [];
      assert PushAll(BLANK, [a, c]) == PushAll(g, [c]) == PushAll(Push(g, c), []);
    }
    assert Push(g, c).acc == c;
  }
}
