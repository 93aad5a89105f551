/** The three receivers as they run: the server's ring, the load client's fixed buffer, the page's
    accumulator.  Each is proved to do what `Framing` says a byte string means. */
module Receivers {
  import opened Bytes
  import opened Framing

  // ---- Server -----------------------------------------------------------------------------

  /** What one read of the socket returns. */
  datatype ReadResult = Data(bytes: seq<Byte>) | PeerClosed | WouldBlock | Interrupted | Failed

  /** Everything the reads deliver before the socket has no more to give. */
  function Delivered(results: seq<ReadResult>): seq<seq<Byte>> {
    if results == [] || results[0].WouldBlock? || results[0].PeerClosed? || results[0].Failed? then []
    else if results[0].Interrupted? then Delivered(results[1..])
    else [results[0].bytes] + Delivered(results[1..])
  }

  /** The socket reports its end or an error before it would block. */
  predicate Ends(results: seq<ReadResult>) {
    if results == [] || results[0].WouldBlock? then false
    else if results[0].PeerClosed? || results[0].Failed? then true
    else Ends(results[1..])
  }

  /** After such an answer the server reads again. */
  predicate GoesOn(r: ReadResult) { r.Data? || r.Interrupted? }

  predicate AllGoOn(rs: seq<ReadResult>, k: nat) { k <= |rs| && forall j :: 0 <= j < k ==> GoesOn(rs[j]) }

  /** Answer `k` is the peer's end or an error, and every earlier one was data or an interruption. */
  predicate EndsAt(rs: seq<ReadResult>, k: nat) {
    k < |rs| && (rs[k].PeerClosed? || rs[k].Failed?) && AllGoOn(rs, k)
  }

  lemma OneLater(rs: seq<ReadResult>, k: nat)
    requires rs != [] && GoesOn(rs[0])
    ensures EndsAt(rs[1..], k) <==> EndsAt(rs, k + 1)
  {
    forall j | 0 < j < |rs| ensures rs[1..][j - 1] == rs[j] { }
    if EndsAt(rs, k + 1) {
      assert forall j :: 0 <= j < k ==> rs[1..][j] == rs[j + 1];
    }
  }

  /** The server takes a connection for ended exactly when the first answer other than data and interruptions
      is the peer's end or an error. */
  lemma {:induction false} EndsIff(rs: seq<ReadResult>)
    ensures Ends(rs) <==> exists k: nat :: EndsAt(rs, k)
  {
    if rs != [] {
      EndsIff(rs[1..]);
      if GoesOn(rs[0]) {
        if Ends(rs) {
          var k: nat :| EndsAt(rs[1..], k);
          OneLater(rs, k);
        }
        if k: nat :| EndsAt(rs, k) {
          OneLater(rs, k - 1);
        }
      } else if Ends(rs) {
        assert EndsAt(rs, 0);
      }
    }
  }

  /** How many of the answers are data. */
  function DataIn(rs: seq<ReadResult>): nat {
    if rs == [] then 0 else (if rs[0].Data? then 1 else 0) + DataIn(rs[1..])
  }

  /** Delivered are exactly the data before the first answer `n` of another kind, in order, interruptions
      skipped. */
  lemma {:induction false} DeliveredIs(rs: seq<ReadResult>, n: nat)
    requires n <= |rs| && (forall j :: 0 <= j < n ==> GoesOn(rs[j])) && (n < |rs| ==> !GoesOn(rs[n]))
    ensures |Delivered(rs)| == DataIn(rs[..n])
    ensures forall j :: 0 <= j < n && rs[j].Data? ==>
      DataIn(rs[..j]) < |Delivered(rs)| && Delivered(rs)[DataIn(rs[..j])] == rs[j].bytes
  {
    if n > 0 {
      var rest := rs[1..];
      DeliveredIs(rest, n - 1);
      assert rs[..n][1..] == rest[..n - 1];
      forall j | 0 <= j < n && rs[j].Data?
        ensures DataIn(rs[..j]) < |Delivered(rs)| && Delivered(rs)[DataIn(rs[..j])] == rs[j].bytes
      {
        if j > 0 {
          assert rs[..j][1..] == rest[..j - 1] && rest[j - 1] == rs[j];
        }
      }
    }
  }

  class ServerReceiver {
    var recvQ: seq<Byte>
    var dead: bool
    var got: seq<Frame>

    ghost function View(): Reader
      reads this
    {
      Reader(recvQ, dead, got)
    }

    /** The ring has room again whenever the server goes back to reading. */
    ghost predicate Valid()
      reads this
    {
      !dead ==> |recvQ| < SERVER_MAX
    }

    constructor ()
      ensures Valid() && View() == FRESH
    {
      recvQ, dead, got := [], false, [];
    }

    method ParseFrames()
      requires !dead
      modifies this
      ensures var p := Parse(SERVER_MAX, ServerOk, old(recvQ));
        got == old(got) + p.frames && dead == p.bad && (!dead ==> recvQ == p.rest)
    {
      ghost var whole := Parse(SERVER_MAX, ServerOk, recvQ);
      ghost var before := got;
      while |recvQ| >= HEADER
        invariant !dead
        invariant StillToCome(before, whole, got, Parse(SERVER_MAX, ServerOk, recvQ))
        decreases |recvQ|
      {
        var size := SizeAt(recvQ);
        if size < HEADER || size > SERVER_MAX {
          dead := true;
          return;
        }
        if |recvQ| < size {
          return;
        }
        var frame := recvQ[..size];
        ParseHead(SERVER_MAX, ServerOk, recvQ);
        if !ServerOk(frame) {
          dead := true;
          return;
        }
        recvQ := recvQ[size..];
        TakeFrame(before, whole, got, frame, Parse(SERVER_MAX, ServerOk, recvQ));
        got := got + [frame];
      }
    }

    /** Reading until the socket would block.  The branch for a full ring can not be taken. */
    method ReadSession(results: seq<ReadResult>)
      requires Valid() && !dead
      requires forall k :: 0 <= k < |results| && results[k].Data? ==> |results[k].bytes| > 0
      modifies this
      ensures Valid()
      ensures var r := FeedAll(SERVER_MAX, ServerOk, old(View()), Delivered(results));
        && got == r.got && (!dead ==> recvQ == r.acc)
        && (dead <==> r.dead || exists k: nat :: EndsAt(results, k))
    {
      EndsIff(results);
      ghost var start := View();
      for n := 0 to |results|
        invariant Valid() && !dead
        invariant FeedAll(SERVER_MAX, ServerOk, start, Delivered(results))
               == FeedAll(SERVER_MAX, ServerOk, View(), Delivered(results[n..]))
        invariant Ends(results) == Ends(results[n..])
      {
        if |recvQ| == RECV_RING - 1 {
          assert false;
        }
        ghost var left := results[n..];
        assert left[0] == results[n] && left[1..] == results[n + 1..];
        match results[n]
        case Data(bytes) =>
          ghost var was := View();
          ghost var later := Delivered(left[1..]);
          assert ([bytes] + later)[0] == bytes && ([bytes] + later)[1..] == later;
          recvQ := recvQ + bytes;
          ParseFrames();
          ParseMeans(SERVER_MAX, ServerOk, was.acc + bytes);
          assert Feed(SERVER_MAX, ServerOk, was, bytes).got == got;
          assert Feed(SERVER_MAX, ServerOk, was, bytes).dead == dead;
          if dead {
            DeadFeeds(Feed(SERVER_MAX, ServerOk, was, bytes), later);
            return;
          }
          assert View() == Feed(SERVER_MAX, ServerOk, was, bytes);
        case PeerClosed =>
          dead := true;
          return;
        case WouldBlock =>
          return;
        case Interrupted =>
        case Failed =>
          dead := true;
          return;
      }
      assert results[|results|..] == [];
    }
  }

  lemma {:induction false} DeadFeeds(r: Reader, chunks: seq<seq<Byte>>)
    requires r.dead
    ensures FeedAll(SERVER_MAX, ServerOk, r, chunks) == r
    decreases |chunks|
  {
    if chunks != [] { DeadFeeds(r, chunks[1..]); }
  }

  /** With the frames of `rest` still to come, what was there before and what has been taken make up
      the whole. */
  predicate StillToCome(before: seq<Frame>, whole: Parsed, got: seq<Frame>, rest: Parsed) {
    whole.rest == rest.rest && whole.bad == rest.bad && before + whole.frames == got + rest.frames
  }

  lemma TakeFrame(before: seq<Frame>, whole: Parsed, got: seq<Frame>, f: Frame, rest: Parsed)
    requires StillToCome(before, whole, got, Led(f, rest))
    ensures StillToCome(before, whole, got + [f], rest)
  {
    assert got + ([f] + rest.frames) == (got + [f]) + rest.frames;
  }

  lemma AllTaken(whole: Parsed, got: seq<Frame>, rest: Parsed)
    requires StillToCome([], whole, got, rest) && rest.frames == []
    ensures whole == Parsed(got, rest.rest, rest.bad)
  {
    assert [] + whole.frames == whole.frames && got + [] == got;
  }

  lemma FirstFrame(s: seq<Byte>, off: nat, n: nat)
    requires off <= n <= |s| && Ready(SERVER_MAX, s[off..n])
    ensures var size := SizeAt(s[off..n]);
      && off + size <= n
      && Parse(SERVER_MAX, DummyOk, s[off..n]) ==
         if DummyOk(s[off..off + size]) then Led(s[off..off + size], Parse(SERVER_MAX, DummyOk, s[off + size..n]))
         else Parsed([], s[off..n], true)
  {
    hide Parse, Le16;
    var size := SizeAt(s[off..n]);
    assert s[off..n][..size] == s[off..off + size] && s[off..n][size..] == s[off + size..n];
    ParseHead(SERVER_MAX, DummyOk, s[off..n]);
  }

  // ---- Load client ------------------------------------------------------------------------

  class DummyReceiver {
    const recvBuf: array<Byte>
    var recvLen: nat
    var dead: bool
    var got: seq<Frame>

    ghost predicate Valid()
      reads this, recvBuf
    {
      recvBuf.Length == DUMMY_BUF && recvLen <= DUMMY_BUF
    }

    ghost function Pending(): seq<Byte>
      requires Valid()
      reads this, recvBuf
    {
      recvBuf[..recvLen]
    }

    constructor ()
      ensures Valid() && fresh(recvBuf) && recvLen == 0 && !dead && got == []
    {
      recvBuf := new Byte[DUMMY_BUF](_ => 0);
      recvLen, dead, got := 0, false, [];
    }

    /** Frames are taken at growing offsets; what is left is moved to the front at the end. */
    method ParseFrames()
      requires Valid() && !dead
      modifies this, recvBuf
      ensures Valid()
      ensures var p := Parse(SERVER_MAX, DummyOk, old(Pending()));
        got == old(got) + p.frames && dead == p.bad && (!dead ==> Pending() == p.rest && recvLen < SERVER_MAX)
    {
      ghost var whole := Parse(SERVER_MAX, DummyOk, Pending());
      ParseMeans(SERVER_MAX, DummyOk, Pending());
      var off, taken, stop := Scan();
      got := got + taken;
      if stop {
        dead := true;
      } else if off > 0 {
        MoveDown(off);
      }
    }

    /** The frames at the front of the buffer, where they end, and whether the client gives up there. */
    method Scan() returns (off: nat, taken: seq<Frame>, stop: bool)
      requires Valid()
      ensures off <= recvLen
      ensures Parse(SERVER_MAX, DummyOk, Pending()) == Parsed(taken, recvBuf[off..recvLen], stop)
    {
      hide Parse, Le16, Head, Tail, Led;
      ghost var whole := Parse(SERVER_MAX, DummyOk, Pending());
      off, taken, stop := 0, [], false;
      while recvLen - off >= HEADER
        invariant off <= recvLen && !stop
        invariant StillToCome([], whole, taken, Parse(SERVER_MAX, DummyOk, recvBuf[off..recvLen]))
        decreases recvLen - off
      {
        ghost var here := recvBuf[off..recvLen];
        var size := Le16(recvBuf[off], recvBuf[off + 1]);
        assert size == SizeAt(here);
        if size < HEADER || size > SERVER_MAX {
          ParseStop(SERVER_MAX, DummyOk, here);
          AllTaken(whole, taken, Parse(SERVER_MAX, DummyOk, here));
          stop := true;
          return;
        }
        if recvLen - off < size {
          break;
        }
        var frame := recvBuf[off..off + size];
        FirstFrame(recvBuf[..], off, recvLen);
        if !DummyOk(frame) {
          AllTaken(whole, taken, Parse(SERVER_MAX, DummyOk, here));
          stop := true;
          return;
        }
        off := off + size;
        TakeFrame([], whole, taken, frame, Parse(SERVER_MAX, DummyOk, recvBuf[off..recvLen]));
        taken := taken + [frame];
      }
      ParseStop(SERVER_MAX, DummyOk, recvBuf[off..recvLen]);
      AllTaken(whole, taken, Parse(SERVER_MAX, DummyOk, recvBuf[off..recvLen]));
    }

    method MoveDown(off: nat)
      requires Valid() && off <= recvLen
      modifies this`recvLen, recvBuf
      ensures Valid() && Pending() == old(recvBuf[off..recvLen])
    {
      var n := recvLen - off;
      for i := 0 to n
        invariant recvBuf[..i] == old(recvBuf[off..off + i])
        invariant recvBuf[off + i..] == old(recvBuf[off + i..])
        invariant forall k :: i <= k < recvBuf.Length && k >= off + i ==> recvBuf[k] == old(recvBuf[k])
      {
        recvBuf[i] := recvBuf[off + i];
      }
      recvLen := n;
    }
  }

  // ---- Page -------------------------------------------------------------------------------

  class Reassembler {
    var acc: seq<Byte>
    var got: seq<Frame>

    ghost function View(): Page
      reads this
    {
      Page(acc, got)
    }

    constructor ()
      ensures View() == BLANK
    {
      acc, got := [], [];
    }

    method Push(chunk: seq<Byte>)
      modifies this
      ensures View() == Framing.Push(old(View()), chunk)
    {
      acc := acc + chunk;
      ghost var whole := Parse(PAGE_MAX, AnyFrame, acc);
      ghost var before := got;
      while |acc| >= HEADER
        invariant StillToCome(before, whole, got, Parse(PAGE_MAX, AnyFrame, acc))
        decreases |acc|
      {
        var size := SizeAt(acc);
        if size < HEADER || size > PAGE_MAX {
          acc := [];
          return;
        }
        if |acc| < size {
          return;
        }
        ParseHead(PAGE_MAX, AnyFrame, acc);
        TakeFrame(before, whole, got, acc[..size], Parse(PAGE_MAX, AnyFrame, acc[size..]));
        got := got + [acc[..size]];
        acc := acc[size..];
      }
    }
  }
}
