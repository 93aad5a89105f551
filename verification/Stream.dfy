/** End to end: whatever the interleaving of producers, the partial writes and the chunks the reader
    sees, the client gets a prefix of the messages that were queued. */
module Stream {
  import opened Bytes
  import opened Framing
  import opened Wakeup

  /** Every reachable state: the page's reassembler, fed any chunks of any part of what the kernel took,
      has delivered a prefix of the messages accepted for this session, in order and byte for byte; with
      everything written and read it has delivered all of them. */
  lemma PageGetsPrefix(nets: seq<Net>, events: seq<Event>, k: nat, s: nat, chunks: seq<seq<Byte>>)
    requires IsRun(nets, events) && ByteInv(nets[0]) && k < |nets| && s < |nets[k].links|
    requires forall i :: 0 <= i < |nets[k].links[s].log| ==> Framed(SERVER_MAX, nets[k].links[s].log[i])
    requires Prefix(Flat(chunks), nets[k].links[s].written)
    ensures var l, g := nets[k].links[s], PushAll(BLANK, chunks);
      && Prefix(g.got, l.log)
      && (l.queue == [] && Flat(chunks) == l.written ==> g.got == l.log && g.acc == [])
  {
    RunStreams(nets, events, k);
    var l := nets[k].links[s];
    assert StreamOk(l);
    WrittenIsPrefix(l, Flat(chunks));
    PrefixParses(SERVER_MAX, l.log, Flat(chunks));
    WiderLimit(SERVER_MAX, PAGE_MAX, Flat(chunks));
    assert [] + Flat(chunks) == Flat(chunks);
    TamePushes(BLANK, [], chunks);
  }

  /** The same for the load client, as long as it accepts the messages. */
  lemma DummyGetsPrefix(nets: seq<Net>, events: seq<Event>, k: nat, s: nat, chunks: seq<seq<Byte>>)
    requires IsRun(nets, events) && ByteInv(nets[0]) && k < |nets| && s < |nets[k].links|
    requires forall i :: 0 <= i < |nets[k].links[s].log| ==>
      Framed(SERVER_MAX, nets[k].links[s].log[i]) && DummyOk(nets[k].links[s].log[i])
    requires Prefix(Flat(chunks), nets[k].links[s].written)
    ensures var l, r := nets[k].links[s], FeedAll(SERVER_MAX, DummyOk, FRESH, chunks);
      && !r.dead && Prefix(r.got, l.log)
      && (l.queue == [] && Flat(chunks) == l.written ==> r.got == l.log && r.acc == [])
  {
    RunStreams(nets, events, k);
    var l := nets[k].links[s];
    assert StreamOk(l);
    WrittenIsPrefix(l, Flat(chunks));
    PrefixParses(SERVER_MAX, l.log, Flat(chunks));
    GoodIff(SERVER_MAX, DummyOk, Flat(chunks));
    var q := Parse(SERVER_MAX, AnyFrame, Flat(chunks));
    assert forall i :: 0 <= i < |q.frames| ==> q.frames[i] == l.log[i];
    ChunkIndependence(SERVER_MAX, DummyOk, chunks);
  }

  lemma WrittenIsPrefix(l: Link, w: seq<Byte>)
    requires StreamOk(l) && Prefix(w, l.written)
    ensures Prefix(w, Flat(l.log))
    ensures l.queue == [] && w == l.written ==> w == Flat(l.log)
  {
    assert (l.written + l.queue)[..|w|] == l.written[..|w|];
    if l.queue == [] { assert l.written + [] == l.written; }
  }

  /** An echoed frame is a message again: it is whole and within bounds. */
  lemma EchoIsFramed(b: seq<Byte>, i: nat)
    requires i < |Parse(SERVER_MAX, ServerOk, b).frames|
    ensures Framed(SERVER_MAX, Parse(SERVER_MAX, ServerOk, b).frames[i])
  {
    ParseMeans(SERVER_MAX, ServerOk, b);
  }
}
