/** The outbound byte path between producers and the owning network worker: the dirty bitmap, the
    send queue, and the write interest registered with the kernel. */
module Wakeup {
  import opened Bytes

  /** A send ring of 16384 bytes keeps one byte free. */
  const SEND_ROOM: nat := 16383

  /** One session as this path sees it.  `log` is every message accepted into the queue and `written`
      every byte the kernel took; both are kept for the proofs only. */
  datatype Link = Link(live: bool, queue: seq<Byte>, armed: bool, marking: nat,
                       log: seq<seq<Byte>>, written: seq<Byte>)

  /** Where the owner is inside FlushSend. */
  datatype Phase =
    | Looking              // about to ask the queue what it can send
    | Writing(n: nat)      // about to write n contiguous bytes
    | Arming               // about to register write interest
    | Disarming            // queue seen empty, about to give write interest up

  datatype Owner =
    | Polling                          // between events
    | Draining                         // working off the word taken from the bitmap
    | Flushing(s: nat, phase: Phase, draining: bool)

  datatype Net = Net(links: seq<Link>, dirty: set<nat>, word: set<nat>, owner: Owner)

  datatype WriteResult = Wrote(n: nat) | WouldBlock | Interrupted | Broken

  predicate Fits(l: Link, m: seq<Byte>) { |l.queue| + |m| <= SEND_ROOM }

  function Enqueued(l: Link, m: seq<Byte>): Link
    requires Fits(l, m)
  {
    l.(queue := l.queue + m, log := l.log + [m])
  }

  datatype Event =
    | Produce(s: nat, m: seq<Byte>)    // a game worker queues a whole message
    | Mark(s: nat)                     // and then sets the dirty bit
    | Reply(s: nat, m: seq<Byte>)      // the owner queues a message and flushes
    | Writable(s: nat)                 // the kernel reports an armed session writable
    | Hangup(s: nat)                   // the owner disconnects a session
    | TakeWord(taken: set<nat>)        // the owner takes one word of the bitmap
    | NextBit(s: nat)                  // next set bit of the word
    | WordDone
    | Look(n: nat)                     // GetSendInfo, n contiguous bytes
    | Write(result: WriteResult)
    | Control(ok: bool)                // epoll_ctl

  predicate Valid(net: Net) {
    match net.owner
    case Flushing(s, phase, _) =>
      s < |net.links| && net.links[s].live && (phase.Writing? ==> 0 < phase.n <= |net.links[s].queue|)
    case _ => true
  }

  predicate IsLive(net: Net, s: nat) { s < |net.links| && net.links[s].live }

  predicate Enabled(net: Net, e: Event) {
    match e
    case Produce(s, m) => IsLive(net, s) && m != [] && Fits(net.links[s], m)
    case Mark(s) => s < |net.links| && net.links[s].marking > 0
    case Reply(s, m) => net.owner.Polling? && IsLive(net, s) && m != [] && Fits(net.links[s], m)
    case Writable(s) => net.owner.Polling? && IsLive(net, s) && net.links[s].armed
    case Hangup(s) => net.owner.Polling? && IsLive(net, s)
    case TakeWord(taken) => net.owner.Polling? && taken <= net.dirty
    case NextBit(s) => net.owner.Draining? && s in net.word
    case WordDone => net.owner.Draining? && net.word == {}
    case Look(n) =>
      net.owner.Flushing? && net.owner.phase.Looking? && net.owner.s < |net.links| &&
      n <= |net.links[net.owner.s].queue| && (n == 0 <==> net.links[net.owner.s].queue == [])
    case Write(result) =>
      net.owner.Flushing? && net.owner.phase.Writing? &&
      (result.Wrote? ==> 0 < result.n <= net.owner.phase.n)
    case Control(_) => net.owner.Flushing? && (net.owner.phase.Arming? || net.owner.phase.Disarming?)
  }

  function WithLink(net: Net, s: nat, l: Link): Net
    requires s < |net.links|
  {
    net.(links := net.links[s := l])
  }

  function Back(net: Net): Net
    requires net.owner.Flushing?
  {
    net.(owner := if net.owner.draining then Draining else Polling)
  }

  function Step(net: Net, e: Event): (t: Net)
    requires Valid(net) && Enabled(net, e)
    ensures Valid(t) && |t.links| == |net.links|
  {
    match e
    case Produce(s, m) =>
      var l := Enqueued(net.links[s], m);
      WithLink(net, s, l.(marking := l.marking + 1))
    case Mark(s) =>
      WithLink(net, s, net.links[s].(marking := net.links[s].marking - 1)).(dirty := net.dirty + {s})
    case Reply(s, m) => WithLink(net, s, Enqueued(net.links[s], m)).(owner := Flushing(s, Looking, false))
    case Writable(s) => net.(owner := Flushing(s, Looking, false))
    case Hangup(s) => WithLink(net, s, net.links[s].(live := false))
    case TakeWord(taken) => net.(dirty := net.dirty - taken, word := taken, owner := Draining)
    case NextBit(s) =>
      net.(word := net.word - {s}, owner := if IsLive(net, s) then Flushing(s, Looking, true) else Draining)
    case WordDone => net.(owner := Polling)
    case Look(n) =>
      var s := net.owner.s;
      if n > 0 then net.(owner := net.owner.(phase := Writing(n)))
      else if net.links[s].armed then net.(owner := net.owner.(phase := Disarming))
      else Back(net)
    case Write(result) =>
      var s, n := net.owner.s, net.owner.phase.n;
      var l := net.links[s];
      (match result
       case Wrote(k) =>
         var rest := WithLink(net, s, l.(queue := l.queue[k..], written := l.written + l.queue[..k]));
         if k < n then Wanting(rest, s) else rest.(owner := net.owner.(phase := Looking))
       case WouldBlock => Wanting(net, s)
       case Interrupted => net.(owner := net.owner.(phase := Looking))
       case Broken => Back(WithLink(net, s, l.(live := false))))
    case Control(ok) =>
      var s := net.owner.s;
      var want := net.owner.phase.Arming?;
      Back(if ok then WithLink(net, s, net.links[s].(armed := want)) else net)
  }

  /** Write interest is registered only when it is not registered yet. */
  function Wanting(net: Net, s: nat): Net
    requires net.owner.Flushing? && s < |net.links|
  {
    if net.links[s].armed then Back(net) else net.(owner := net.owner.(phase := Arming))
  }

  // ---- No wakeup is lost ------------------------------------------------------------------

  /** Something other than write interest will bring the owner back to this session. */
  predicate Flagged(net: Net, s: nat)
    requires s < |net.links|
  {
    s in net.dirty || s in net.word || net.links[s].marking > 0
  }

  predicate InFlush(net: Net, s: nat) { net.owner.Flushing? && net.owner.s == s }

  /** A live session with something to send is flagged, armed or being flushed. */
  predicate Covered(net: Net, s: nat)
    requires s < |net.links|
  {
    net.links[s].live && net.links[s].queue != [] ==> Flagged(net, s) || net.links[s].armed || InFlush(net, s)
  }

  /** What the owner knows in the middle of its work, whether registrations succeed or not. */
  predicate Sound(net: Net) {
    && Valid(net)
    && (net.owner.Flushing? && net.owner.phase.Arming? ==>
          !net.links[net.owner.s].armed && net.links[net.owner.s].queue != [])
    && (net.owner.Flushing? && net.owner.phase.Disarming? ==>
          net.links[net.owner.s].queue == [] || Flagged(net, net.owner.s))
    && (net.owner.Polling? ==> net.word == {})
    && (net.owner.Flushing? && !net.owner.draining ==> net.word == {})
  }

  ghost predicate WakeInv(net: Net) {
    Sound(net) && forall s :: 0 <= s < |net.links| ==> Covered(net, s)
  }

  /** A live session with something to send that nobody will come back to. */
  predicate Stranded(net: Net, s: nat) { s < |net.links| && !Covered(net, s) }

  /** Registering write interest for the session fails, and nothing has flagged it meanwhile. */
  predicate FailsUnflagged(net: Net, e: Event, s: nat) {
    && e == Control(false) && InFlush(net, s) && net.owner.phase.Arming?
    && s < |net.links| && !Flagged(net, s)
  }

  /** Somebody queues a message for the session, or it is disconnected. */
  predicate Rouses(e: Event, s: nat) {
    (e.Produce? || e.Reply? || e.Hangup?) && e.s == s
  }

  /** A session is stranded by a failing registration that finds it unflagged and by nothing else, and until
      somebody produces for it, replies to it or disconnects it, it stays so with not a byte moving. */
  lemma StepStrands(net: Net, e: Event, s: nat)
    requires Sound(net) && Enabled(net, e)
    ensures Sound(Step(net, e))
    ensures Stranded(Step(net, e), s) <==> (Stranded(net, s) && !Rouses(e, s)) || FailsUnflagged(net, e, s)
    ensures Stranded(net, s) && !Rouses(e, s) ==> Step(net, e).links[s] == net.links[s]
  { }

  /** Every step keeps every session covered, provided registering write interest succeeds. */
  lemma StepCovers(net: Net, e: Event)
    requires WakeInv(net) && Enabled(net, e)
    requires e == Control(false) ==> !net.owner.phase.Arming?
    ensures WakeInv(Step(net, e))
  {
    hide Step, Covered;
    var t := Step(net, e);
    forall s | 0 <= s < |t.links| ensures Covered(t, s) {
      StepStrands(net, e, s);
      assert Covered(net, s);
    }
    StepStrands(net, e, 0);
  }

  ghost predicate IsRun(nets: seq<Net>, events: seq<Event>) {
    && |nets| == |events| + 1
    && (forall k :: 0 <= k < |nets| ==> Valid(nets[k]))
    && (forall k :: 0 <= k < |events| ==> Enabled(nets[k], events[k]) && nets[k + 1] == Step(nets[k], events[k]))
  }

  ghost predicate ArmsSucceed(nets: seq<Net>, events: seq<Event>)
    requires IsRun(nets, events)
  {
    forall k :: 0 <= k < |events| && events[k] == Control(false) ==> !nets[k].owner.phase.Arming?
  }

  /** In every interleaving of any number of producers with the owner. */
  lemma {:induction false} RunCovers(nets: seq<Net>, events: seq<Event>, k: nat)
    requires IsRun(nets, events) && ArmsSucceed(nets, events) && WakeInv(nets[0]) && k < |nets|
    ensures WakeInv(nets[k])
  {
    hide WakeInv, Step;
    if k > 0 {
      RunCovers(nets, events, k - 1);
      StepCovers(nets[k - 1], events[k - 1]);
    }
  }

  /** Its last failing registration found the session unflagged, and nobody roused it since. */
  ghost predicate LeftStranded(nets: seq<Net>, events: seq<Event>, k: nat, s: nat)
    requires IsRun(nets, events) && k < |nets|
  {
    exists j :: 0 <= j < k && FailsUnflagged(nets[j], events[j], s) && UnrousedSince(events, j, k, s)
  }

  predicate UnrousedSince(events: seq<Event>, j: nat, k: nat, s: nat)
    requires k <= |events|
  {
    forall m :: j < m < k ==> !Rouses(events[m], s)
  }

  /** In every interleaving, exactly the sessions so left are stranded. */
  lemma {:induction false} RunStrands(nets: seq<Net>, events: seq<Event>, k: nat, s: nat)
    requires IsRun(nets, events) && WakeInv(nets[0]) && k < |nets|
    ensures Sound(nets[k])
    ensures Stranded(nets[k], s) <==> LeftStranded(nets, events, k, s)
  {
    hide Sound, Step, Enabled, FailsUnflagged, Rouses;
    if k == 0 {
      if s < |nets[0].links| { assert Covered(nets[0], s); }
    } else {
      hide Stranded;
      RunStrands(nets, events, k - 1, s);
      StepStrands(nets[k - 1], events[k - 1], s);
      if FailsUnflagged(nets[k - 1], events[k - 1], s) {
        assert UnrousedSince(events, k - 1, k, s);
      }
      if LeftStranded(nets, events, k - 1, s) && !Rouses(events[k - 1], s) {
        var j :| 0 <= j < k - 1 && FailsUnflagged(nets[j], events[j], s) && UnrousedSince(events, j, k - 1, s);
        assert UnrousedSince(events, j, k, s);
      }
      if LeftStranded(nets, events, k, s) {
        var j :| 0 <= j < k && FailsUnflagged(nets[j], events[j], s) && UnrousedSince(events, j, k, s);
        if j < k - 1 { assert UnrousedSince(events, j, k - 1, s); }
      }
    }
  }

  /** Once producers have marked, no bit is set and no session waits for the kernel, everything queued
      by live sessions has been written. */
  lemma QuietMeansSent(net: Net)
    requires WakeInv(net) && net.owner.Polling? && net.dirty == {}
    requires forall s :: 0 <= s < |net.links| ==> net.links[s].marking == 0 && !net.links[s].armed
    ensures forall s :: 0 <= s < |net.links| && net.links[s].live ==> net.links[s].queue == []
  {
    forall s | 0 <= s < |net.links| && net.links[s].live ensures net.links[s].queue == [] {
      assert Covered(net, s);
    }
  }

  /** Without that proviso it is false: one message, a full kernel buffer and a failing registration
      leave a live session with something to send and nobody to be woken. */
  lemma StrandedWhenArmFails()
    ensures exists nets: seq<Net>, events: seq<Event> ::
      && IsRun(nets, events) && |events| == 4 && WakeInv(nets[0])
      && (forall k :: 0 <= k < 5 ==> |nets[k].links| == 1) && nets[0].links[0].queue == []
      && !Covered(nets[4], 0)
  {
    var none: set<nat> := {};
    var l := Link(true, NO_BYTES, false, 0, NO_LOG, NO_BYTES);
    var n0 := Net([l], none, none, Polling);
    var events := [Reply(0, [1]), Look(1), Write(WouldBlock), Control(false)];
    assert NO_BYTES + [1] == [1] && NO_LOG + [[1]] == [[1]];
    var full := Link(true, [1], false, 0, [[1]], NO_BYTES);
    var n1 := Net([full], none, none, Flushing(0, Looking, false));
    var n2 := n1.(owner := Flushing(0, Writing(1), false));
    var n3 := n1.(owner := Flushing(0, Arming, false));
    var n4 := n1.(owner := Polling);
    assert Leads(n0, events[0], n1);
    assert Leads(n1, events[1], n2);
    assert Leads(n2, events[2], n3);
    assert Leads(n3, events[3], n4);
    hide Step, Enabled;
    assert IsRun([n0, n1, n2, n3, n4], events);
  }

  const NO_BYTES: seq<Byte> := []
  const NO_LOG: seq<seq<Byte>> := []

  predicate Leads(net: Net, e: Event, t: Net) { Valid(net) && Enabled(net, e) && Step(net, e) == t }

  // ---- What a step does to liveness, marks and room ---------------------------------------

  /** A session ends by a disconnection or a broken write and by nothing else, and never comes back. */
  lemma StepLives(net: Net, e: Event, s: nat)
    requires Valid(net) && Enabled(net, e) && s < |net.links|
    ensures Step(net, e).links[s].live <==>
      net.links[s].live && e != Hangup(s) && !(e == Write(Broken) && InFlush(net, s))
  { }

  /** The session's queue never holds more than the ring's 16383 usable bytes, and a message that still fits
      is taken. */
  lemma StepFits(net: Net, e: Event, s: nat)
    requires Valid(net) && Enabled(net, e) && s < |net.links| && |net.links[s].queue| <= 16383
    ensures |Step(net, e).links[s].queue| <= 16383
    ensures forall m :: |net.links[s].queue| + |m| <= 16383 <==> Fits(net.links[s], m)
  { }

  function Marks(events: seq<Event>): nat {
    if events == [] then 0 else Marks(events[..|events| - 1]) + if events[|events| - 1].Mark? then 1 else 0
  }

  /** Bits of the bitmap that the owner has come back to. */
  function Wakes(events: seq<Event>): nat {
    if events == [] then 0 else Wakes(events[..|events| - 1]) + if events[|events| - 1].NextBit? then 1 else 0
  }

  /** Bits set in the bitmap or in the word in hand. */
  function Bits(net: Net): nat { |net.dirty| + |net.word| }

  lemma Taken(from: set<nat>, taken: set<nat>)
    requires taken <= from
    ensures |from| == |from - taken| + |taken|
  {
    assert from == (from - taken) + taken;
  }

  lemma StepBits(net: Net, e: Event)
    requires Sound(net) && Enabled(net, e)
    ensures Bits(Step(net, e)) + (if e.NextBit? then 1 else 0) <= Bits(net) + if e.Mark? then 1 else 0
    ensures e.Mark? ==> e.s in Step(net, e).dirty && Step(net, e).links[e.s].marking < net.links[e.s].marking
  {
    match e
    case Mark(s) => assert s in net.dirty ==> net.dirty + {s} == net.dirty;
    case TakeWord(taken) => Taken(net.dirty, taken);
    case NextBit(s) => Taken(net.word, {s});
    case _ => assert Step(net, e).dirty == net.dirty && Step(net, e).word == net.word;
  }

  /** In every run the owner comes back to no more bits than producers have marked. */
  lemma {:induction false} WakesAreMarked(nets: seq<Net>, events: seq<Event>, k: nat)
    requires IsRun(nets, events) && Sound(nets[0]) && k < |nets|
    ensures Sound(nets[k]) && Wakes(events[..k]) + Bits(nets[k]) <= Marks(events[..k]) + Bits(nets[0])
  {
    hide Sound, Step, Enabled, Bits;
    if k > 0 {
      WakesAreMarked(nets, events, k - 1);
      StepBits(nets[k - 1], events[k - 1]);
      StepStrands(nets[k - 1], events[k - 1], 0);
      assert events[..k][..k - 1] == events[..k - 1];
    }
  }

  // ---- No byte is lost --------------------------------------------------------------------

  /** What the kernel took, followed by what is queued, is the concatenation of whole messages. */
  predicate StreamOk(l: Link) { l.written + l.queue == Flat(l.log) }

  ghost predicate ByteInv(net: Net) {
    Valid(net) && forall s :: 0 <= s < |net.links| ==> StreamOk(net.links[s])
  }

  lemma EnqueueStream(l: Link, m: seq<Byte>)
    requires StreamOk(l) && Fits(l, m)
    ensures StreamOk(Enqueued(l, m))
  {
    FlatMore(l.log, m);
    assert l.written + (l.queue + m) == (l.written + l.queue) + m;
  }

  lemma ConsumeStream(l: Link, k: nat)
    requires StreamOk(l) && k <= |l.queue|
    ensures StreamOk(l.(queue := l.queue[k..], written := l.written + l.queue[..k]))
  {
    assert l.written + l.queue[..k] + l.queue[k..] == l.written + l.queue;
  }

  lemma StepStreams(net: Net, e: Event)
    requires ByteInv(net) && Enabled(net, e)
    ensures ByteInv(Step(net, e))
  {
    hide StreamOk;
    match e
    case Produce(s, m) => EnqueueStream(net.links[s], m); MarkStream(Enqueued(net.links[s], m));
    case Reply(s, m) => EnqueueStream(net.links[s], m);
    case Mark(s) => MarkStream(net.links[s]);
    case Hangup(s) => MarkStream(net.links[s]);
    case Write(result) =>
      if result.Wrote? { ConsumeStream(net.links[net.owner.s], result.n); }
      MarkStream(net.links[net.owner.s]);
    case Control(_) => MarkStream(net.links[net.owner.s]);
    case _ =>
  }

  lemma MarkStream(l: Link)
    requires StreamOk(l)
    ensures forall m: nat, a: bool, v: bool :: StreamOk(l.(marking := m, armed := a, live := v))
    ensures forall m: nat :: StreamOk(l.(marking := m))
    ensures forall a: bool :: StreamOk(l.(armed := a))
    ensures forall v: bool :: StreamOk(l.(live := v))
  { }

  /** One step appends to the log and to what the kernel took, and never changes either. */
  lemma StepOnlyAppends(net: Net, e: Event, s: nat)
    requires Valid(net) && Enabled(net, e) && s < |net.links|
    ensures Prefix(net.links[s].log, Step(net, e).links[s].log)
    ensures Prefix(net.links[s].written, Step(net, e).links[s].written)
  { }

  lemma {:induction false} RunStreams(nets: seq<Net>, events: seq<Event>, k: nat)
    requires IsRun(nets, events) && ByteInv(nets[0]) && k < |nets|
    ensures ByteInv(nets[k])
  {
    hide ByteInv, Step;
    if k > 0 {
      RunStreams(nets, events, k - 1);
      StepStreams(nets[k - 1], events[k - 1]);
    }
  }
}
