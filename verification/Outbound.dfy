/** The owner's side of the send path as it runs: the bitmap words, flushing with whatever the kernel
    answers, and write interest. */
module Outbound {
  import opened Bytes
  import opened Wakeup

  // ---- Flushing ---------------------------------------------------------------------------

  /** What the kernel will answer during one flush: how many contiguous bytes the ring offers and what
      the write returns, call by call; and whether epoll_ctl succeeds. */
  datatype Answer = Answer(offered: nat, result: WriteResult)

  /** One flush, run as steps of the owner. */
  function FlushSteps(net: Net, answers: seq<Answer>, control: bool): Net
    requires Valid(net) && net.owner.Flushing? && net.owner.phase.Looking?
    decreases |answers|
  {
    var s := net.owner.s;
    var q := net.links[s].queue;
    if q == [] then
      var t := Step(net, Look(0));
      if t.owner.Flushing? then Step(t, Control(control)) else t
    else if answers == [] then net
    else
      var n := Offer(answers[0], |q|);
      var t := Step(Step(net, Look(n)), Write(Cut(answers[0].result, n)));
      if !t.owner.Flushing? then t
      else if t.owner.phase.Arming? then Step(t, Control(control))
      else FlushSteps(t, answers[1..], control)
  }

  /** The contiguous part of `size` queued bytes: at least one, at most all. */
  function Offer(a: Answer, size: nat): (n: nat)
    requires size > 0
    ensures 0 < n <= size
  {
    if a.offered == 0 then 1 else if a.offered > size then size else a.offered
  }

  /** A write never takes more than it was given, nor nothing. */
  function Cut(r: WriteResult, n: nat): (t: WriteResult)
    requires n > 0
    ensures t.Wrote? ==> 0 < t.n <= n
  {
    match r
    case Wrote(k) => Wrote(if k == 0 then 1 else if k > n then n else k)
    case _ => r
  }

  class Session {
    var live: bool
    var sendQ: seq<Byte>
    var wantWrite: bool
    ghost var marking: nat
    ghost var log: seq<seq<Byte>>
    ghost var written: seq<Byte>

    ghost function View(): Link
      reads this
    {
      Link(live, sendQ, wantWrite, marking, log, written)
    }

    /** All or nothing. */
    method Enqueue(m: seq<Byte>) returns (ok: bool)
      modifies this`sendQ, this`log
      ensures ok == Fits(old(View()), m)
      ensures View() == if ok then Enqueued(old(View()), m) else old(View())
    {
      ok := |sendQ| + |m| <= SEND_ROOM;
      if ok {
        sendQ := sendQ + m;
        log := log + [m];
      }
    }

    method UpdateWriteInterest(want: bool, control: bool)
      modifies this`wantWrite
      ensures View() == old(View()).(armed := if old(wantWrite) == want || control then want else old(wantWrite))
    {
      if wantWrite == want {
        return;
      }
      if control {
        wantWrite := want;
      }
    }

    /** Writes until the queue is empty, the kernel has enough, or the connection breaks. */
    method FlushSend(answers: seq<Answer>, control: bool)
      requires live
      modifies this
      ensures View() == FlushLink(old(View()), answers, control)
    {
      ghost var start := View();
      for i := 0 to |answers|
        invariant live && FlushLink(start, answers, control) == FlushLink(View(), answers[i..], control)
      {
        assert answers[i..][0] == answers[i] && answers[i..][1..] == answers[i + 1..];
        if |sendQ| == 0 {
          if wantWrite {
            UpdateWriteInterest(false, control);
          }
          return;
        }
        var offered := Offer(answers[i], |sendQ|);
        var result := Cut(answers[i].result, offered);
        match result
        case Wrote(n) =>
          written := written + sendQ[..n];
          sendQ := sendQ[n..];
          if n < offered {
            UpdateWriteInterest(true, control);
            return;
          }
        case WouldBlock =>
          UpdateWriteInterest(true, control);
          return;
        case Interrupted =>
        case Broken =>
          live := false;
          return;
      }
      assert answers[|answers|..] == [];
      if |sendQ| == 0 && wantWrite {
        UpdateWriteInterest(false, control);
      }
    }
  }

  function Armed(l: Link, want: bool, control: bool): Link {
    if l.armed == want || control then l.(armed := want) else l
  }

  /** What one flush makes of the session. */
  function FlushLink(l: Link, answers: seq<Answer>, control: bool): Link
    decreases |answers|
  {
    if l.queue == [] then Armed(l, false, control)
    else if answers == [] then l
    else
      var n := Offer(answers[0], |l.queue|);
      match Cut(answers[0].result, n)
      case Wrote(k) =>
        var rest := l.(queue := l.queue[k..], written := l.written + l.queue[..k]);
        if k < n then Armed(rest, true, control) else FlushLink(rest, answers[1..], control)
      case WouldBlock => Armed(l, true, control)
      case Interrupted => FlushLink(l, answers[1..], control)
      case Broken => l.(live := false)
  }

  /** A flush of the session object is the run of owner steps of the protocol. */
  lemma {:induction false} FlushIsSteps(net: Net, answers: seq<Answer>, control: bool)
    requires Valid(net) && net.owner.Flushing? && net.owner.phase.Looking?
    ensures FlushSteps(net, answers, control).links
         == net.links[net.owner.s := FlushLink(net.links[net.owner.s], answers, control)]
    decreases |answers|
  {
    var s := net.owner.s;
    var l := net.links[s];
    assert net.links[s := l] == net.links;
    if l.queue != [] && answers != [] {
      var n := Offer(answers[0], |l.queue|);
      var t := Step(Step(net, Look(n)), Write(Cut(answers[0].result, n)));
      if t.owner.Flushing? && t.owner.phase.Looking? {
        FlushIsSteps(t, answers[1..], control);
      }
    }
  }

  predicate MayGoOn(a: Answer) { a.result.Wrote? || a.result.Interrupted? }

  /** How a flush that used `n` answers has ended: all earlier ones let it go on; it stopped with the queue
      empty, with the answers used up, or at its last answer, a short write, a full kernel or a broken
      connection.  The session is lost exactly on a broken connection, and, if registering succeeds, write
      interest is left exactly for what is still to be sent. */
  predicate FlushEnded(l: Link, t: Link, answers: seq<Answer>, control: bool, n: nat) {
    && n <= |answers| && (forall j :: 0 <= j < n - 1 ==> MayGoOn(answers[j]))
    && (t.live <==> l.live && !(n > 0 && answers[n - 1].result.Broken?))
    && (t.queue == [] || n == |answers| || (n > 0 && !answers[n - 1].result.Interrupted?))
    && (t.live && control && t.queue == [] ==> !t.armed)
    && (t.live && control && t.queue != [] && n < |answers| ==> t.armed)
    && (t.live && control && n > 0 && answers[n - 1].result.WouldBlock? ==> t.armed)
    && (!t.live || !control ==> t.armed == l.armed)
    && (l.queue == [] ==> n == 0)
    && t.written + t.queue == l.written + l.queue && Prefix(l.written, t.written)
    && t.log == l.log && t.marking == l.marking
  }

  lemma TakesSome(l: Link, k: nat)
    requires k <= |l.queue|
    ensures var rest := l.(queue := l.queue[k..], written := l.written + l.queue[..k]);
      rest.written + rest.queue == l.written + l.queue && Prefix(l.written, rest.written)
  { }

  lemma OneMoreAnswer(l: Link, rest: Link, t: Link, answers: seq<Answer>, control: bool, n: nat)
    requires answers != [] && MayGoOn(answers[0]) && FlushEnded(rest, t, answers[1..], control, n)
    requires l.queue != [] && l.live == rest.live && l.armed == rest.armed && l.log == rest.log
    requires l.marking == rest.marking
    requires rest.written + rest.queue == l.written + l.queue && Prefix(l.written, rest.written)
    requires n == 0 ==> t.queue == [] || |answers| == 1
    ensures FlushEnded(l, t, answers, control, n + 1)
  {
    forall j | 0 <= j < n ensures MayGoOn(answers[j]) {
      if j > 0 { assert answers[1..][j - 1] == answers[j]; }
    }
    PrefixTrans(l.written, rest.written, t.written);
  }

  lemma {:induction false} FlushMeans(l: Link, answers: seq<Answer>, control: bool) returns (n: nat)
    requires l.live
    ensures FlushEnded(l, FlushLink(l, answers, control), answers, control, n)
    decreases |answers|
  {
    n := 0;
    if l.queue != [] && answers != [] {
      var m := Offer(answers[0], |l.queue|);
      var cut := Cut(answers[0].result, m);
      n := 1;
      if cut.Wrote? {
        var rest := l.(queue := l.queue[cut.n..], written := l.written + l.queue[..cut.n]);
        TakesSome(l, cut.n);
        if cut.n == m {
          n := FlushMeans(rest, answers[1..], control);
          OneMoreAnswer(l, rest, FlushLink(rest, answers[1..], control), answers, control, n);
          n := n + 1;
        }
      } else if cut.Interrupted? {
        n := FlushMeans(l, answers[1..], control);
        OneMoreAnswer(l, l, FlushLink(l, answers[1..], control), answers, control, n);
        n := n + 1;
      }
    }
  }

  /** After a write that took less than it was given nothing more is written in this flush: the session waits
      for the kernel. */
  lemma ShortWriteWaits(l: Link, answers: seq<Answer>, k: nat)
    requires l.queue != [] && answers != [] && answers[0].result == Wrote(k)
    requires 0 < k < Offer(answers[0], |l.queue|)
    ensures var t := FlushLink(l, answers, true);
      t.armed && t.live == l.live && t.written == l.written + l.queue[..k] && t.queue == l.queue[k..]
  { }

  /** A flush offers the kernel no more than is queued, and all the ring has in one piece. */
  lemma OfferIs(a: Answer, size: nat)
    requires size > 0
    ensures 0 < a.offered <= size ==> Offer(a, size) == a.offered
    ensures a.offered > size ==> Offer(a, size) == size
    ensures forall k, n :: 0 < k <= n ==> Cut(Wrote(k), n) == Wrote(k)
  { }

  /** Given more answers than interruptions and queued bytes, a flush ends with the queue empty, write
      interest asked for, or the session gone. */
  lemma {:induction false} FlushEnds(l: Link, answers: seq<Answer>, control: bool)
    requires l.live
    ensures var t := FlushLink(l, answers, true);
      t.queue == [] || t.armed || !t.live || |answers| < Interruptions(answers) + |l.queue|
    decreases |answers|
  {
    if l.queue != [] && answers != [] {
      var n := Offer(answers[0], |l.queue|);
      match Cut(answers[0].result, n)
      case Wrote(k) =>
        var rest := l.(queue := l.queue[k..], written := l.written + l.queue[..k]);
        if k == n { FlushEnds(rest, answers[1..], control); }
      case Interrupted => FlushEnds(l, answers[1..], control);
      case _ =>
    }
  }

  function Interruptions(answers: seq<Answer>): nat {
    if answers == [] then 0 else (if answers[0].result.Interrupted? then 1 else 0) + Interruptions(answers[1..])
  }
}
