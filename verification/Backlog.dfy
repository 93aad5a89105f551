/** The load client's send side: bytes the kernel did not take wait in a bounded backlog, first in
    first out. */
module Backlog {
  import opened Bytes

  const PEND_MAX: nat := 4096

  datatype WriteResult = Wrote(n: nat) | WouldBlock | Interrupted | Broken

  /** How many bytes these answers take of a backlog long enough. */
  function Offered(answers: seq<WriteResult>): nat {
    if answers == [] then 0
    else
      var last := answers[|answers| - 1];
      Offered(answers[..|answers| - 1]) + if last.Wrote? then last.n else 0
  }

  lemma OfferedNext(answers: seq<WriteResult>, i: nat)
    requires i < |answers|
    ensures Offered(answers[..i + 1]) == Offered(answers[..i]) + if answers[i].Wrote? then answers[i].n else 0
  {
    assert answers[..i + 1][..i] == answers[..i];
  }

  /** The answers after which a flush goes on. */
  predicate GoesOn(a: WriteResult) { a.Wrote? || a.Interrupted? }

  class Sender {
    var pend: seq<Byte>
    var dead: bool
    ghost var written: seq<Byte>
    ghost var accepted: seq<Byte>

    /** What the kernel took and what waits is what was accepted, in order. */
    ghost predicate Valid()
      reads this
    {
      !dead ==> written + pend == accepted
    }

    constructor ()
      ensures Valid() && !dead && pend == [] && accepted == []
    {
      pend, dead, written, accepted := [], false, [], [];
    }

    /** With a backlog the whole message joins it, or the client gives up when it would overflow; without
        one it goes to the kernel and only the rest waits. */
    method SendBytes(data: seq<Byte>, kernel: WriteResult)
      requires Valid() && !dead && (kernel.Wrote? ==> kernel.n <= |data|)
      modifies this
      ensures Valid()
      ensures dead <==> if old(pend) != [] then |old(pend)| + |data| > PEND_MAX else kernel.Broken?
      ensures !dead ==> accepted == old(accepted) + data
      ensures !dead && old(pend) != [] ==> written == old(written) && pend == old(pend) + data
      ensures !dead && old(pend) == [] ==>
        var n := if kernel.Wrote? then kernel.n else 0; written == old(written) + data[..n] && pend == data[n..]
    {
      if pend != [] {
        if |pend| + |data| > PEND_MAX {
          dead := true;
          return;
        }
        assert written + (pend + data) == (written + pend) + data;
        pend := pend + data;
        accepted := accepted + data;
        return;
      }
      var n := 0;
      if kernel.Wrote? {
        n := kernel.n;
      } else if kernel.Broken? {
        dead := true;
        return;
      }
      assert (written + data[..n]) + data[n..] == written + data;
      if n < |data| {
        pend := data[n..];
      }
      assert data[|data|..] == [];
      written := written + data[..n];
      accepted := accepted + data;
    }

    /** Flushing with whatever the kernel answers; `used` answers are asked for, none once the backlog is
        empty.  It ends with the backlog empty, at the first answer that does not let it go on, or with the
        answers used up, and the client gives up exactly on a broken connection. */
    method FlushPend(answers: seq<WriteResult>) returns (used: nat)
      requires Valid() && !dead
      requires forall k :: 0 <= k < |answers| && answers[k].Wrote? ==> answers[k].n > 0
      modifies this
      ensures Valid() && accepted == old(accepted) && used <= |answers|
      ensures Moved(old(pend), old(written), pend, written, Offered(answers[..used]))
      ensures forall k :: 0 <= k < used ==> Offered(answers[..k]) < |old(pend)|
      ensures forall k :: 0 <= k < used - 1 ==> GoesOn(answers[k])
      ensures pend == [] || used == |answers| || (used > 0 && !GoesOn(answers[used - 1]))
      ensures dead <==> used > 0 && answers[used - 1].Broken?
    {
      hide Offered, Moved;
      used := 0;
      ghost var before, taken := pend, written;
      NoneMoved(before, taken, answers);
      while used < |answers|
        invariant used <= |answers| && Valid() && !dead && accepted == old(accepted)
        invariant Moved(before, taken, pend, written, Offered(answers[..used]))
        invariant forall k :: 0 <= k < used ==> Offered(answers[..k]) < |before| && GoesOn(answers[k])
      {
        if pend == [] {
          return;
        }
        OfferedNext(answers, used);
        SomeMoved(before, taken, pend, written, Offered(answers[..used]), answers[used]);
        var a := answers[used];
        used := used + 1;
        match a
        case Wrote(k) =>
          var n := Min(k, |pend|);
          written := written + pend[..n];
          pend := pend[n..];
        case WouldBlock =>
          return;
        case Interrupted =>
        case Broken =>
          dead := true;
          return;
      }
    }
  }

  function Min(a: nat, b: nat): nat { if a < b then a else b }

  /** The first `m` bytes of a backlog, or all of it, have gone to the kernel. */
  predicate Moved(before: seq<Byte>, taken: seq<Byte>, pend: seq<Byte>, written: seq<Byte>, m: nat) {
    var n := Min(m, |before|);
    written == taken + before[..n] && pend == before[n..]
  }

  lemma NoneMoved(pend: seq<Byte>, written: seq<Byte>, answers: seq<WriteResult>)
    ensures Moved(pend, written, pend, written, Offered(answers[..0]))
  {
    assert written + pend[..0] == written;
  }

  lemma SomeMoved(before: seq<Byte>, taken: seq<Byte>, pend: seq<Byte>, written: seq<Byte>, m: nat, a: WriteResult)
    requires Moved(before, taken, pend, written, m) && pend != []
    ensures m < |before|
    ensures a.Wrote? ==> var n := Min(a.n, |pend|);
      && (written + pend[..n]) + pend[n..] == written + pend
      && Moved(before, taken, pend[n..], written + pend[..n], m + a.n)
  {
    if a.Wrote? {
      var n := Min(a.n, |pend|);
      assert before[m..][..n] == before[m..m + n] && before[..m] + before[m..m + n] == before[..m + n];
      assert (taken + before[..m]) + before[m..m + n] == taken + (before[..m] + before[m..m + n]);
      assert before[m..][n..] == before[m + n..];
    }
  }
}
