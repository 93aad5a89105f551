/** Keeping bodies apart on the stage: one relaxation pass over all pairs, then the stage bounds.
    The browser logic and the server simulation share it. */
module Bodies {
  const HALF_W: real := 17.0
  const HALF_D: real := 9.0
  const LEFT: real := 20.0
  const RIGHT: real := 1580.0
  const DEPTH_MIN: real := 0.0
  const DEPTH_MAX: real := 165.0

  /** A body that is not `solid` takes no part: an empty slot, a dead actor, one in mid-dash. */
  datatype Body = Body(x: real, y: real, solid: bool)

  function Abs(v: real): real { if v < 0.0 then -v else v }

  function Clamp(v: real, lo: real, hi: real): (r: real)
    requires lo <= hi
    ensures lo <= r <= hi && (lo <= v <= hi ==> r == v)
  {
    if v < lo then lo else if v > hi then hi else v
  }

  function Overlap(half: real, d: real): real { half * 2.0 - Abs(d) }

  function Side(d: real): real { if d >= 0.0 then 1.0 else -1.0 }

  predicate Overlapping(a: Body, b: Body) {
    a.solid && b.solid && Overlap(HALF_W, b.x - a.x) > 0.0 && Overlap(HALF_D, b.y - a.y) > 0.0
  }

  /** An overlapping pair is pushed apart, half each, along the axis it overlaps least. */
  function Resolve(a: Body, b: Body): (Body, Body) {
    if !Overlapping(a, b) then (a, b)
    else
      var dx, dy := b.x - a.x, b.y - a.y;
      var ox, oy := Overlap(HALF_W, dx), Overlap(HALF_D, dy);
      if ox < oy then
        var push := Side(dx) * ox * 0.5;
        (a.(x := a.x - push), b.(x := b.x + push))
      else
        var push := Side(dy) * oy * 0.5;
        (a.(y := a.y - push), b.(y := b.y + push))
  }

  /** An overlapping pair is pushed apart along the axis it overlaps less, until it exactly touches there,
      on the sides it was on; along the other axis it stays, its centre of gravity stays, and neither body
      moves by more than nine.  Any other pair stays as it is. */
  lemma ResolveTouches(a: Body, b: Body)
    ensures var (p, q) := Resolve(a, b);
      && !Overlapping(p, q)
      && p.x + q.x == a.x + b.x && p.y + q.y == a.y + b.y
      && p.solid == a.solid && q.solid == b.solid
      && Abs(p.x - a.x) <= HALF_D && Abs(q.x - b.x) <= HALF_D
      && Abs(p.y - a.y) <= HALF_D && Abs(q.y - b.y) <= HALF_D
      && (!Closer(a, b) ==> p == a && q == b)
      && (Closer(a, b) && 34.0 - Abs(b.x - a.x) < 18.0 - Abs(b.y - a.y) ==>
            q.x - p.x == (if b.x >= a.x then 34.0 else -34.0) && p.y == a.y && q.y == b.y)
      && (Closer(a, b) && 34.0 - Abs(b.x - a.x) >= 18.0 - Abs(b.y - a.y) ==>
            q.y - p.y == (if b.y >= a.y then 18.0 else -18.0) && p.x == a.x && q.x == b.x)
  { }

  /** Two bodies that take part, nearer than 34 across and 18 in depth. */
  predicate Closer(a: Body, b: Body) {
    a.solid && b.solid && Abs(b.x - a.x) < 34.0 && Abs(b.y - a.y) < 18.0
  }

  // ---- The pass ---------------------------------------------------------------------------

  /** One body against all later ones, in order. */
  function Row(a: Body, rest: seq<Body>): (r: (Body, seq<Body>))
    ensures |r.1| == |rest|
    decreases |rest|
  {
    if rest == [] then (a, [])
    else
      var (p, q) := Resolve(a, rest[0]);
      var (last, others) := Row(p, rest[1..]);
      (last, [q] + others)
  }

  function Separate(bs: seq<Body>): (r: seq<Body>)
    ensures |r| == |bs|
    decreases |bs|
  {
    if bs == [] then []
    else
      var (a, rest) := Row(bs[0], bs[1..]);
      [a] + Separate(rest)
  }

  function SumX(bs: seq<Body>): real { if bs == [] then 0.0 else bs[0].x + SumX(bs[1..]) }

  function SumY(bs: seq<Body>): real { if bs == [] then 0.0 else bs[0].y + SumY(bs[1..]) }

  lemma {:induction false} RowKeepsSum(a: Body, rest: seq<Body>)
    ensures var (p, others) := Row(a, rest);
      p.x + SumX(others) == a.x + SumX(rest) && p.y + SumY(others) == a.y + SumY(rest)
    decreases |rest|
  {
    if rest != [] {
      hide Resolve;
      ResolveTouches(a, rest[0]);
      RowKeepsSum(Resolve(a, rest[0]).0, rest[1..]);
      var others := Row(a, rest).1;
      assert others[1..] == Row(Resolve(a, rest[0]).0, rest[1..]).1;
    }
  }

  /** Pushing apart moves nobody on balance. */
  lemma {:induction false} SeparateKeepsSum(bs: seq<Body>)
    ensures SumX(Separate(bs)) == SumX(bs) && SumY(Separate(bs)) == SumY(bs)
    decreases |bs|
  {
    if bs != [] {
      RowKeepsSum(bs[0], bs[1..]);
      var (a, rest) := Row(bs[0], bs[1..]);
      SeparateKeepsSum(rest);
      assert Separate(bs)[1..] == Separate(rest);
    }
  }

  // ---- Holes ------------------------------------------------------------------------------

  /** The bodies that take part, in order. */
  function Compact(bs: seq<Body>): seq<Body> {
    if bs == [] then [] else (if bs[0].solid then [bs[0]] else []) + Compact(bs[1..])
  }

  predicate SameHoles(a: seq<Body>, b: seq<Body>) {
    |a| == |b| && forall k :: 0 <= k < |a| ==> a[k].solid == b[k].solid && (!a[k].solid ==> a[k] == b[k])
  }

  lemma {:induction false} RowIgnoresHoles(a: Body, rest: seq<Body>)
    ensures var (p, others) := Row(a, rest);
      && p.solid == a.solid && SameHoles(rest, others)
      && (a.solid ==> Row(a, Compact(rest)) == (p, Compact(others)))
      && (!a.solid ==> p == a && others == rest)
    decreases |rest|
  {
    if rest != [] {
      var (p, q) := Resolve(a, rest[0]);
      RowIgnoresHoles(p, rest[1..]);
      var others := Row(a, rest).1;
      var tail := Row(p, rest[1..]).1;
      assert others[1..] == tail;
      assert Compact(others) == (if q.solid then [q] else []) + Compact(tail);
      if rest[0].solid {
        assert Compact(rest)[1..] == Compact(rest[1..]);
      } else {
        assert [] + Compact(rest[1..]) == Compact(rest[1..]) && [] + Compact(tail) == Compact(tail);
        assert [rest[0]] + rest[1..] == rest;
      }
      if !a.solid { assert [rest[0]] + rest[1..] == rest; }
    }
  }

  /** A pass over slots with holes is the pass over the list of those present, and holes stay put. */
  lemma {:induction false} SeparateIgnoresHoles(bs: seq<Body>)
    ensures Compact(Separate(bs)) == Separate(Compact(bs))
    ensures SameHoles(bs, Separate(bs))
    decreases |bs|
  {
    if bs != [] {
      RowIgnoresHoles(bs[0], bs[1..]);
      var (a, rest) := Row(bs[0], bs[1..]);
      SeparateIgnoresHoles(rest);
      assert Separate(bs)[1..] == Separate(rest);
      if bs[0].solid {
        assert Compact(bs)[1..] == Compact(bs[1..]);
      } else {
        assert [] + Compact(bs[1..]) == Compact(bs[1..]) && [] + Compact(Separate(rest)) == Compact(Separate(rest));
      }
    }
  }

  // ---- How far a body is pushed -----------------------------------------------------------

  lemma AbsSum(a: real, b: real, c: real)
    ensures Abs(c - a) <= Abs(b - a) + Abs(c - b)
  { }

  lemma {:induction false} RowPushes(a: Body, rest: seq<Body>, k: nat)
    requires k < |rest|
    ensures Abs(Row(a, rest).1[k].x - rest[k].x) <= HALF_D && Abs(Row(a, rest).1[k].y - rest[k].y) <= HALF_D
    decreases |rest|
  {
    hide Resolve, Abs;
    ResolveTouches(a, rest[0]);
    if k > 0 { RowPushes(Resolve(a, rest[0]).0, rest[1..], k - 1); }
  }

  lemma {:induction false} RowReach(a: Body, rest: seq<Body>)
    ensures var p := Row(a, rest).0;
      Abs(p.x - a.x) <= HALF_D * |rest| as real && Abs(p.y - a.y) <= HALF_D * |rest| as real
    decreases |rest|
  {
    if rest != [] {
      hide Resolve, Overlap, Overlapping;
      ResolveTouches(a, rest[0]);
      var p := Resolve(a, rest[0]).0;
      RowReach(p, rest[1..]);
      assert HALF_D * |rest| as real == HALF_D * |rest[1..]| as real + HALF_D;
      AbsSum(a.x, p.x, Row(a, rest).0.x);
      AbsSum(a.y, p.y, Row(a, rest).0.y);
    }
  }

  /** In one pass a body is pushed by at most nine for every other body. */
  lemma {:induction false} SeparateMoves(bs: seq<Body>, k: nat)
    requires k < |bs|
    ensures Abs(Separate(bs)[k].x - bs[k].x) <= HALF_D * (|bs| - 1) as real
    ensures Abs(Separate(bs)[k].y - bs[k].y) <= HALF_D * (|bs| - 1) as real
    decreases |bs|
  {
    var (a, rest) := Row(bs[0], bs[1..]);
    if k == 0 {
      RowReach(bs[0], bs[1..]);
    } else {
      RowPushes(bs[0], bs[1..], k - 1);
      SeparateMoves(rest, k - 1);
    }
  }

  /** Two bodies never overlap after a pass. */
  lemma TwoComeApart(a: Body, b: Body)
    ensures var r := Separate([a, b]); !Overlapping(r[0], r[1])
  {
    ResolveTouches(a, b);
    hide Resolve;
    assert [a, b][1..] == [b] && [b][1..] == [];
    var (p, q) := Resolve(a, b);
    assert Row(p, []) == (p, []) && [q] + [] == [q];
    assert Row(a, [b]) == (p, [q]);
    assert Row(q, []) == (q, []) && [q][1..] == [];
    assert Separate([q]) == [q] + Separate([]);
    assert Separate([a, b]) == [p] + Separate([q]);
  }

  // ---- Stage bounds -----------------------------------------------------------------------

  function Bounded(b: Body): Body { b.(x := Clamp(b.x, LEFT, RIGHT), y := Clamp(b.y, DEPTH_MIN, DEPTH_MAX)) }

  predicate OnStage(b: Body) { LEFT <= b.x <= RIGHT && DEPTH_MIN <= b.y <= DEPTH_MAX }

  function AllBounded(bs: seq<Body>): (r: seq<Body>)
    ensures |r| == |bs| && forall k :: 0 <= k < |bs| ==> r[k] == Bounded(bs[k])
  {
    seq(|bs|, k requires 0 <= k < |bs| => Bounded(bs[k]))
  }

  // ---- The pass as it runs, over an array of actors ---------------------------------------

  /** How an actor holds its body. */
  datatype Lens<!A> = Lens(body: A -> Body, put: (A, Body) -> A)

  ghost predicate Lawful<A(!new)>(l: Lens<A>) {
    && (forall a: A, b: Body :: b.solid == l.body(a).solid ==> l.body(l.put(a, b)) == b)
    && (forall a: A :: l.put(a, l.body(a)) == a)
    && (forall a: A, b: Body, c: Body :: l.put(l.put(a, b), c) == l.put(a, c))
  }

  function BodiesOf<A>(l: Lens<A>, ws: seq<A>): (bs: seq<Body>)
    ensures |bs| == |ws| && forall k :: 0 <= k < |ws| ==> bs[k] == l.body(ws[k])
  {
    seq(|ws|, k requires 0 <= k < |ws| => l.body(ws[k]))
  }

  /** The actors with other bodies. */
  function Placed<A>(l: Lens<A>, ws: seq<A>, bs: seq<Body>): (r: seq<A>)
    requires |bs| == |ws|
    ensures |r| == |ws| && forall k :: 0 <= k < |ws| ==> r[k] == l.put(ws[k], bs[k])
  {
    seq(|ws|, k requires 0 <= k < |ws| => l.put(ws[k], bs[k]))
  }

  /** Only bodies differ. */
  ghost predicate SameBut<A>(l: Lens<A>, was: seq<A>, now: seq<A>) {
    |now| == |was| && forall k :: 0 <= k < |was| ==> now[k] == l.put(was[k], l.body(now[k]))
  }

  lemma SameButIsPlaced<A(!new)>(l: Lens<A>, was: seq<A>, now: seq<A>)
    requires SameBut(l, was, now)
    ensures now == Placed(l, was, BodiesOf(l, now))
  { }

  lemma SameButTrans<A(!new)>(l: Lens<A>, a: seq<A>, b: seq<A>, c: seq<A>)
    requires Lawful(l) && SameBut(l, a, b) && SameBut(l, b, c)
    ensures SameBut(l, a, c)
  { }

  lemma PutBody<A(!new)>(l: Lens<A>, ws: seq<A>, k: nat, b: Body)
    requires Lawful(l) && k < |ws| && b.solid == l.body(ws[k]).solid
    ensures BodiesOf(l, ws[k := l.put(ws[k], b)]) == BodiesOf(l, ws)[k := b]
    ensures SameBut(l, ws, ws[k := l.put(ws[k], b)])
  { }

  /** One pair: both actors updated in place. */
  method ResolveAt<A(!new)>(l: Lens<A>, w: array<A>, i: nat, j: nat)
    requires Lawful(l) && i < j < w.Length
    modifies w
    ensures SameBut(l, old(w[..]), w[..])
    ensures var was := BodiesOf(l, old(w[..]));
      BodiesOf(l, w[..]) == was[i := Resolve(was[i], was[j]).0][j := Resolve(was[i], was[j]).1]
  {
    hide Lawful, SameBut;
    ghost var ws := w[..];
    var pair := Resolve(l.body(w[i]), l.body(w[j]));
    ResolveTouches(l.body(w[i]), l.body(w[j]));
    PutBody(l, ws, i, pair.0);
    w[i] := l.put(w[i], pair.0);
    assert w[..] == ws[i := w[i]];
    PutBody(l, w[..], j, pair.1);
    SameButTrans(l, ws, w[..], w[..][j := l.put(w[j], pair.1)]);
    ghost var next := w[..][j := l.put(w[j], pair.1)];
    w[j] := l.put(w[j], pair.1);
    assert w[..] == next;
  }

  /** The inner loop: one actor against the later ones. */
  method RowInPlace<A(!new)>(l: Lens<A>, w: array<A>, i: nat)
    requires Lawful(l) && i < w.Length
    modifies w
    ensures SameBut(l, old(w[..]), w[..])
    ensures var was, now := BodiesOf(l, old(w[..])), BodiesOf(l, w[..]);
      now[..i] == was[..i] && (now[i], now[i + 1..]) == Row(was[i], was[i + 1..])
  {
    hide Resolve, Lawful, SameBut;
    ghost var was := BodiesOf(l, w[..]);
    ghost var (last, others) := Row(was[i], was[i + 1..]);
    SameButSelf(l, w[..]);
    for j := i + 1 to w.Length
      invariant SameBut(l, old(w[..]), w[..])
      invariant RowSoFar(was, BodiesOf(l, w[..]), i, j, last, others)
    {
      ghost var here, ws := BodiesOf(l, w[..]), w[..];
      ResolveAt(l, w, i, j);
      SameButTrans(l, old(w[..]), ws, w[..]);
      RowStep(was, here, BodiesOf(l, w[..]), i, j, last, others);
    }
    RowDone(was, BodiesOf(l, w[..]), i, last, others);
  }

  lemma SameButSelf<A(!new)>(l: Lens<A>, ws: seq<A>)
    requires Lawful(l)
    ensures SameBut(l, ws, ws)
  { }

  /** In the inner loop at `j`: what the rest of the row will make of the present state. */
  predicate RowSoFar(was: seq<Body>, now: seq<Body>, i: nat, j: nat, last: Body, others: seq<Body>) {
    && i < j <= |now| == |was| && |others| == |was| - i - 1
    && now[..i] == was[..i]
    && Row(now[i], now[j..]) == (last, others[j - i - 1..])
    && now[i + 1..j] == others[..j - i - 1]
  }

  lemma RowStep(was: seq<Body>, here: seq<Body>, now: seq<Body>, i: nat, j: nat, last: Body, others: seq<Body>)
    requires RowSoFar(was, here, i, j, last, others) && j < |here|
    requires now == here[i := Resolve(here[i], here[j]).0][j := Resolve(here[i], here[j]).1]
    ensures RowSoFar(was, now, i, j + 1, last, others)
  {
    hide Resolve;
    var pair := Resolve(here[i], here[j]);
    assert here[j..][0] == here[j] && here[j..][1..] == here[j + 1..] == now[j + 1..];
    var r := Row(pair.0, here[j + 1..]);
    assert Row(here[i], here[j..]) == (r.0, [pair.1] + r.1);
    assert others[j - i - 1..][0] == others[j - i - 1] == pair.1;
    assert others[j - i - 1..][1..] == others[j - i..] == r.1;
    assert now[i + 1..j + 1] == here[i + 1..j] + [pair.1];
    assert others[..j - i] == others[..j - i - 1] + [pair.1];
  }

  lemma RowDone(was: seq<Body>, now: seq<Body>, i: nat, last: Body, others: seq<Body>)
    requires RowSoFar(was, now, i, |now|, last, others)
    ensures now[..i] == was[..i] && now[i] == last && now[i + 1..] == others
  {
    assert now[|now|..] == [];
    assert now[i + 1..] == now[i + 1..|now|] == others[..|others|] == others;
  }

  lemma SeparateFirst(bs: seq<Body>)
    requires bs != []
    ensures Separate(bs) == [Row(bs[0], bs[1..]).0] + Separate(Row(bs[0], bs[1..]).1)
  { }

  lemma SeparateSplit(bs: seq<Body>, i: nat, now: seq<Body>)
    requires i < |bs| == |now|
    requires now[..i] == bs[..i] && (now[i], now[i + 1..]) == Row(bs[i], bs[i + 1..])
    ensures bs[..i] + Separate(bs[i..]) == now[..i + 1] + Separate(now[i + 1..])
  {
    hide Row, Resolve, Separate;
    SeparateFirst(bs[i..]);
    assert bs[i..][0] == bs[i] && bs[i..][1..] == bs[i + 1..];
    assert now[..i + 1] == bs[..i] + [now[i]];
    var tail := Separate(now[i + 1..]);
    assert bs[..i] + ([now[i]] + tail) == (bs[..i] + [now[i]]) + tail;
  }

  /** All pairs: the outer loop. */
  method RelaxInPlace<A(!new)>(l: Lens<A>, w: array<A>)
    requires Lawful(l)
    modifies w
    ensures SameBut(l, old(w[..]), w[..])
    ensures BodiesOf(l, w[..]) == Separate(BodiesOf(l, old(w[..])))
  {
    hide Row, Resolve, Separate, Lawful, SameBut;
    ghost var start := BodiesOf(l, w[..]);
    SameButSelf(l, w[..]);
    assert start[0..] == start && start[..0] == [] && [] + Separate(start) == Separate(start);
    for i := 0 to w.Length
      invariant SameBut(l, old(w[..]), w[..])
      invariant Separate(start) == BodiesOf(l, w[..])[..i] + Separate(BodiesOf(l, w[..])[i..])
    {
      ghost var here, ws := BodiesOf(l, w[..]), w[..];
      RowInPlace(l, w, i);
      SameButTrans(l, old(w[..]), ws, w[..]);
      SeparateSplit(here, i, BodiesOf(l, w[..]));
    }
    SeparateNone();
    ghost var end := BodiesOf(l, w[..]);
    assert end[w.Length..] == [] && end[..w.Length] + [] == end;
  }

  lemma SeparateNone()
    ensures Separate([]) == []
  { }

  method BoundInPlace<A(!new)>(l: Lens<A>, w: array<A>)
    requires Lawful(l)
    modifies w
    ensures SameBut(l, old(w[..]), w[..])
    ensures BodiesOf(l, w[..]) == AllBounded(BodiesOf(l, old(w[..])))
  {
    hide Bounded, Lawful, SameBut;
    ghost var start := BodiesOf(l, w[..]);
    SameButSelf(l, w[..]);
    for k := 0 to w.Length
      invariant SameBut(l, old(w[..]), w[..])
      invariant forall n :: 0 <= n < w.Length ==> l.body(w[n]) == if n < k then Bounded(start[n]) else start[n]
    {
      ghost var ws := w[..];
      var b := Bounded(l.body(w[k]));
      BoundedSolid(l.body(w[k]));
      PutBody(l, ws, k, b);
      SameButTrans(l, old(w[..]), ws, ws[k := l.put(ws[k], b)]);
      ghost var next := BodiesOf(l, ws)[k := b];
      w[k] := l.put(w[k], b);
      assert w[..] == ws[k := l.put(ws[k], b)];
      assert forall n :: 0 <= n < w.Length ==> l.body(w[n]) == next[n];
    }
  }

  lemma BoundedSolid(b: Body)
    ensures Bounded(b).solid == b.solid
  { }

  /** The whole pass: nested loops over the actors, then the bounds for each of them. */
  method SeparateInPlace<A(!new)>(l: Lens<A>, w: array<A>)
    requires Lawful(l)
    modifies w
    ensures w[..] == Placed(l, old(w[..]), AllBounded(Separate(BodiesOf(l, old(w[..])))))
  {
    hide Bounded, Lawful, SameBut, Separate;
    RelaxInPlace(l, w);
    ghost var ws := w[..];
    BoundInPlace(l, w);
    SameButTrans(l, old(w[..]), ws, w[..]);
    SameButIsPlaced(l, old(w[..]), w[..]);
  }
}
