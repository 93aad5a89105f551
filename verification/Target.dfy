/** Choosing whom to dash at: the farthest enemy ahead, the smaller id on a tie, the same for every
    order of the actors. */
module Target {
  import opened Bodies
  import opened Combat

  /** `b` is the best candidate of `ts`: a candidate, and better than every other one. */
  ghost predicate IsBest(caster: Actor, ts: seq<Actor>, b: Actor) {
    b in ts && IsCandidate(caster, b) &&
    forall t :: t in ts && IsCandidate(caster, t) && t.id != b.id ==> Better(caster, b, t)
  }

  ghost predicate SameIdSameActor(ts: seq<Actor>) {
    forall a, b :: a in ts && b in ts && a.id == b.id ==> a == b
  }

  /** Among candidates with distinct ids one is better than the other. */
  lemma BetterIsTotal(caster: Actor, a: Actor, b: Actor, c: Actor)
    ensures a.id != b.id ==> Better(caster, a, b) || Better(caster, b, a)
    ensures !(Better(caster, a, b) && Better(caster, b, a))
    ensures Better(caster, a, b) && Better(caster, b, c) ==> Better(caster, a, c)
  { }

  /** The scan finds the best of what it had and what is still to come. */
  lemma {:induction false} ScanFindsBest(caster: Actor, seen: seq<Actor>, ts: seq<Actor>, best: Option<Actor>)
    requires SameIdSameActor(seen + ts)
    requires best.Some? ==> IsBest(caster, seen, best.value)
    requires best.None? ==> forall t :: t in seen ==> !IsCandidate(caster, t)
    ensures var r := FindTarget(caster, ts, best);
      && (r.Some? ==> IsBest(caster, seen + ts, r.value))
      && (r.None? ==> forall t :: t in seen + ts ==> !IsCandidate(caster, t))
    decreases |ts|
  {
    if ts == [] {
      assert seen + ts == seen;
    } else {
      hide IsCandidate, Better;
      var t := ts[0];
      assert seen + ts == (seen + [t]) + ts[1..];
      assert t in seen + ts && forall a :: a in seen ==> a in seen + ts;
      forall a, b, c { BetterIsTotal(caster, a, b, c); }
      var next := if IsCandidate(caster, t) && (best.None? || Better(caster, t, best.value)) then Some(t) else best;
      ScanFindsBest(caster, seen + [t], ts[1..], next);
    }
  }

  /** A live enemy at most 720 ahead, the way the caster looks, and at most 40 off in depth. */
  predicate Qualifies(caster: Actor, t: Actor) {
    && t.state != Dead && t.kind != caster.kind && -40.0 <= t.y - caster.y <= 40.0
    && if caster.face == 1 then caster.x < t.x <= caster.x + 720.0
       else caster.x - 720.0 <= t.x < caster.x
  }

  /** No one else who qualifies is farther away, and those as far have larger ids. */
  ghost predicate IsFarthest(caster: Actor, ts: seq<Actor>, b: Actor) {
    && b in ts && Qualifies(caster, b)
    && forall t :: t in ts && Qualifies(caster, t) && t.id != b.id ==>
         Abs(t.x - caster.x) < Abs(b.x - caster.x) || (t.x == b.x && b.id < t.id)
  }

  lemma BestIsFarthest(caster: Actor, ts: seq<Actor>, b: Actor)
    requires caster.face == 1 || caster.face == -1
    ensures forall t :: Qualifies(caster, t) <==> IsCandidate(caster, t)
    ensures IsBest(caster, ts, b) <==> IsFarthest(caster, ts, b)
  {
    if caster.face == 1 {
      assert forall t: Actor :: Ahead(caster, t) == t.x - caster.x;
    } else {
      assert forall t: Actor :: Ahead(caster, t) == caster.x - t.x;
    }
  }

  /** The target is the farthest of those who qualify, the smaller id on a tie, and there is none exactly
      when nobody qualifies. */
  lemma TargetIsFarthest(caster: Actor, ts: seq<Actor>)
    requires SameIdSameActor(ts) && (caster.face == 1 || caster.face == -1)
    ensures var r := FindTarget(caster, ts, None);
      && (r.Some? <==> exists t :: t in ts && Qualifies(caster, t))
      && (forall b :: IsFarthest(caster, ts, b) <==> r == Some(b))
  {
    hide IsFarthest, IsBest, Qualifies, IsCandidate;
    TargetIsBest(caster, ts);
    forall b ensures IsBest(caster, ts, b) <==> IsFarthest(caster, ts, b) { BestIsFarthest(caster, ts, b); }
    BestIsFarthest(caster, ts, caster);
  }

  /** The scan finds the best by the code's own comparison. */
  lemma TargetIsBest(caster: Actor, ts: seq<Actor>)
    requires SameIdSameActor(ts)
    ensures var r := FindTarget(caster, ts, None);
      && (r.Some? <==> exists t :: t in ts && IsCandidate(caster, t))
      && (r.Some? ==> IsBest(caster, ts, r.value))
      && (forall b :: IsBest(caster, ts, b) ==> r == Some(b))
  {
    assert [] + ts == ts;
    ScanFindsBest(caster, [], ts, None);
    var r := FindTarget(caster, ts, None);
    forall b | IsBest(caster, ts, b) ensures r == Some(b) {
      if r.Some? && r.value.id != b.id { BetterIsTotal(caster, b, r.value, b); }
    }
  }

  /** Any two orders of the same actors give the same target, and so the same dash. */
  lemma OrderDoesNotMatter(caster: Actor, ts: seq<Actor>, us: seq<Actor>)
    requires SameIdSameActor(ts) && multiset(ts) == multiset(us)
    ensures FindTarget(caster, ts, None) == FindTarget(caster, us, None)
    ensures DashEnd(caster, FindTarget(caster, ts, None)) == DashEnd(caster, FindTarget(caster, us, None))
  {
    forall a ensures a in ts <==> a in us {
      assert a in ts <==> a in multiset(ts);
      assert a in us <==> a in multiset(us);
    }
    TargetIsBest(caster, ts);
    TargetIsBest(caster, us);
  }

  /** The dash aims 90 past the target, at least 340 ahead and just that without one, and ends earlier only
      at the end of the stage. */
  lemma DashGoesPast(caster: Actor, ts: seq<Actor>)
    requires SameIdSameActor(ts) && (caster.face == 1 || caster.face == -1)
    requires LEFT <= caster.x <= RIGHT
    ensures var to, r := DashEnd(caster, FindTarget(caster, ts, None)), FindTarget(caster, ts, None);
      var aim := if r.Some? && Abs(r.value.x - caster.x) > 250.0 then Abs(r.value.x - caster.x) + 90.0 else 340.0;
      && 20.0 <= to <= 1580.0
      && (to == caster.x + caster.face as real * aim
          || (caster.face == 1 && to == 1580.0 <= caster.x + aim)
          || (caster.face == -1 && to == 20.0 >= caster.x - aim))
  {
    hide IsCandidate, DashEnd;
    TargetIsBest(caster, ts);
    var r := FindTarget(caster, ts, None);
    if r.Some? { CandidateIsAhead(caster, r.value); }
    DashEndIs(caster, r, if r.Some? then Abs(r.value.x - caster.x) else 0.0);
  }

  lemma CandidateIsAhead(caster: Actor, t: Actor)
    requires IsCandidate(caster, t)
    requires caster.face == 1 || caster.face == -1
    ensures Ahead(caster, t) == Abs(t.x - caster.x)
  {
    if caster.face == 1 {
      assert Ahead(caster, t) == t.x - caster.x;
    } else {
      assert Ahead(caster, t) == caster.x - t.x;
    }
  }

  lemma DashEndIs(caster: Actor, r: Option<Actor>, far: real)
    requires (caster.face == 1 || caster.face == -1) && LEFT <= caster.x <= RIGHT
    requires r.Some? ==> Ahead(caster, r.value) == far
    ensures var aim := if r.Some? && far > 250.0 then far + 90.0 else 340.0;
      DashEnd(caster, r) == Clamp(if caster.face == 1 then caster.x + aim else caster.x - aim, LEFT, RIGHT)
  { }
}
