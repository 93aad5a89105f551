/** A game worker goes over its list of rooms once per tick; rooms that die are taken out of the list
    while it is being gone over. */
module TickList {
  import opened Rooms

  /** What becomes of a room in its turn. */
  datatype Fate = Dies | Stays | MovesTo(room: nat)

  /** The list with entry `i` taken out. */
  function Without(s: seq<nat>, i: nat): (t: seq<nat>)
    requires i < |s|
    ensures |t| == |s| - 1
  {
    s[i := s[|s| - 1]][..|s| - 1]
  }

  /** The list after the pass, from position `i` on. */
  function Swept(s: seq<nat>, i: nat, fate: nat -> Fate): (t: seq<nat>)
    requires i <= |s|
    ensures i <= |t| <= |s| && t[..i] == s[..i]
    decreases |s| - i
  {
    if i == |s| then s
    else
      match fate(s[i])
      case Dies => Swept(Without(s, i), i, fate)
      case Stays => Swept(s, i + 1, fate)
      case MovesTo(r) => Swept(s[i := r], i + 1, fate)
  }

  /** The rooms in the order in which they are visited. */
  function Visits(s: seq<nat>, i: nat, fate: nat -> Fate): seq<nat>
    requires i <= |s|
    decreases |s| - i
  {
    if i == |s| then []
    else [s[i]] + (if fate(s[i]).Dies? then Visits(Without(s, i), i, fate) else Visits(s, i + 1, fate))
  }

  /** Taking one out by moving the last into its place leaves the others. */
  lemma Dropped(s: seq<nat>, i: nat)
    requires i < |s|
    ensures var t := Without(s, i);
      multiset(t[i..]) + multiset{s[i]} == multiset(s[i..]) && t[..i] == s[..i]
  {
    var last := |s| - 1;
    var t := Without(s, i);
    if i == last {
      assert t[i..] == [] && s[i..] == [s[i]];
    } else {
      assert t[i..] == [s[last]] + s[i + 1..last];
      assert s[i..] == [s[i]] + s[i + 1..last] + [s[last]];
    }
  }

  lemma OneMore(x: nat, rest: seq<nat>)
    ensures multiset([x] + rest) == multiset{x} + multiset(rest)
  { }

  lemma VisitsFirst(s: seq<nat>, i: nat, fate: nat -> Fate)
    requires i < |s|
    ensures Visits(s, i, fate) ==
      [s[i]] + if fate(s[i]).Dies? then Visits(Without(s, i), i, fate) else Visits(s, i + 1, fate)
  { }

  /** From position `i` on the pass visits every room once. */
  ghost predicate VisitsEach(s: seq<nat>, i: nat, fate: nat -> Fate)
    requires i <= |s|
  {
    multiset(Visits(s, i, fate)) == multiset(s[i..])
  }

  lemma VisitsEachDead(s: seq<nat>, i: nat, fate: nat -> Fate)
    requires i < |s| && fate(s[i]).Dies? && VisitsEach(Without(s, i), i, fate)
    ensures VisitsEach(s, i, fate)
  {
    hide Visits, Without;
    VisitsFirst(s, i, fate);
    Dropped(s, i);
    OneMore(s[i], Visits(Without(s, i), i, fate));
  }

  lemma VisitsEachAlive(s: seq<nat>, i: nat, fate: nat -> Fate)
    requires i < |s| && !fate(s[i]).Dies? && VisitsEach(s, i + 1, fate)
    ensures VisitsEach(s, i, fate)
  {
    hide Visits, Without;
    VisitsFirst(s, i, fate);
    OneMore(s[i], Visits(s, i + 1, fate));
    OneMore(s[i], s[i + 1..]);
    assert s[i..] == [s[i]] + s[i + 1..];
  }

  /** Despite the removals every room of the list is visited exactly once. */
  lemma {:induction false} EveryRoomOnce(s: seq<nat>, i: nat, fate: nat -> Fate)
    requires i <= |s|
    ensures VisitsEach(s, i, fate)
    decreases |s| - i
  {
    if i == |s| {
      assert s[i..] == [];
    } else {
      hide VisitsEach, Without, Visits;
      if fate(s[i]).Dies? {
        EveryRoomOnce(Without(s, i), i, fate);
        VisitsEachDead(s, i, fate);
      } else {
        EveryRoomOnce(s, i + 1, fate);
        VisitsEachAlive(s, i, fate);
      }
    }
  }

  function Outcome(r: nat, fate: nat -> Fate): multiset<nat> {
    match fate(r)
    case Dies => multiset{}
    case Stays => multiset{r}
    case MovesTo(n) => multiset{n}
  }

  function Outcomes(s: seq<nat>, fate: nat -> Fate): multiset<nat> {
    if s == [] then multiset{} else Outcome(s[0], fate) + Outcomes(s[1..], fate)
  }

  lemma {:induction false} OutcomesSplit(a: seq<nat>, b: seq<nat>, fate: nat -> Fate)
    ensures Outcomes(a + b, fate) == Outcomes(a, fate) + Outcomes(b, fate)
  {
    if a == [] {
      assert a + b == b;
    } else {
      assert (a + b)[1..] == a[1..] + b;
      OutcomesSplit(a[1..], b, fate);
    }
  }

  lemma WithoutKeeps(s: seq<nat>, i: nat, fate: nat -> Fate)
    requires i < |s|
    ensures Outcomes(Without(s, i)[i..], fate) == Outcomes(s[i + 1..], fate) && Without(s, i)[..i] == s[..i]
  {
    var last := |s| - 1;
    var t := Without(s, i);
    if i < last {
      var middle := s[i + 1..last];
      assert t[i..] == [s[last]] + middle && s[i + 1..] == middle + [s[last]];
      OutcomesSplit([s[last]], middle, fate);
      OutcomesSplit(middle, [s[last]], fate);
    } else {
      assert t[i..] == [] && s[i + 1..] == [];
    }
  }

  /** From position `i` on the pass turns every room into its outcome. */
  ghost predicate TurnsOut(s: seq<nat>, i: nat, fate: nat -> Fate)
    requires i <= |s|
  {
    multiset(Swept(s, i, fate)) == multiset(s[..i]) + Outcomes(s[i..], fate)
  }

  lemma StaysTurnsOut(s: seq<nat>, i: nat, fate: nat -> Fate)
    requires i < |s| && fate(s[i]).Stays? && TurnsOut(s, i + 1, fate)
    ensures TurnsOut(s, i, fate)
  {
    hide Outcomes;
    FirstOutcome(s, i, fate);
    assert s[..i + 1] == s[..i] + [s[i]];
  }

  lemma MovedTurnsOut(s: seq<nat>, i: nat, fate: nat -> Fate)
    requires i < |s| && fate(s[i]).MovesTo? && TurnsOut(s[i := fate(s[i]).room], i + 1, fate)
    ensures TurnsOut(s, i, fate)
  {
    hide Outcomes;
    FirstOutcome(s, i, fate);
    var r := fate(s[i]).room;
    assert s[i := r][..i + 1] == s[..i] + [r] && s[i := r][i + 1..] == s[i + 1..];
  }

  lemma DeadTurnsOut(s: seq<nat>, i: nat, fate: nat -> Fate)
    requires i < |s| && fate(s[i]).Dies? && TurnsOut(Without(s, i), i, fate)
    ensures TurnsOut(s, i, fate)
  {
    hide Outcomes, Without;
    FirstOutcome(s, i, fate);
    WithoutKeeps(s, i, fate);
  }

  lemma {:induction false} SweptHas(s: seq<nat>, i: nat, fate: nat -> Fate)
    requires i <= |s|
    ensures TurnsOut(s, i, fate)
    decreases |s| - i
  {
    hide TurnsOut, Swept, Outcomes, Without;
    if i == |s| {
      EndTurnsOut(s, fate);
    } else {
      match fate(s[i])
      case Dies =>
        SweptHas(Without(s, i), i, fate);
        DeadTurnsOut(s, i, fate);
      case Stays =>
        SweptHas(s, i + 1, fate);
        StaysTurnsOut(s, i, fate);
      case MovesTo(r) =>
        SweptHas(s[i := r], i + 1, fate);
        MovedTurnsOut(s, i, fate);
    }
  }

  lemma EndTurnsOut(s: seq<nat>, fate: nat -> Fate)
    ensures TurnsOut(s, |s|, fate)
  {
    assert s[..|s|] == s && s[|s|..] == [];
  }

  lemma FirstOutcome(s: seq<nat>, i: nat, fate: nat -> Fate)
    requires i < |s|
    ensures Outcomes(s[i..], fate) == Outcome(s[i], fate) + Outcomes(s[i + 1..], fate)
  {
    assert s[i..][0] == s[i] && s[i..][1..] == s[i + 1..];
  }

  /** After a tick the list holds exactly what the visited rooms became: the dead gone, the moved replaced,
      the others kept, new rooms taken in. */
  lemma TickKeepsList(mine: seq<nat>, mail: seq<nat>, fate: nat -> Fate)
    ensures multiset(Swept(mine + mail, 0, fate)) == Outcomes(mine, fate) + Outcomes(mail, fate)
    ensures multiset(Visits(mine + mail, 0, fate)) == multiset(mine) + multiset(mail)
  {
    SweptHas(mine + mail, 0, fate);
    EveryRoomOnce(mine + mail, 0, fate);
    OutcomesSplit(mine, mail, fate);
    assert (mine + mail)[0..] == mine + mail && (mine + mail)[..0] == [];
  }

  /** Equal from `i` on stays equal from there on, with or without entry `i`. */
  lemma SameAhead(s: seq<nat>, t: seq<nat>, i: nat)
    requires i < |s| == |t| && s[i..] == t[i..]
    ensures s[i] == t[i] && s[i + 1..] == t[i + 1..] && Without(s, i)[i..] == Without(t, i)[i..]
  {
    assert forall k :: i <= k < |s| ==> s[k] == s[i..][k - i] && t[k] == t[i..][k - i];
  }

  /** The order of visits depends only on what is still ahead. */
  lemma {:induction false} VisitsAfter(s: seq<nat>, t: seq<nat>, i: nat, fate: nat -> Fate)
    requires i <= |s| == |t| && s[i..] == t[i..]
    ensures Visits(s, i, fate) == Visits(t, i, fate)
    decreases |s| - i
  {
    if i < |s| {
      hide Visits, Without;
      SameAhead(s, t, i);
      VisitsFirst(s, i, fate);
      VisitsFirst(t, i, fate);
      if fate(s[i]).Dies? {
        VisitsAfter(Without(s, i), Without(t, i), i, fate);
      } else {
        VisitsAfter(s, t, i + 1, fate);
      }
    }
  }

  predicate SameAt(s: seq<nat>, i: nat, f: nat -> Fate, g: nat -> Fate) {
    forall k :: i <= k < |s| ==> f(s[k]) == g(s[k])
  }

  lemma SameWithout(s: seq<nat>, i: nat, f: nat -> Fate, g: nat -> Fate)
    requires i < |s| && SameAt(s, i, f, g)
    ensures SameAt(Without(s, i), i, f, g)
  { }

  /** The pass looks only at the fates of the rooms still ahead. */
  lemma {:induction false} SweptSame(s: seq<nat>, i: nat, f: nat -> Fate, g: nat -> Fate)
    requires i <= |s| && SameAt(s, i, f, g)
    ensures Swept(s, i, f) == Swept(s, i, g)
    decreases |s| - i
  {
    hide Without;
    if i < |s| {
      match f(s[i])
      case Dies =>
        SameWithout(s, i, f, g);
        SweptSame(Without(s, i), i, f, g);
      case Stays => SweptSame(s, i + 1, f, g);
      case MovesTo(r) => SweptSame(s[i := r], i + 1, f, g);
    }
  }

  lemma {:induction false} VisitsSame(s: seq<nat>, i: nat, f: nat -> Fate, g: nat -> Fate)
    requires i <= |s| && SameAt(s, i, f, g)
    ensures Visits(s, i, f) == Visits(s, i, g)
    decreases |s| - i
  {
    hide Without;
    if i < |s| {
      if f(s[i]).Dies? {
        SameWithout(s, i, f, g);
        VisitsSame(Without(s, i), i, f, g);
      } else {
        VisitsSame(s, i + 1, f, g);
      }
    }
  }
}
