/** What happens in the long run: after the last session has closed, with every worker getting its turns,
    everything becomes free again and stays so, exactly when no departed member was lost. */
module Drain {
  import opened Inputs
  import opened Rooms
  import opened Lifetime
  import opened LifetimeInv
  import opened LifetimeRuns
  import opened Tracking
  import opened Leak
  import opened Quiescence

  /** An endless run. */
  ghost predicate Endless(run: nat -> State, acts: nat -> Action) {
    && (forall k: nat :: Shape(run(k)))
    && (forall k: nat :: Enabled(run(k), acts(k)) && run(k + 1) == Apply(run(k), acts(k)))
  }

  predicate ActsAt(acts: nat -> Action, k: nat, w: nat) {
    WorkerAction(acts(k)) && Actor(acts(k)) == w
  }

  ghost predicate TurnFrom(acts: nat -> Action, k: nat, w: nat) {
    exists j: nat :: k <= j && ActsAt(acts, j, w)
  }

  /** No worker is ever put off for good. */
  ghost predicate Fair(acts: nat -> Action, workers: nat) {
    forall w: nat, k: nat :: w < workers ==> TurnFrom(acts, k, w)
  }

  /** At step `c` every session is closed, and none connects afterwards. */
  ghost predicate ClosedFrom(run: nat -> State, acts: nat -> Action, c: nat) {
    && (forall s :: 0 <= s < |run(c).conns| ==> run(c).conns[s].Closed?)
    && (forall k: nat :: c <= k ==> WorkerAction(acts(k)))
  }

  // ---- Stretches of an endless run --------------------------------------------------------

  function Stretch(run: nat -> State, c: nat, k: nat): (states: seq<State>)
    requires c <= k
    ensures |states| == k - c + 1 && forall i :: 0 <= i <= k - c ==> states[i] == run(c + i)
  {
    seq(k - c + 1, i requires 0 <= i => run(c + i))
  }

  function Turns(acts: nat -> Action, c: nat, k: nat): (actions: seq<Action>)
    requires c <= k
    ensures |actions| == k - c && forall i :: 0 <= i < k - c ==> actions[i] == acts(c + i)
  {
    seq(k - c, i requires 0 <= i => acts(c + i))
  }

  lemma StretchRuns(run: nat -> State, acts: nat -> Action, c: nat, k: nat)
    requires Endless(run, acts) && c <= k
    ensures IsRun(Stretch(run, c, k), Turns(acts, c, k))
  {
    hide Shape, Enabled, Apply;
    var states, actions := Stretch(run, c, k), Turns(acts, c, k);
    forall i | 0 <= i < |actions|
      ensures Enabled(states[i], actions[i]) && states[i + 1] == Apply(states[i], actions[i])
    {
      assert states[i + 1] == run(c + i + 1);
    }
  }

  lemma EndlessHolds(run: nat -> State, acts: nat -> Action, k: nat)
    requires Endless(run, acts) && Inv(run(0))
    ensures Inv(run(k))
  {
    hide Inv, Endless, IsRun;
    StretchRuns(run, acts, 0, k);
    RunHolds(Stretch(run, 0, k), Turns(acts, 0, k), k);
  }

  // ---- Every pass comes to its end --------------------------------------------------------

  lemma {:induction false} WorkersStay(run: nat -> State, acts: nat -> Action, k: nat)
    requires Endless(run, acts)
    ensures |run(k).workers| == |run(0).workers|
  {
    hide Shape, Enabled, Apply;
    if k > 0 {
      WorkersStay(run, acts, k - 1);
      SameWorkers(run(k - 1), acts(k - 1));
    }
  }

  lemma SameWorkers(st: State, a: Action)
    requires Shape(st) && Enabled(st, a)
    ensures |Apply(st, a).workers| == |st.workers|
  {
    hide BookShape, ConnShape, WorkerShape, SwapRemove, TickMembers, Rehome, MoveBook, LeastBusy, FirstVacant;
  }

  lemma {:induction false} StaysDeserted(run: nat -> State, acts: nat -> Action, c: nat, k: nat)
    requires Endless(run, acts) && ClosedFrom(run, acts, c) && Inv(run(0)) && c <= k
    ensures Deserted(run(k))
    decreases k - c
  {
    hide Inv, Shape, Enabled, Apply, WorkerAction;
    EndlessHolds(run, acts, k);
    if k > c {
      StaysDeserted(run, acts, c, k - 1);
      DesertedStep(run(k - 1), acts(k - 1));
    }
  }

  /** The next turn of worker `w`. */
  lemma {:induction false} NextTurn(acts: nat -> Action, w: nat, k: nat, j: nat) returns (i: nat)
    requires k <= j && ActsAt(acts, j, w)
    ensures k <= i <= j && ActsAt(acts, i, w)
    ensures forall m :: k <= m < i ==> !ActsAt(acts, m, w)
    decreases j - k
  {
    if ActsAt(acts, k, w) {
      i := k;
    } else {
      i := NextTurn(acts, w, k + 1, j);
    }
  }

  ghost predicate Draining(run: nat -> State, acts: nat -> Action, c: nat, w: nat) {
    && Endless(run, acts) && ClosedFrom(run, acts, c) && Inv(run(0)) && Fair(acts, |run(0).workers|)
    && w < |run(0).workers|
  }

  predicate SameStanding(st: State, t: State, w: nat)
    requires Shape(st) && Shape(t)
  {
    && w < |st.workers| == |t.workers| && st.workers[w].pc == t.workers[w].pc
    && Remaining(st, w) == Remaining(t, w)
  }

  /** Until its next turn a worker stays where it is. */
  lemma {:induction false} Waits(run: nat -> State, acts: nat -> Action, c: nat, w: nat, k: nat, i: nat)
    requires Draining(run, acts, c, w) && c <= k <= i
    requires forall m :: k <= m < i ==> !ActsAt(acts, m, w)
    ensures SameStanding(run(k), run(i), w)
    decreases i - k
  {
    hide Inv, Shape, Enabled, Apply, Remaining, Fair, WorkerAction, ActsAt;
    WorkersStay(run, acts, k);
    if k < i {
      Waits(run, acts, c, w, k, i - 1);
      StaysDeserted(run, acts, c, i - 1);
      WaitsOne(run(i - 1), acts, i - 1, w);
    }
  }

  lemma WaitsOne(st: State, acts: nat -> Action, k: nat, w: nat)
    requires Deserted(st) && w < |st.workers| && Enabled(st, acts(k)) && WorkerAction(acts(k)) && !ActsAt(acts, k, w)
    ensures Shape(Apply(st, acts(k))) && SameStanding(st, Apply(st, acts(k)), w)
  {
    hide Inv, Shape, Enabled, Apply, Remaining, Less;
    DesertedInv(st);
    PassEnds(st, acts(k), w);
    ListsKept(st, acts(k), w);
  }

  predicate IsIdle(st: State, w: nat) { w < |st.workers| && st.workers[w].pc.Idle? }

  lemma OwnTurn(st: State, a: Action, w: nat)
    requires Deserted(st) && w < |st.workers| && Enabled(st, a) && WorkerAction(a) && Actor(a) == w
    ensures Shape(Apply(st, a)) && w < |Apply(st, a).workers|
    ensures IsIdle(st, w) <==> a == ABegin(w)
    ensures IsIdle(Apply(st, a), w) <==> a == AEnd(w)
    ensures a != ABegin(w) ==> Less(Remaining(Apply(st, a), w), Remaining(st, w))
  {
    hide Inv, Shape, Enabled, Apply, Remaining, Less, IsIdle, WorkerAction;
    DesertedInv(st);
    OwnPc(st, a, w);
    if a != ABegin(w) { PassEnds(st, a, w); }
  }

  /** Only Begin leaves the idle state and only End enters it. */
  lemma OwnPc(st: State, a: Action, w: nat)
    requires Shape(st) && w < |st.workers| && Enabled(st, a) && WorkerAction(a) && Actor(a) == w
    ensures w < |Apply(st, a).workers|
    ensures IsIdle(st, w) <==> a == ABegin(w)
    ensures IsIdle(Apply(st, a), w) <==> a == AEnd(w)
  {
    hide Shape, Enabled, Apply, IsIdle;
    if a.AJoinOne? || a.ALeaveOne? || a.AReturn? || a.ACheck? {
      OwnBatch(st, a, w);
    } else {
      OwnOther(st, a, w);
    }
  }

  lemma OwnOther(st: State, a: Action, w: nat)
    requires Shape(st) && w < |st.workers| && Enabled(st, a) && WorkerAction(a) && Actor(a) == w
    requires !(a.AJoinOne? || a.ALeaveOne? || a.AReturn? || a.ACheck?)
    ensures w < |Apply(st, a).workers|
    ensures IsIdle(st, w) <==> a == ABegin(w)
    ensures IsIdle(Apply(st, a), w) <==> a == AEnd(w)
  {
    hide BookShape, ConnShape, WorkerShape, MoveBook, Rehome, TickMembers, SwapRemove;
  }

  lemma OwnBatch(st: State, a: Action, w: nat)
    requires Shape(st) && w < |st.workers| && Enabled(st, a)
    requires a == AJoinOne(w) || a == ALeaveOne(w) || a == AReturn(w) || a == ACheck(w)
    ensures w < |Apply(st, a).workers| && !IsIdle(st, w) && !IsIdle(Apply(st, a), w)
  {
    hide BookShape, ConnShape, WorkerShape;
  }

  /** Since every worker gets its turns every pass ends. */
  lemma {:induction false} PassFinishes(run: nat -> State, acts: nat -> Action, c: nat, w: nat, k: nat) returns (e: nat)
    requires Draining(run, acts, c, w) && c <= k && w < |run(k).workers|
    ensures k <= e && acts(e) == AEnd(w)
    decreases IsIdle(run(k), w), Remaining(run(k), w).0, Remaining(run(k), w).1
  {
    hide Inv, Shape, Enabled, Apply, Remaining, WorkerAction, Deserted;
    assert TurnFrom(acts, k, w);
    var j: nat :| k <= j && ActsAt(acts, j, w);
    var i := NextTurn(acts, w, k, j);
    Waits(run, acts, c, w, k, i);
    StaysDeserted(run, acts, c, i);
    OwnTurn(run(i), acts(i), w);
    if acts(i) == AEnd(w) {
      e := i;
    } else {
      e := PassFinishes(run, acts, c, w, i + 1);
    }
  }

  /** Another pass then begins and ends. */
  lemma FullPass(run: nat -> State, acts: nat -> Action, c: nat, w: nat) returns (b: nat, e: nat)
    requires Draining(run, acts, c, w)
    ensures c <= b < e && acts(b) == ABegin(w) && acts(e) == AEnd(w)
  {
    hide Inv, Shape, Enabled, Apply, Remaining, WorkerAction, Deserted;
    WorkersStay(run, acts, c);
    var d := PassFinishes(run, acts, c, w, c);
    StaysDeserted(run, acts, c, d);
    WorkersStay(run, acts, d);
    OwnTurn(run(d), acts(d), w);
    assert TurnFrom(acts, d + 1, w);
    var j: nat :| d + 1 <= j && ActsAt(acts, j, w);
    b := NextTurn(acts, w, d + 1, j);
    Waits(run, acts, c, w, d + 1, b);
    StaysDeserted(run, acts, c, b);
    OwnTurn(run(b), acts(b), w);
    WorkersStay(run, acts, b + 1);
    e := PassFinishes(run, acts, c, w, b + 1);
  }

  // ---- Everything becomes free ------------------------------------------------------------

  /** Worker `w` began and ended a pass between the steps `c` and `n`. */
  ghost predicate PassedBy(acts: nat -> Action, c: nat, n: nat, w: nat) {
    exists b: nat, e: nat :: c <= b < e < n && acts(b) == ABegin(w) && acts(e) == AEnd(w)
  }

  lemma {:induction false} AllPass(run: nat -> State, acts: nat -> Action, c: nat, workers: nat) returns (n: nat)
    requires Endless(run, acts) && ClosedFrom(run, acts, c) && Inv(run(0)) && Fair(acts, |run(0).workers|)
    requires workers <= |run(0).workers|
    ensures c <= n && forall w: nat :: w < workers ==> PassedBy(acts, c, n, w)
  {
    hide Inv, Endless, ClosedFrom, Fair;
    if workers == 0 {
      n := c;
    } else {
      var m := AllPass(run, acts, c, workers - 1);
      assert Draining(run, acts, c, workers - 1);
      var b, e := FullPass(run, acts, c, workers - 1);
      n := if m <= e then e + 1 else m;
      forall w: nat | w < workers ensures PassedBy(acts, c, n, w) {
        if w < workers - 1 {
          assert PassedBy(acts, c, m, w);
          var b2: nat, e2: nat :| c <= b2 < e2 < m && acts(b2) == ABegin(w) && acts(e2) == AEnd(w);
          assert c <= b2 < e2 < n && acts(b2) == ABegin(w) && acts(e2) == AEnd(w);
        } else {
          assert c <= b < e < n && acts(b) == ABegin(w) && acts(e) == AEnd(w);
        }
      }
    }
  }

  /** Nothing is in use at step `n` or later. */
  ghost predicate FreeFrom(run: nat -> State, n: nat) {
    forall k: nat :: n <= k ==> AllFree(run(k))
  }

  lemma CalmDrains(run: nat -> State, acts: nat -> Action, c: nat) returns (n: nat)
    requires Endless(run, acts) && ClosedFrom(run, acts, c) && Inv(run(0)) && Fair(acts, |run(0).workers|)
    requires Calm(run(c))
    ensures FreeFrom(run, n)
  {
    hide Inv, Endless, Calm, Fair, AllFree, PassedBy, WorkerAction;
    n := AllPass(run, acts, c, |run(0).workers|);
    forall k: nat | n <= k ensures AllFree(run(k)) {
      StretchRuns(run, acts, c, k);
      WorkersStay(run, acts, k);
      var states, actions := Stretch(run, c, k), Turns(acts, c, k);
      forall w | 0 <= w < |states[|actions|].workers| ensures MadePass(actions, w) {
        assert PassedBy(acts, c, n, w);
        PassedHere(acts, c, n, k, w);
      }
      DrainedRun(states, actions);
    }
  }

  lemma PassedHere(acts: nat -> Action, c: nat, n: nat, k: nat, w: nat)
    requires PassedBy(acts, c, n, w) && c <= n <= k
    ensures MadePass(Turns(acts, c, k), w)
  {
    var b: nat, e: nat :| c <= b < e < n && acts(b) == ABegin(w) && acts(e) == AEnd(w);
    assert Turns(acts, c, k)[b - c] == ABegin(w) && Turns(acts, c, k)[e - c] == AEnd(w);
  }

  /** A member lost at step `j` keeps its slot from being free ever after. */
  lemma LostStays(run: nat -> State, acts: nat -> Action, j: nat, k: nat)
    requires Endless(run, acts) && Inv(run(0)) && StalePush(run(j), acts(j)) && j < k
    ensures !AllFree(run(k))
  {
    hide Inv, Shape, Enabled, Apply, StalePush, Leaked;
    StaleIsPush(run(j), acts(j));
    var s := acts(j).s;
    EndlessHolds(run, acts, j);
    StepLeaks(run(j), acts(j), s);
    StretchRuns(run, acts, j + 1, k);
    LeakIsForever(Stretch(run, j + 1, k), Turns(acts, j + 1, k), s, k - (j + 1));
  }

  lemma NoneLostDrains(run: nat -> State, acts: nat -> Action, c: nat) returns (n: nat)
    requires Endless(run, acts) && ClosedFrom(run, acts, c) && Inv(run(0)) && Fair(acts, |run(0).workers|)
    requires Tracked(run(0)) && forall j: nat :: !StalePush(run(j), acts(j))
    ensures FreeFrom(run, n)
  {
    hide Inv, Shape, Enabled, Apply, Fair, AllFree, StalePush, Tracked, FreeFrom;
    StretchRuns(run, acts, 0, c);
    RunTracked(Stretch(run, 0, c), Turns(acts, 0, c), c);
    StaysDeserted(run, acts, c, c);
    n := CalmDrains(run, acts, c);
  }

  lemma StartWorkers(sessions: nat, rooms: nat, workers: nat)
    requires workers > 0
    ensures |Start(sessions, rooms, workers).workers| == workers
  { }

  /** From start-up, through any traffic, to the last disconnection and beyond: if no worker is put off for
      good, a time comes from which every session slot and every room is free, if and only if no leave of
      a member was ever queued in another room than the member's own. */
  lemma EventuallyFree(run: nat -> State, acts: nat -> Action, c: nat, sessions: nat, rooms: nat, workers: nat)
    requires workers > 0 && run(0) == Start(sessions, rooms, workers)
    requires Endless(run, acts) && ClosedFrom(run, acts, c) && Fair(acts, workers)
    ensures (exists n: nat :: FreeFrom(run, n)) <==> (forall j: nat :: !StalePush(run(j), acts(j)))
  {
    hide Inv, Shape, Enabled, Apply, ClosedFrom, Fair, AllFree, StalePush, Tracked, Start;
    StartTracked(sessions, rooms, workers);
    StartWorkers(sessions, rooms, workers);
    if forall j: nat :: !StalePush(run(j), acts(j)) {
      var n := NoneLostDrains(run, acts, c);
      assert FreeFrom(run, n);
    } else {
      var j: nat :| StalePush(run(j), acts(j));
      forall n: nat ensures !FreeFrom(run, n) {
        var k := if n <= j then j + 1 else n;
        LostStays(run, acts, j, k);
      }
    }
  }

  // ---- Such runs exist --------------------------------------------------------------------

  function WhoseTurn(m: nat, k: nat): (w: nat)
    requires m > 0
    ensures w < m
  {
    if k == 0 then 0
    else
      var v := WhoseTurn(m, k - 1);
      if v + 1 < m then v + 1 else 0
  }

  /** Once everybody has left, the workers taking turns. */
  ghost function RoundRobin(st: State, k: nat): State
    requires Deserted(st) && st.workers != []
    ensures Deserted(RoundRobin(st, k)) && Shape(RoundRobin(st, k)) && |RoundRobin(st, k).workers| == |st.workers|
  {
    if k == 0 then st
    else
      var u := RoundRobin(st, k - 1);
      var w := WhoseTurn(|st.workers|, k - 1);
      TurnKeeps(u, w);
      Apply(u, NextAction(u, w))
  }

  lemma TurnKeeps(u: State, w: nat)
    requires Deserted(u) && w < |u.workers|
    ensures Enabled(u, NextAction(u, w)) && Deserted(Apply(u, NextAction(u, w)))
    ensures |Apply(u, NextAction(u, w)).workers| == |u.workers|
  {
    hide Inv, Shape, Enabled, Apply, NextAction;
    DesertedInv(u);
    NeverStuck(u, w);
    DesertedStep(u, NextAction(u, w));
    SameWorkers(u, NextAction(u, w));
  }

  ghost function TurnOf(st: State, k: nat): Action
    requires Deserted(st) && st.workers != []
  {
    NextAction(RoundRobin(st, k), WhoseTurn(|st.workers|, k))
  }

  lemma RoundStep(st: State, k: nat)
    requires Deserted(st) && st.workers != []
    ensures Enabled(RoundRobin(st, k), TurnOf(st, k))
    ensures RoundRobin(st, k + 1) == Apply(RoundRobin(st, k), TurnOf(st, k))
    ensures WorkerAction(TurnOf(st, k)) && Actor(TurnOf(st, k)) == WhoseTurn(|st.workers|, k)
  {
    hide Inv, Shape, Enabled, Apply, NextAction, WorkerAction, Deserted;
    NeverStuck(RoundRobin(st, k), WhoseTurn(|st.workers|, k));
  }

  lemma {:induction false} TurnComes(m: nat, k: nat, w: nat) returns (j: nat)
    requires w < m
    ensures k <= j && WhoseTurn(m, j) == w
    decreases if WhoseTurn(m, k) <= w then w - WhoseTurn(m, k) else w + m - WhoseTurn(m, k)
  {
    if WhoseTurn(m, k) == w {
      j := k;
    } else {
      j := TurnComes(m, k + 1, w);
    }
  }

  ghost predicate Continues(st: State, run: nat -> State, acts: nat -> Action) {
    run(0) == st && Endless(run, acts) && Fair(acts, |st.workers|) && ClosedFrom(run, acts, 0)
  }

  /** From every state with everybody gone there is an endless run in which each worker gets its turns. */
  lemma FairRunExists(st: State)
    requires Deserted(st) && st.workers != []
    ensures exists run, acts :: Continues(st, run, acts)
  {
    hide Inv, Shape, Enabled, Apply, WorkerAction, Deserted, RoundRobin, TurnOf;
    DesertedInv(st);
    var m := |st.workers|;
    var run := (k: nat) => RoundRobin(st, k);
    var acts := (k: nat) => TurnOf(st, k);
    forall k: nat
      ensures Shape(run(k)) && Enabled(run(k), acts(k))
      ensures run(k + 1) == Apply(run(k), acts(k)) && ActsAt(acts, k, WhoseTurn(m, k))
    {
      RoundStep(st, k);
    }
    forall w: nat, k: nat | w < m ensures TurnFrom(acts, k, w) {
      var j := TurnComes(m, k, w);
      assert ActsAt(acts, j, WhoseTurn(m, j));
    }
    RoundStart(st);
    forall k: nat ensures WorkerAction(acts(k)) { RoundStep(st, k); }
    assert Continues(st, run, acts);
  }

  lemma RoundStart(st: State)
    requires Deserted(st) && st.workers != []
    ensures RoundRobin(st, 0) == st && forall s :: 0 <= s < |st.conns| ==> st.conns[s].Closed?
  { }
}
