/** What becomes of departed members over whole runs: one is lost if and only if its leave was queued in
    another room than its own, and then it is never removed again. */
module Leak {
  import opened Sessions
  import opened Inputs
  import opened Rooms
  import opened Lifetime
  import opened LifetimeInv
  import opened LifetimeDeltas
  import opened LifetimeSteps
  import opened LifetimeMove
  import opened LifetimeRuns
  import opened Tracking

  /** Step `j` queues the leave of session `s` in another room than the one it sits in. */
  predicate StaleAt(states: seq<State>, actions: seq<Action>, j: nat, s: nat)
    requires j < |actions| && j < |states| && Shape(states[j])
  {
    StalePush(states[j], actions[j]) && actions[j].s == s
  }

  ghost predicate StaleBefore(states: seq<State>, actions: seq<Action>, k: nat, s: nat)
    requires IsRun(states, actions) && k < |states|
  {
    exists j :: 0 <= j < k && StaleAt(states, actions, j, s)
  }

  /** In every run, whatever the interleaving, a departed member is lost if and only if its own leave was
      queued in another room than its own. */
  lemma {:induction false} RunLeaks(states: seq<State>, actions: seq<Action>, k: nat, s: nat)
    requires IsRun(states, actions) && k < |states| && Inv(states[0])
    ensures Inv(states[k])
    ensures Leaked(states[k], s) <==> Leaked(states[0], s) || StaleBefore(states, actions, k, s)
  {
    hide Inv, Leaked, Shape, Enabled, Apply, StalePush;
    if k > 0 {
      RunLeaks(states, actions, k - 1, s);
      StepLeaks(states[k - 1], actions[k - 1], s);
      assert StaleBefore(states, actions, k, s) <==>
        StaleBefore(states, actions, k - 1, s) || StaleAt(states, actions, k - 1, s);
    }
  }

  /** The first `k` steps queue every leave of a member in the member's own room. */
  ghost predicate NoneStale(states: seq<State>, actions: seq<Action>, k: nat)
    requires IsRun(states, actions) && k < |states|
  {
    forall j :: 0 <= j < k ==> !StalePush(states[j], actions[j])
  }

  lemma TrackedIff(st: State)
    requires Shape(st)
    ensures Tracked(st) <==> forall s :: !Leaked(st, s)
  {
    forall s | Leaked(st, s) ensures !Tracked(st) { }
    if forall s :: !Leaked(st, s) {
      forall s | 0 <= s < |st.conns| && Gone(st.conns[s])
        ensures Awaited(st.book.rooms, st.loc[s], s, st.pool.slots[s])
      {
        assert !Leaked(st, s);
      }
    }
  }

  /** Every departed member can be found again if and only if no leave went astray. */
  lemma RunTracked(states: seq<State>, actions: seq<Action>, k: nat)
    requires IsRun(states, actions) && k < |states| && Inv(states[0]) && Tracked(states[0])
    ensures Inv(states[k])
    ensures Tracked(states[k]) <==> NoneStale(states, actions, k)
  {
    hide Inv, Tracked, Leaked, Shape, Enabled, Apply, StalePush;
    RunHolds(states, actions, k);
    TrackedIff(states[0]);
    TrackedIff(states[k]);
    forall s ensures Leaked(states[k], s) <==> StaleBefore(states, actions, k, s) {
      RunLeaks(states, actions, k, s);
    }
    forall j | 0 <= j < k && StalePush(states[j], actions[j]) ensures !Tracked(states[k]) {
      StaleIsPush(states[j], actions[j]);
      assert StaleAt(states, actions, j, actions[j].s);
      assert StaleBefore(states, actions, k, actions[j].s);
    }
  }

  lemma StaleIsPush(st: State, a: Action)
    requires Shape(st) && StalePush(st, a)
    ensures a.ALeavePush?
  { }

  lemma InvShape(st: State)
    requires Inv(st)
    ensures Shape(st)
  {
    hide Shape;
  }

  lemma StepTracks(st: State, a: Action)
    requires Inv(st) && Tracked(st) && Enabled(st, a) && !StalePush(st, a)
    ensures Inv(Apply(st, a)) && Tracked(Apply(st, a))
  {
    hide Inv, Tracked, Leaked, Shape, Enabled, Apply, StalePush;
    StepKeeps(st, a);
    InvShape(st);
    TrackedIff(st);
    TrackedIff(Apply(st, a));
    forall s ensures !Leaked(Apply(st, a), s) { StepLeaks(st, a, s); }
  }

  /** A room in use has the session as a member. */
  predicate KeepsMember(st: State, s: nat, r: nat, i: nat) {
    && r < |st.book.rooms| && i < |st.book.rooms[r].members| && r !in st.book.free
    && st.book.rooms[r].members[i].used && st.book.rooms[r].members[i].sess == s
  }

  /** Once lost, in every continuation the slot is never freed and some room in use keeps the member for
      ever. */
  lemma LeakIsForever(states: seq<State>, actions: seq<Action>, s: nat, k: nat)
    requires IsRun(states, actions) && k < |states| && Inv(states[0]) && Leaked(states[0], s)
    ensures s < |states[k].pool.slots| && s !in states[k].pool.free
    ensures exists r, i :: KeepsMember(states[k], s, r, i)
  {
    hide Inv, Leaked, Shape, Enabled, Apply;
    RunLeaks(states, actions, k, s);
    LeakShows(states[k], s);
  }

  lemma LeakShows(st: State, s: nat)
    requires Inv(st) && Leaked(st, s)
    ensures s < |st.pool.slots| && s !in st.pool.free
    ensures exists r, i :: KeepsMember(st, s, r, i)
  {
    hide BookShape, JoinInv, ConnInv, PartingInv, ListInv, LoadInv, OpenInv, LeaveInv;
    var r, i := st.loc[s].room, st.loc[s].seat;
    assert LifeOk(r, st.book.rooms[r], st.home[r], st.workers, st.conns, st.lock);
    if st.home[r].InFree? { VacantSeats(st.book.rooms, st.seatBy, st.loc, r); }
    assert KeepsMember(st, s, r, i);
  }

  // ---- Leaves that no transfer can overtake -----------------------------------------------

  /** Some member of the room has read its room number and not yet queued its leave. */
  ghost predicate LeaveInFlight(st: State, r: nat) {
    exists s :: 0 <= s < |st.conns| && s < |st.loc| &&
      st.conns[s].Leaving? && IsSeated(st.loc[s]) && st.loc[s].room == r
  }

  /** A leave can go astray only by a transfer of the member's room between the leave's two halves. */
  lemma StaysAimed(st: State, a: Action, s: nat)
    requires Inv(st) && Enabled(st, a) && !StalePush(st, ALeavePush(s))
    requires a.AMove? ==> !LeaveInFlight(st, RoomAt(st, a.w))
    ensures !StalePush(Apply(st, a), ALeavePush(s))
  {
    hide Inv, Shape, Enabled, Apply, StalePush, LeaveInFlight;
    if NetAction(a) { NetAimed(st, a, s); } else { WorkerAimed(st, a, s); }
  }

  lemma NetAimed(st: State, a: Action, s: nat)
    requires Inv(st) && Enabled(st, a) && !StalePush(st, ALeavePush(s)) && NetAction(a)
    ensures !StalePush(Apply(st, a), ALeavePush(s))
  {
    hide BookShape, ConnShape, WorkerShape, SeatInv, JoinInv, MemberInv, RefInv, PartingInv;
    hide FreeInv, ListInv, LoadInv, OpenInv, LifeInv, LeaveInv, FirstVacant, LeastBusy;
  }

  lemma WorkerAimed(st: State, a: Action, s: nat)
    requires Inv(st) && Enabled(st, a) && !StalePush(st, ALeavePush(s)) && !NetAction(a)
    requires a.AMove? ==> !LeaveInFlight(st, RoomAt(st, a.w))
    ensures !StalePush(Apply(st, a), ALeavePush(s))
  {
    hide BookShape, ConnShape, WorkerShape, SeatInv, JoinInv, MemberInv, RefInv, PartingInv;
    hide FreeInv, ListInv, LoadInv, OpenInv, LifeInv, LeaveInv, SwapRemove, TickMembers, MoveBook, Rehome;
  }

  /** No room is transferred while a leave of one of its members is in flight. */
  ghost predicate LeavesAtomic(states: seq<State>, actions: seq<Action>)
    requires IsRun(states, actions)
  {
    forall k :: 0 <= k < |actions| && actions[k].AMove? ==>
      !LeaveInFlight(states[k], RoomAt(states[k], actions[k].w))
  }

  lemma {:induction false} RunAimed(states: seq<State>, actions: seq<Action>, k: nat, s: nat)
    requires IsRun(states, actions) && k < |states| && Inv(states[0]) && LeavesAtomic(states, actions)
    requires !StalePush(states[0], ALeavePush(s))
    ensures !StalePush(states[k], ALeavePush(s))
  {
    hide Inv, Shape, Enabled, Apply, StalePush, LeaveInFlight;
    if k > 0 {
      RunAimed(states, actions, k - 1, s);
      RunHolds(states, actions, k - 1);
      StaysAimed(states[k - 1], actions[k - 1], s);
    }
  }

  /** Were no room transferred between the two halves of a member's leave, no leave would go astray and
      every departed member could be found again. */
  lemma AtomicLeavesTrack(states: seq<State>, actions: seq<Action>, k: nat)
    requires IsRun(states, actions) && k < |states| && Inv(states[0]) && Tracked(states[0])
    requires forall s :: !StalePush(states[0], ALeavePush(s))
    requires LeavesAtomic(states, actions)
    ensures NoneStale(states, actions, k) && Tracked(states[k])
  {
    hide Inv, Tracked, Shape, Enabled, Apply, StalePush, LeavesAtomic;
    forall j | 0 <= j < k ensures !StalePush(states[j], actions[j]) {
      if StalePush(states[j], actions[j]) {
        StaleIsPush(states[j], actions[j]);
        RunAimed(states, actions, j, actions[j].s);
      }
    }
    RunTracked(states, actions, k);
  }
}
