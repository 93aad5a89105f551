/** The tick pacer of a game worker: catch-up, rebase and skip accounting over whole runs. */
module Pacer {
  const PERIOD: int := 1000000000 / 60
  const MAX_STEPS: int := 3

  /** When the next tick is due, and the counters kept beside it. */
  datatype Pace = Pace(next: int, ticks: nat, skipped: nat, rebases: nat)

  /** How many ticks a wake at `now` runs: one, and up to three while it is late. */
  function Steps(next: int, now: int): int {
    if now < next + PERIOD then 1 else if now < next + 2 * PERIOD then 2 else 3
  }

  function Wake(p: Pace, now: int): Pace {
    var n := Steps(p.next, now);
    var next := p.next + n * PERIOD;
    if now >= next then
      Pace(now + PERIOD, p.ticks + n, p.skipped + ((now - next) / PERIOD + 1), p.rebases + 1)
    else
      Pace(next, p.ticks + n, p.skipped, p.rebases)
  }

  class Worker {
    var next: int
    var ticks: nat
    var skipped: nat
    var rebases: nat

    ghost function View(): Pace
      reads this
    {
      Pace(next, ticks, skipped, rebases)
    }

    constructor (first: int)
      ensures View() == Pace(first, 0, 0, 0)
    {
      next, ticks, skipped, rebases := first, 0, 0, 0;
    }

    /** One turn of the worker's loop, with the clock read after it has slept until `next`. */
    method Turn(now: int)
      modifies this
      ensures View() == Wake(old(View()), now)
    {
      ghost var was := View();
      ticks := ticks + 1;
      next := next + PERIOD;
      var steps := 1;
      while now >= next && steps < MAX_STEPS
        invariant 1 <= steps <= MAX_STEPS
        invariant next == was.next + steps * PERIOD && ticks == was.ticks + steps
        invariant steps == 1 || now >= was.next + (steps - 1) * PERIOD
        invariant skipped == was.skipped && rebases == was.rebases
        decreases MAX_STEPS - steps
      {
        ticks := ticks + 1;
        next := next + PERIOD;
        steps := steps + 1;
      }
      assert steps == Steps(was.next, now);
      if now >= next {
        var behind := (now - next) / PERIOD + 1;
        skipped := skipped + behind;
        rebases := rebases + 1;
        next := now + PERIOD;
      }
    }
  }

  /** The schedule has moved by at least one period for every tick run or skipped, and by at most one
      more for every rebase. */
  predicate Accounted(p: Pace, q: Pace) {
    && PERIOD * (q.ticks - p.ticks + (q.skipped - p.skipped)) <= q.next - p.next
    && q.next - p.next <= PERIOD * (q.ticks - p.ticks + (q.skipped - p.skipped) + (q.rebases - p.rebases))
  }

  /** Every wake runs one to three ticks, the next tick is in the future, at most one period away unless
      the worker woke early, and a rebase happens, with skipped ticks, exactly when it is three late. */
  lemma WakeMoves(p: Pace, now: int)
    ensures var q := Wake(p, now);
      && 1 <= q.ticks - p.ticks <= 3
      && now < q.next && (p.next <= now ==> q.next <= now + PERIOD)
      && q.skipped >= p.skipped && p.rebases <= q.rebases <= p.rebases + 1
      && (q.rebases > p.rebases <==> q.skipped > p.skipped)
      && (q.rebases > p.rebases <==> now >= p.next + MAX_STEPS * PERIOD)
      && Accounted(p, q)
  {
    var n := Steps(p.next, now);
    var next := p.next + n * PERIOD;
    if now >= next {
      var late := now - next;
      assert PERIOD * (late / PERIOD) <= late < PERIOD * (late / PERIOD) + PERIOD;
    }
  }

  function Run(p: Pace, nows: seq<int>): Pace
    decreases |nows|
  {
    if nows == [] then p else Run(Wake(p, nows[0]), nows[1..])
  }

  lemma NothingAccounted(p: Pace)
    ensures Accounted(p, p)
  { }

  lemma AccountedTrans(p: Pace, q: Pace, r: Pace)
    requires Accounted(p, q) && Accounted(q, r)
    ensures Accounted(p, r)
  { }

  /** Over any sequence of wakes, ticks run and skipped account for the whole time the schedule has
      moved, up to one period for each rebase. */
  lemma {:induction false} TimeConserved(p: Pace, nows: seq<int>)
    ensures var q := Run(p, nows);
      && Accounted(p, q)
      && |nows| <= q.ticks - p.ticks <= MAX_STEPS * |nows|
      && (nows != [] ==> nows[|nows| - 1] < q.next)
      && q.rebases - p.rebases <= |nows|
      && q.skipped >= p.skipped && q.rebases >= p.rebases
    decreases |nows|
  {
    hide Wake, Accounted;
    if nows == [] {
      NothingAccounted(p);
    } else {
      var q := Wake(p, nows[0]);
      WakeMoves(p, nows[0]);
      TimeConserved(q, nows[1..]);
      AccountedTrans(p, q, Run(p, nows));
      if |nows| > 1 { assert nows[1..][|nows| - 2] == nows[|nows| - 1]; }
    }
  }

  /** No wake of the run is three periods late or more. */
  ghost predicate OnTime(p: Pace, nows: seq<int>)
    decreases |nows|
  {
    nows == [] || (nows[0] < p.next + MAX_STEPS * PERIOD && OnTime(Wake(p, nows[0]), nows[1..]))
  }

  /** The schedule has moved by exactly one period per tick run. */
  predicate OnSchedule(p: Pace, q: Pace) { q.next - p.next == PERIOD * (q.ticks - p.ticks) }

  lemma OnScheduleTrans(p: Pace, q: Pace, r: Pace)
    requires OnSchedule(p, q) && OnSchedule(q, r)
    ensures OnSchedule(p, r)
  { }

  lemma TimelyWake(p: Pace, now: int)
    requires now < p.next + MAX_STEPS * PERIOD
    ensures OnSchedule(p, Wake(p, now))
  { }

  /** Ticks are skipped exactly when some wake is that late; if none is, the schedule is exact. */
  lemma {:induction false} SkipsIffLate(p: Pace, nows: seq<int>)
    ensures Run(p, nows).skipped == p.skipped <==> OnTime(p, nows)
    ensures OnTime(p, nows) ==> OnSchedule(p, Run(p, nows))
    decreases |nows|
  {
    hide Wake, Accounted;
    if nows != [] {
      hide OnSchedule;
      var q := Wake(p, nows[0]);
      WakeMoves(p, nows[0]);
      SkipsIffLate(q, nows[1..]);
      TimeConserved(q, nows[1..]);
      if OnTime(p, nows) {
        TimelyWake(p, nows[0]);
        OnScheduleTrans(p, q, Run(p, nows));
      }
    }
  }
}
