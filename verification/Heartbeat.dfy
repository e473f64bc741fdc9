/** The renewable write lease: the heartbeat that keeps it alive while a provider call runs. All times
    are in milliseconds. */
module Heartbeat {
  import opened Wrappers
  import opened Lifecycle

  const WRITE_LEASE_TTL: nat := 15 * 60 * 1_000
  const PERIOD: nat := WRITE_LEASE_TTL / 3
  /** A timer tick is late only beyond this tolerance; a late tick moves the schedule. */
  const TICK_TOLERANCE: nat := 5

  /** `Failed`: the database reported an error, with or without having renewed. */
  datatype Renewal = Renewed | Failed(applied: bool) | OwnershipLost

  /** One run of a provider call under a heartbeat: tick i fires `lag(i)` after it is due, and its
      renewal takes `takes(i)`, in a transaction that starts `begins(i)` after the tick. */
  datatype Pace = Pace(
    start: nat, every: nat, ttl: nat, leasedUntil: nat, doneAt: nat,
    lag: nat -> nat, takes: nat -> nat, begins: nat -> nat, renewal: nat -> Renewal)

  /** From `at` on the lease row says `until`. */
  datatype Grant = Grant(at: nat, until: nat)

  datatype Beat = Beat(now: nat, due: nat, ticks: seq<nat>, grants: seq<Grant>)

  function First(p: Pace): Beat {
    Beat(p.start, p.start + p.every, [], [Grant(p.start, p.leasedUntil)])
  }

  function Tick(p: Pace, b: Beat, i: nat): nat {
    Max(b.now, b.due) + p.lag(i)
  }

  /** When the transaction of renewal i reads the database clock. */
  function RenewedAt(p: Pace, b: Beat, i: nat): nat {
    Tick(p, b, i) + if p.begins(i) <= p.takes(i) then p.begins(i) else p.takes(i)
  }

  function After(p: Pace, b: Beat, i: nat): Beat {
    var tick := Tick(p, b, i);
    var end, until := tick + p.takes(i), RenewedAt(p, b, i) + p.ttl;
    Beat(end, if tick > b.due + TICK_TOLERANCE then tick + p.every else b.due + p.every,
         b.ticks + [tick],
         if p.renewal(i) == Renewed || p.renewal(i) == Failed(true) then b.grants + [Grant(end, until)] else b.grants)
  }

  /** The run after n renewals. */
  function Beats(p: Pace, n: nat): (b: Beat)
    ensures b.grants != []
  {
    if n == 0 then First(p) else After(p, Beats(p, n - 1), n - 1)
  }

  /** What the lease row says at time t. */
  function LeaseAt(grants: seq<Grant>, t: nat): nat
    requires grants != []
    decreases |grants|
  {
    if |grants| == 1 || grants[|grants| - 1].at <= t then grants[|grants| - 1].until
    else LeaseAt(grants[..|grants| - 1], t)
  }

  /** The operation is polled first, so a tick happens only while it is still running. */
  predicate Finished(p: Pace, b: Beat, i: nat) {
    p.doneAt <= Tick(p, b, i)
  }

  /** The first n ticks found the operation still running and the row still owned. */
  ghost predicate Ran(p: Pace, n: nat) {
    n > 0 ==> Ran(p, n - 1) && !Finished(p, Beats(p, n - 1), n - 1) && p.renewal(n - 1) != OwnershipLost
  }

  /** Runs the operation and renews until it finishes or a renewal finds the row taken; a database
      error is not a loss. The operation's result is returned if it finishes first. */
  method RunWithHeartbeat(p: Pace) returns (finished: Option<nat>, n: nat)
    requires p.every > 0
    ensures Ran(p, n)
    ensures finished.Some? ==> Finished(p, Beats(p, n), n) && finished.value == Max(Beats(p, n).now, p.doneAt)
    ensures finished.None? ==> !Finished(p, Beats(p, n), n) && p.renewal(n) == OwnershipLost
  {
    var b := First(p);
    n := 0;
    while !Finished(p, b, n)
      invariant b == Beats(p, n) && Ran(p, n)
      decreases p.doneAt - b.due
    {
      var renewal := p.renewal(n);
      if renewal == OwnershipLost {
        return None, n;
      }
      b := After(p, b, n);
      n := n + 1;
    }
    finished := Some(Max(b.now, p.doneAt));
  }

  /** Missed ticks are never made up for in a burst: any two consecutive ticks are at least a
      period apart, up to the timer's tolerance. */
  lemma {:induction false} TicksDoNotBurst(p: Pace, n: nat)
    ensures |Beats(p, n).ticks| == n
    ensures n > 0 ==> Beats(p, n).ticks[n - 1] + p.every <= Beats(p, n).due + TICK_TOLERANCE
    ensures forall i | 0 <= i < n - 1 ::
              Beats(p, n).ticks[i] + p.every <= Beats(p, n).ticks[i + 1] + TICK_TOLERANCE
  {
    if n > 0 {
      TicksDoNotBurst(p, n - 1);
    }
  }

  predicate Fails(p: Pace, i: nat) {
    p.renewal(i).Failed?
  }

  function LastGrant(b: Beat): Grant
    requires b.grants != []
  {
    b.grants[|b.grants| - 1]
  }

  /** The last renewal reaches at least to the end of the next one. */
  ghost predicate Covered(p: Pace, n: nat) {
    Beats(p, n + 1).now <= LastGrant(Beats(p, n)).until
  }

  /** Until renewal n is over, which is as long as anything can wait for it, the lease row is never
      past its expiry. */
  ghost predicate InForce(p: Pace, n: nat) {
    forall t: nat | p.start <= t <= Beats(p, n + 1).now :: t <= LeaseAt(Beats(p, n).grants, t)
  }

  lemma {:induction false} GrantsAreVisible(p: Pace, n: nat)
    ensures LastGrant(Beats(p, n)).at <= Beats(p, n).now
  {
    if n > 0 {
      GrantsAreVisible(p, n - 1);
    }
  }

  lemma {:induction false} CoveredIsInForce(p: Pace, n: nat)
    requires forall m: nat | m <= n :: Covered(p, m)
    ensures InForce(p, n)
  {
    var b := Beats(p, n);
    if n > 0 {
      CoveredIsInForce(p, n - 1);
      GrantsAreVisible(p, n);
      forall t: nat | p.start <= t <= Beats(p, n + 1).now ensures t <= LeaseAt(b.grants, t) {
        assert Covered(p, n);
        if b.grants != Beats(p, n - 1).grants {
          assert b.grants[..|b.grants| - 1] == Beats(p, n - 1).grants;
        }
      }
    } else {
      assert Covered(p, 0);
    }
  }

  // ---- ticks on time ----

  /** The lease is full at the start, every tick is on time, every renewal is over within a period
      of its tick's due time, and no two consecutive renewals fail. */
  ghost predicate Steady(p: Pace) {
    3 * p.every <= p.ttl && p.start + p.ttl <= p.leasedUntil &&
    (forall i: nat :: p.lag(i) <= TICK_TOLERANCE && p.lag(i) + p.takes(i) <= p.every) &&
    (forall i: nat :: Fails(p, i) ==> !Fails(p, i + 1))
  }

  /** Before tick i: the last renewal is over, and the lease reaches a period past the tick if that
      renewal failed, two periods otherwise. */
  ghost predicate OnTime(p: Pace, b: Beat, failed: bool) {
    b.now <= b.due && b.grants != [] &&
    b.due + (if failed then p.every else 2 * p.every) <= LastGrant(b).until
  }

  lemma SteadyStep(p: Pace, b: Beat, i: nat, failed: bool)
    requires 3 * p.every <= p.ttl && p.lag(i) <= TICK_TOLERANCE && p.lag(i) + p.takes(i) <= p.every
    requires OnTime(p, b, failed) && p.renewal(i) != OwnershipLost && (failed ==> !Fails(p, i))
    ensures OnTime(p, After(p, b, i), Fails(p, i))
  {
  }

  lemma {:induction false} SteadyBeat(p: Pace, n: nat)
    requires Steady(p) && Ran(p, n)
    ensures OnTime(p, Beats(p, n), n > 0 && Fails(p, n - 1))
  {
    if n > 0 {
      SteadyBeat(p, n - 1);
      assert n > 1 && Fails(p, n - 2) ==> !Fails(p, n - 2 + 1);
      SteadyStep(p, Beats(p, n - 1), n - 1, n > 1 && Fails(p, n - 2));
    }
  }

  lemma SteadyCovers(p: Pace, n: nat, failed: bool)
    requires OnTime(p, Beats(p, n), failed) && p.lag(n) + p.takes(n) <= p.every
    ensures Covered(p, n)
  {
    assert Beats(p, n + 1) == After(p, Beats(p, n), n);
  }

  lemma SteadyIsCovered(p: Pace, n: nat)
    requires Steady(p) && Ran(p, n)
    ensures Covered(p, n)
  {
    SteadyBeat(p, n);
    SteadyCovers(p, n, n > 0 && Fails(p, n - 1));
  }

  lemma {:induction false} RanBefore(p: Pace, n: nat, m: nat)
    requires Ran(p, n) && m <= n
    ensures Ran(p, m)
  {
    if m < n {
      RanBefore(p, n - 1, m);
    }
  }

  /** While the operation runs - until it returns or the next renewal is over - the lease row is
      never past its expiry. */
  lemma LeaseNeverLapses(p: Pace, n: nat)
    requires Steady(p) && Ran(p, n)
    ensures InForce(p, n)
  {
    forall m: nat | m <= n ensures Covered(p, m) {
      RanBefore(p, n, m);
      SteadyIsCovered(p, m);
    }
    CoveredIsInForce(p, n);
  }

  /** The production numbers, with renewals that take the whole period. */
  function Slow(renewal: nat -> Renewal): Pace {
    Pace(0, PERIOD, WRITE_LEASE_TTL, WRITE_LEASE_TTL, 10 * WRITE_LEASE_TTL, _ => 0, _ => PERIOD, _ => 0, renewal)
  }

  /** No slack is left in the number of failures: at the production numbers one failed renewal is
      within the conditions, and two in a row let the lease lapse under a running call. */
  lemma TwoFailuresLapse()
    ensures Steady(Slow(i => if i == 0 then Failed(false) else Renewed))
    ensures var p := Slow(i => if i < 2 then Failed(false) else Renewed); Ran(p, 2) && !InForce(p, 2)
  {
    var p := Slow(i => if i < 2 then Failed(false) else Renewed);
    assert Beats(p, 1) == After(p, First(p), 0);
    assert Beats(p, 2) == After(p, Beats(p, 1), 1);
    assert Beats(p, 3) == After(p, Beats(p, 2), 2);
    assert Ran(p, 1);
    var t: nat := WRITE_LEASE_TTL + 1;
    assert p.start <= t <= Beats(p, 3).now && LeaseAt(Beats(p, 2).grants, t) < t;
  }

  // ---- late ticks: the exact condition ----

  /** Ticks at most `lat` late, renewals over within `rt` of their tick, isolated failures, and a
      lease that is full at the start. */
  ghost predicate Bounded(p: Pace, every: nat, ttl: nat, lat: nat, rt: nat) {
    p.every == every && p.ttl == ttl && p.start + ttl <= p.leasedUntil &&
    (forall i: nat :: p.lag(i) <= lat && p.takes(i) <= rt) &&
    (forall i: nat :: Fails(p, i) ==> !Fails(p, i + 1))
  }

  /** How far a late tick can push the next one: not at all within the timer's tolerance. */
  function Drift(lat: nat): nat {
    if lat > TICK_TOLERANCE then lat else 0
  }

  /** Before tick i: the lease reaches a TTL past the last tick that renewed, one period back, or
      two and a drift if the last renewal failed. */
  ghost predicate Reaches(b: Beat, every: nat, ttl: nat, lat: nat, failed: bool) {
    b.now <= b.due && b.grants != [] &&
    b.due + ttl <= LastGrant(b).until + every + (if failed then every + Drift(lat) else 0)
  }

  lemma BoundedStep(p: Pace, b: Beat, i: nat, lat: nat, rt: nat, failed: bool)
    requires lat + rt <= p.every && p.lag(i) <= lat && p.takes(i) <= rt
    requires Reaches(b, p.every, p.ttl, lat, failed) && p.renewal(i) != OwnershipLost && (failed ==> !Fails(p, i))
    ensures Reaches(After(p, b, i), p.every, p.ttl, lat, Fails(p, i))
  {
  }

  lemma {:induction false} BoundedBeat(p: Pace, n: nat, lat: nat, rt: nat)
    requires Bounded(p, p.every, p.ttl, lat, rt) && Ran(p, n) && lat + rt <= p.every
    ensures Reaches(Beats(p, n), p.every, p.ttl, lat, n > 0 && Fails(p, n - 1))
  {
    if n > 0 {
      BoundedBeat(p, n - 1, lat, rt);
      assert p.lag(n - 1) <= lat && p.takes(n - 1) <= rt;
      assert n > 1 && Fails(p, n - 2) ==> !Fails(p, n - 2 + 1);
      BoundedStep(p, Beats(p, n - 1), n - 1, lat, rt, n > 1 && Fails(p, n - 2));
    }
  }

  lemma BoundedCovers(p: Pace, n: nat, lat: nat, rt: nat, failed: bool)
    requires Reaches(Beats(p, n), p.every, p.ttl, lat, failed) && p.lag(n) <= lat && p.takes(n) <= rt
    requires 2 * p.every + lat + Drift(lat) + rt <= p.ttl
    ensures Covered(p, n)
  {
    assert Beats(p, n + 1) == After(p, Beats(p, n), n);
  }

  lemma BoundedIsCovered(p: Pace, n: nat, lat: nat, rt: nat)
    requires Bounded(p, p.every, p.ttl, lat, rt) && Ran(p, n) && lat + rt <= p.every
    requires 2 * p.every + lat + Drift(lat) + rt <= p.ttl
    ensures Covered(p, n)
  {
    BoundedBeat(p, n, lat, rt);
    BoundedCovers(p, n, lat, rt, n > 0 && Fails(p, n - 1));
  }

  /** Whatever happens within the bounds, the lease stays in force while the operation runs. */
  ghost predicate AlwaysInForce(every: nat, ttl: nat, lat: nat, rt: nat) {
    forall p: Pace, n: nat | Bounded(p, every, ttl, lat, rt) && Ran(p, n) :: InForce(p, n)
  }

  /** The worst case within the bounds: every tick as late, every renewal as long as allowed, and
      the first renewal fails. */
  function Worst(start: nat, every: nat, ttl: nat, lat: nat, rt: nat): Pace {
    Pace(start, every, ttl, start + ttl, start + 3 * (every + lat + rt + ttl) + 3, _ => lat, _ => rt, _ => 0,
         i => if i == 0 then Failed(false) else Renewed)
  }

  lemma WorstCase(start: nat, every: nat, ttl: nat, lat: nat, rt: nat)
    requires lat + rt <= every
    ensures var p := Worst(start, every, ttl, lat, rt);
            Bounded(p, every, ttl, lat, rt) && Ran(p, 1) && Beats(p, 1).grants == [Grant(start, start + ttl)] &&
            Beats(p, 1).now == start + every + lat + rt &&
            Beats(p, 2).now == start + 2 * every + lat + Drift(lat) + rt
  {
    var p := Worst(start, every, ttl, lat, rt);
    assert Beats(p, 1) == After(p, First(p), 0);
    assert Beats(p, 2) == After(p, Beats(p, 1), 1);
    assert Ran(p, 0);
  }

  /** The lease survives every isolated failure exactly when two periods, the lateness of the ticks
      and one renewal fit into the TTL; beyond the timer's tolerance the lateness counts twice,
      because a late tick moves the schedule. */
  lemma LeaseHoldsExactlyWhen(every: nat, ttl: nat, lat: nat, rt: nat)
    requires lat + rt <= every
    ensures AlwaysInForce(every, ttl, lat, rt) <==> 2 * every + lat + Drift(lat) + rt <= ttl
  {
    if 2 * every + lat + Drift(lat) + rt <= ttl {
      forall p: Pace, n: nat | Bounded(p, every, ttl, lat, rt) && Ran(p, n) ensures InForce(p, n) {
        forall m: nat | m <= n ensures Covered(p, m) {
          RanBefore(p, n, m);
          BoundedIsCovered(p, m, lat, rt);
        }
        CoveredIsInForce(p, n);
      }
    } else {
      WorstCase(0, every, ttl, lat, rt);
      var p, t: nat := Worst(0, every, ttl, lat, rt), ttl + 1;
      assert p.start <= t <= Beats(p, 2).now && LeaseAt(Beats(p, 1).grants, t) < t;
      assert !InForce(p, 1);
    }
  }
}
