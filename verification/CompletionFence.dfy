/** The completion's lease and the heartbeat that renews it, joined: a heartbeat whose renewals are
    the owner's renewal transactions keeps the completion the owner's while Complete runs. */
module CompletionFence {
  import opened Wrappers
  import opened Lifecycle
  import opened Completion
  import opened Multipart
  import opened MultipartInvariant
  import opened MultipartSafety
  import opened MultipartHazards
  import opened Heartbeat

  /** How the renewal transaction ends, as the heartbeat sees it. */
  function Reply(s: State, fate: Fate): Renewal {
    if fate != Done then Renewal.Failed(Applies(fate))
    else if s.file == FileState.Pending && s.phase.Completing? && s.lease == Issued then Renewed
    else OwnershipLost
  }

  /** How many of the n renewals there were before this step. */
  function Earlier(x: Action, a: nat, n: nat): nat {
    if Mine(x) == Some(a) && n > 0 then n - 1 else n
  }

  /** A step of `a` is renewal n - 1, at its time and with its answer; any other step leaves the run
      no further than the end of renewal n. */
  ghost predicate Heeds(c: Config, s: State, x: Action, a: nat, p: Pace, n: nat) {
    if Mine(x) == Some(a) then
      x.RenewCompletion? && n > 0 && !Finished(p, Beats(p, n - 1), n - 1) &&
      s.now == RenewedAt(p, Beats(p, n - 1), n - 1) && p.renewal(n - 1) == Reply(s, x.fate)
    else Next(c, s, x).now <= Beats(p, n + 1).now
  }

  /** In this run from the claim on, `a` lets a heartbeat of pace `p` renew the completion, and n of
      its renewals are in the run. */
  ghost predicate Follows(c: Config, s: State, xs: seq<Action>, a: nat, p: Pace, n: nat)
    decreases |xs|
  {
    if xs == [] then n == 0 && p.start == s.now && p.leasedUntil == s.expires && p.ttl == c.ttl
    else
      var before, x := xs[..|xs| - 1], xs[|xs| - 1];
      Follows(c, s, before, a, p, Earlier(x, a, n)) && Heeds(c, Run(c, s, before), x, a, p, n)
  }

  /** The lease the heartbeat has got so far reaches to the end of its next renewal. */
  ghost predicate Covering(p: Pace) {
    forall n: nat | Ran(p, n) :: Covered(p, n)
  }

  lemma SteadyIsCovering(p: Pace)
    requires Steady(p)
    ensures Covering(p)
  {
    forall n: nat | Ran(p, n) ensures Covered(p, n) {
      SteadyIsCovered(p, n);
    }
  }

  lemma BoundedIsCovering(p: Pace, lat: nat, rt: nat)
    requires Bounded(p, p.every, p.ttl, lat, rt) && lat + rt <= p.every
    requires 2 * p.every + lat + Drift(lat) + rt <= p.ttl
    ensures Covering(p)
  {
    forall n: nat | Ran(p, n) ensures Covered(p, n) {
      BoundedIsCovered(p, n, lat, rt);
    }
  }

  /** No step writes an expiry more than a TTL ahead, and while the row stays claimed none takes an
      expiry back. */
  ghost predicate ExpiryKept(c: Config, s: State, t: State) {
    s.expires <= s.now + c.ttl ==>
      t.expires <= t.now + c.ttl && (s.phase.Completing? && t.phase == s.phase ==> s.expires <= t.expires)
  }

  lemma ConcludingKeepsExpiry(c: Config, s: State, x: Action)
    requires Concludes(x)
    ensures ExpiryKept(c, s, NextConclude(c, s, x))
  {
  }

  lemma ResolvingKeepsExpiry(c: Config, s: State, seen: Candidate, blob: Option<Blob>)
    ensures ExpiryKept(c, s, Resolve(c, s, seen, blob))
  {
  }

  lemma DecidingKeepsExpiry(c: Config, s: State, x: Action)
    requires x.Decide?
    ensures ExpiryKept(c, s, NextRecover(c, s, x))
  {
    if ProcOf(s, x.a).Judging? {
      ResolvingKeepsExpiry(c, s, ProcOf(s, x.a).seen, ProcOf(s, x.a).blob);
    }
  }

  lemma ObservingKeepsExpiry(c: Config, s: State, x: Action)
    requires Recovers(x) && !x.Decide?
    ensures ExpiryKept(c, s, NextRecover(c, s, x))
  {
  }

  lemma ReleasingKeepsExpiry(c: Config, s: State, x: Action)
    requires Releases(x)
    ensures ExpiryKept(c, s, NextRelease(c, s, x))
  {
  }

  lemma UploadingKeepsExpiry(c: Config, s: State, x: Action)
    requires Uploads(x)
    ensures ExpiryKept(c, s, NextUpload(c, s, x))
  {
  }

  lemma SettlingKeepsExpiry(c: Config, s: State, x: Action)
    requires Settles(x)
    ensures ExpiryKept(c, s, NextSettle(c, s, x))
  {
  }

  lemma ClaimingKeepsExpiry(c: Config, s: State, x: Action)
    requires Claims(x)
    ensures ExpiryKept(c, s, Next(c, s, x))
  {
  }

  lemma CreatingKeepsExpiry(c: Config, s: State, x: Action)
    requires Creates(x) && !Compensates(x)
    ensures NextCreate(c, s, x).expires == s.expires && NextCreate(c, s, x).now == s.now
  {
  }

  lemma CompensatingKeepsExpiry(c: Config, s: State, x: Action)
    requires Compensates(x)
    ensures NextCreate(c, s, x).expires == s.expires && NextCreate(c, s, x).now == s.now
  {
  }

  lemma OutsideKeepsExpiry(c: Config, s: State, x: Action)
    requires OfTheWorld(x)
    ensures ExpiryKept(c, s, NextWorld(c, s, x))
  {
  }

  lemma StepKeepsExpiry(c: Config, s: State, x: Action)
    ensures ExpiryKept(c, s, Next(c, s, x))
  {
    if Compensates(x) { CompensatingKeepsExpiry(c, s, x); }
    else if Creates(x) { CreatingKeepsExpiry(c, s, x); }
    else if OfTheWorld(x) { OutsideKeepsExpiry(c, s, x); }
    else if Uploads(x) { UploadingKeepsExpiry(c, s, x); }
    else if Settles(x) { SettlingKeepsExpiry(c, s, x); }
    else if Claims(x) { ClaimingKeepsExpiry(c, s, x); }
    else if Concludes(x) { ConcludingKeepsExpiry(c, s, x); }
    else if x.Decide? { DecidingKeepsExpiry(c, s, x); }
    else if Recovers(x) { ObservingKeepsExpiry(c, s, x); }
    else { ReleasingKeepsExpiry(c, s, x); }
  }

  /** While the owner has the completion, the row's expiry is at least what the heartbeat believes
      it to be. */
  ghost predicate Granted(c: Config, s: State, a: nat, parts: seq<Part>, p: Pace, n: nat) {
    Owns(c, s, a, parts) ==>
      p.ttl == c.ttl && s.expires <= s.now + c.ttl && s.now <= Beats(p, n + 1).now &&
      Ran(p, n) && LastGrant(Beats(p, n)).until <= s.expires
  }

  lemma GrantedHolds(c: Config, s: State, a: nat, parts: seq<Part>, p: Pace, n: nat)
    requires Inv(c, s) && Covering(p) && OwnsOrDone(c, s, a, parts) && Granted(c, s, a, parts, p, n)
    ensures LeaseHolds(s, a)
  {
    if Owns(c, s, a, parts) {
      assert Covered(p, n);
    }
  }

  lemma BeatAfter(p: Pace, n: nat)
    requires Ran(p, n) && !Finished(p, Beats(p, n), n) && p.renewal(n) != OwnershipLost
    ensures Ran(p, n + 1) && RenewedAt(p, Beats(p, n), n) <= Beats(p, n + 1).now
    ensures LastGrant(Beats(p, n + 1)).until ==
            if p.renewal(n) == Renewal.Failed(false) then LastGrant(Beats(p, n)).until
            else RenewedAt(p, Beats(p, n), n) + p.ttl
  {
    assert Beats(p, n + 1) == After(p, Beats(p, n), n);
  }

  lemma TimeGoesOn(p: Pace, n: nat)
    ensures Beats(p, n).now <= Beats(p, n + 1).now
  {
    assert Beats(p, n + 1) == After(p, Beats(p, n), n);
  }

  lemma RenewalSetsExpiry(c: Config, s: State, a: nat, parts: seq<Part>, fate: Fate)
    requires Owns(c, s, a, parts)
    ensures Next(c, s, RenewCompletion(a, fate)) ==
            if Applies(fate) then s.(expires := s.now + c.ttl) else s
  {
  }

  lemma RenewalIsGranted(c: Config, s: State, a: nat, parts: seq<Part>, p: Pace, n: nat, fate: Fate)
    requires Owns(c, s, a, parts) && Granted(c, s, a, parts, p, n)
    requires !Finished(p, Beats(p, n), n) && s.now == RenewedAt(p, Beats(p, n), n) && p.renewal(n) == Reply(s, fate)
    ensures Granted(c, Next(c, s, RenewCompletion(a, fate)), a, parts, p, n + 1)
  {
    RenewalSetsExpiry(c, s, a, parts, fate);
    assert p.renewal(n) != OwnershipLost && (p.renewal(n) == Renewal.Failed(false) <==> !Applies(fate));
    BeatAfter(p, n);
    TimeGoesOn(p, n + 1);
  }

  lemma OtherStepIsGranted(c: Config, s: State, x: Action, a: nat, parts: seq<Part>, p: Pace, n: nat)
    requires Owns(c, s, a, parts) && Granted(c, s, a, parts, p, n)
    requires Mine(x) != Some(a) && Next(c, s, x).now <= Beats(p, n + 1).now
    ensures Granted(c, Next(c, s, x), a, parts, p, n)
  {
    StepKeepsExpiry(c, s, x);
  }

  lemma DoneStays(c: Config, s: State, x: Action, a: nat, parts: seq<Part>)
    requires Inv(c, s) && Admissible(c, s, x) && OwnsOrDone(c, s, a, parts) && !Owns(c, s, a, parts)
    ensures !Owns(c, Next(c, s, x), a, parts)
  {
    NextKeepsInv(c, s, x);
    StepKeepsActivations(c, s, x);
    assert RowsInv(c, Next(c, s, x));
  }

  lemma StepIsGranted(c: Config, s: State, x: Action, a: nat, parts: seq<Part>, p: Pace, n: nat)
    requires Owns(c, s, a, parts) && Heeds(c, s, x, a, p, n) && Granted(c, s, a, parts, p, Earlier(x, a, n))
    ensures Granted(c, Next(c, s, x), a, parts, p, n)
  {
    if Mine(x) == Some(a) {
      RenewalIsGranted(c, s, a, parts, p, n - 1, x.fate);
    } else {
      OtherStepIsGranted(c, s, x, a, parts, p, n);
    }
  }

  /** Whoever else acts meanwhile, the row never says that the owner's lease has run out. */
  lemma {:induction false} HeartbeatKeepsTheLease(
      c: Config, s: State, xs: seq<Action>, a: nat, parts: seq<Part>, p: Pace, n: nat)
    requires Inv(c, s) && Owns(c, s, a, parts) && s.expires <= s.now + c.ttl && Punctual(c, s, xs)
    requires Covering(p) && Follows(c, s, xs, a, p, n)
    ensures Unexpired(c, s, xs, a)
    ensures OwnsOrDone(c, Run(c, s, xs), a, parts) && Granted(c, Run(c, s, xs), a, parts, p, n)
    decreases |xs|
  {
    RunKeepsInv(c, s, xs);
    if xs == [] {
      assert Beats(p, 1) == After(p, First(p), 0);
    } else {
      var before, x := xs[..|xs| - 1], xs[|xs| - 1];
      HeartbeatKeepsTheLease(c, s, before, a, parts, p, Earlier(x, a, n));
      RunKeepsInv(c, s, before);
      StepKeepsOwnership(c, Run(c, s, before), x, a, parts);
      if Owns(c, Run(c, s, before), a, parts) {
        StepIsGranted(c, Run(c, s, before), x, a, parts, p, n);
      } else {
        DoneStays(c, Run(c, s, before), x, a, parts);
      }
    }
    GrantedHolds(c, Run(c, s, xs), a, parts, p, n);
  }

  lemma {:induction false} OnlyRenewals(c: Config, s: State, xs: seq<Action>, a: nat, p: Pace, n: nat)
    requires Follows(c, s, xs, a, p, n)
    ensures forall x | x in xs :: Mine(x) == Some(a) ==> x.RenewCompletion?
    decreases |xs|
  {
    if xs != [] {
      var before, x := xs[..|xs| - 1], xs[|xs| - 1];
      OnlyRenewals(c, s, before, a, p, Earlier(x, a, n));
    }
  }

  /** From the claim on, under a steady heartbeat, or one whose ticks are at most `lat` late, whose
      renewals are over within `rt` and never fail twice in a row, with two periods, the lateness and
      one renewal within the TTL: Complete is harmless whenever it takes effect, whatever requests,
      recovery passes and sweeps run meanwhile. */
  lemma CompleteUnderHeartbeatIsHarmless(
      c: Config, s: State, xs: seq<Action>, a: nat, parts: seq<Part>, p: Pace, n: nat, lat: nat, rt: nat)
    requires Inv(c, s) && Conforming(c) && Owns(c, s, a, parts) && s.expires == s.now + c.ttl
    requires Punctual(c, s, xs) && Follows(c, s, xs, a, p, n)
    requires Steady(p) || (Bounded(p, p.every, c.ttl, lat, rt) && lat + rt <= p.every &&
                           2 * p.every + lat + Drift(lat) + rt <= c.ttl)
    ensures HarmlessPublish(c, Run(c, s, xs), parts)
  {
    if Steady(p) {
      SteadyIsCovering(p);
    } else {
      BoundedIsCovering(p, lat, rt);
    }
    HeartbeatKeepsTheLease(c, s, xs, a, parts, p, n);
    OnlyRenewals(c, s, xs, a, p, n);
    HeartbeatsKeepCompletionHarmless(c, s, xs, a, parts);
  }

  // ---- the exact condition ----

  /** Within these bounds on the heartbeat, Complete is harmless whenever it takes effect, in every
      punctual run from the claim on. */
  ghost predicate AlwaysHarmless(c: Config, s: State, a: nat, parts: seq<Part>, every: nat, lat: nat, rt: nat) {
    forall xs, p, n: nat |
      Punctual(c, s, xs) && Bounded(p, every, c.ttl, lat, rt) && Follows(c, s, xs, a, p, n) ::
      HarmlessPublish(c, Run(c, s, xs), parts)
  }

  lemma PassTakesNoTime(c: Config, s: State, x: Action)
    requires Recovers(x)
    ensures Next(c, s, x).now == s.now
  {
  }

  function PassSteps(b: nat): seq<Action> {
    PassBegins(b) + [Decide(b, Done)]
  }

  lemma FollowsStep(c: Config, s: State, xs: seq<Action>, x: Action, a: nat, p: Pace, n: nat)
    requires Follows(c, s, xs, a, p, n) && Mine(x) != Some(a) && Next(c, Run(c, s, xs), x).now <= Beats(p, n + 1).now
    ensures Follows(c, s, xs + [x], a, p, n)
  {
    assert (xs + [x])[..|xs|] == xs;
  }

  /** The run follows the heartbeat and may go on for some time. */
  ghost predicate Underway(c: Config, s: State, xs: seq<Action>, a: nat, p: Pace, n: nat) {
    Follows(c, s, xs, a, p, n) && Run(c, s, xs).now <= Beats(p, n + 1).now
  }

  lemma FollowsPassStep(c: Config, s: State, xs: seq<Action>, y: Action, a: nat, p: Pace, n: nat)
    requires Underway(c, s, xs, a, p, n) && Recovers(y) && y.a != a
    ensures Underway(c, s, xs + [y], a, p, n)
  {
    PassTakesNoTime(c, Run(c, s, xs), y);
    FollowsStep(c, s, xs, y, a, p, n);
    RunExtends(c, s, xs, y);
  }

  lemma FollowsTwoSteps(c: Config, s: State, xs: seq<Action>, x: Action, y: Action, a: nat, p: Pace, n: nat)
    requires Underway(c, s, xs, a, p, n) && Recovers(x) && x.a != a && Recovers(y) && y.a != a
    ensures Underway(c, s, xs + [x, y], a, p, n)
  {
    FollowsPassStep(c, s, xs, x, a, p, n);
    FollowsPassStep(c, s, xs + [x], y, a, p, n);
    assert xs + [x] + [y] == xs + [x, y];
  }

  lemma FollowsWhilePassing(c: Config, s: State, xs: seq<Action>, a: nat, b: nat, p: Pace, n: nat)
    requires Underway(c, s, xs, a, p, n) && a != b
    ensures Underway(c, s, xs + PassSteps(b), a, p, n)
  {
    FollowsTwoSteps(c, s, xs, Scan(b), ClaimRecovery(b), a, p, n);
    FollowsTwoSteps(c, s, xs + [Scan(b), ClaimRecovery(b)], Look(b, Done), Decide(b, Done), a, p, n);
    assert xs + [Scan(b), ClaimRecovery(b)] + [Look(b, Done), Decide(b, Done)] == xs + PassSteps(b);
  }

  lemma TimePasses(c: Config, s: State, d: nat)
    ensures Next(c, s, Action.Tick(d)) == s.(now := s.now + d) && Mine(Action.Tick(d)) == None
  {
  }

  lemma FollowsTick(c: Config, s: State, xs: seq<Action>, a: nat, p: Pace, n: nat, d: nat)
    requires Follows(c, s, xs, a, p, n) && Run(c, s, xs).now + d <= Beats(p, n + 1).now
    ensures Follows(c, s, xs + [Action.Tick(d)], a, p, n)
    ensures var t := Run(c, s, xs); Run(c, s, xs + [Action.Tick(d)]) == t.(now := t.now + d)
  {
    var x := Action.Tick(d);
    TimePasses(c, Run(c, s, xs), d);
    FollowsStep(c, s, xs, x, a, p, n);
    RunExtends(c, s, xs, x);
  }

  lemma FollowsRenewal(c: Config, s: State, xs: seq<Action>, a: nat, parts: seq<Part>, p: Pace, n: nat)
    requires Follows(c, s, xs, a, p, n) && Owns(c, Run(c, s, xs), a, parts) && !Finished(p, Beats(p, n), n)
    requires Run(c, s, xs).now == RenewedAt(p, Beats(p, n), n) && p.renewal(n) == Renewal.Failed(false)
    ensures Follows(c, s, xs + [RenewCompletion(a, NotApplied)], a, p, n + 1)
    ensures Run(c, s, xs + [RenewCompletion(a, NotApplied)]) == Run(c, s, xs)
  {
    var x := RenewCompletion(a, NotApplied);
    RunExtends(c, s, xs, x);
    RenewalSetsExpiry(c, Run(c, s, xs), a, parts, NotApplied);
    assert (xs + [x])[..|xs|] == xs;
  }

  /** The first renewal of this pace, d after the start, fails, and it gets to `until` before the
      second one is over. */
  ghost predicate Slips(p: Pace, start: nat, d: nat, until: nat) {
    p.start == start && RenewedAt(p, Beats(p, 0), 0) == start + d && !Finished(p, Beats(p, 0), 0) &&
    p.renewal(0) == Renewal.Failed(false) && start + d <= Beats(p, 1).now && until <= Beats(p, 2).now
  }

  lemma WorstSlips(start: nat, every: nat, ttl: nat, lat: nat, rt: nat)
    requires lat + rt <= every
    ensures Slips(Worst(start, every, ttl, lat, rt), start, every + lat, start + 2 * every + lat + Drift(lat) + rt)
  {
    WorstCase(start, every, ttl, lat, rt);
  }

  /** The lease runs out under a running heartbeat, before its second renewal. */
  function LapseSteps(a: nat, d: nat, e: nat): seq<Action> {
    [] + [Action.Tick(d)] + [RenewCompletion(a, NotApplied)] + [Action.Tick(e)]
  }

  lemma LapseFollows(c: Config, s: State, a: nat, parts: seq<Part>, p: Pace, d: nat, e: nat)
    requires Owns(c, s, a, parts) && p.leasedUntil == s.expires && p.ttl == c.ttl
    requires Slips(p, s.now, d, s.now + d + e)
    ensures Run(c, s, LapseSteps(a, d, e)) == s.(now := s.now + d + e) && Follows(c, s, LapseSteps(a, d, e), a, p, 1)
  {
    var xs := [] + [Action.Tick(d)];
    FollowsTick(c, s, [], a, p, 0, d);
    FollowsRenewal(c, s, xs, a, parts, p, 0);
    FollowsTick(c, s, xs + [RenewCompletion(a, NotApplied)], a, p, 1, e);
  }

  /** A pass takes the row over and reopens it, and Complete is no longer harmless. */
  lemma LapseIsHarmful(c: Config, s: State, a: nat, b: nat, parts: seq<Part>)
    requires Inv(c, s) && Owns(c, s, a, parts) && Takes(s, parts) && s.expires < s.now && b !in s.procs
    ensures !HarmlessPublish(c, Run(c, s, PassSteps(b)), parts)
  {
    assert RowsInv(c, s) && s.blob == None && s.location;
    PassSees(c, s, b);
    var t := With(s, b, Judging(Candidate(s.phase.size, s.phase.etag, s.now), None));
    DecideReopens(c, t, b);
    RunOne(c, t, Decide(b, Done));
    PunctualSplits(c, s, PassBegins(b), [Decide(b, Done)]);
  }

  /** The heartbeat keeps Complete harmless exactly when two periods, the lateness of its ticks and
      one renewal fit into the lease: with less, a failed renewal lets a recovery pass reopen the row
      under the running call. */
  lemma HeartbeatKeepsCompleteHarmlessExactlyWhen(
      c: Config, s: State, a: nat, parts: seq<Part>, every: nat, lat: nat, rt: nat)
    requires Inv(c, s) && Conforming(c) && Owns(c, s, a, parts) && Takes(s, parts) && s.expires == s.now + c.ttl
    requires lat + rt <= every
    ensures AlwaysHarmless(c, s, a, parts, every, lat, rt) <==> 2 * every + lat + Drift(lat) + rt <= c.ttl
  {
    if 2 * every + lat + Drift(lat) + rt <= c.ttl {
      forall xs, p, n: nat | Punctual(c, s, xs) && Bounded(p, every, c.ttl, lat, rt) && Follows(c, s, xs, a, p, n)
        ensures HarmlessPublish(c, Run(c, s, xs), parts)
      {
        CompleteUnderHeartbeatIsHarmless(c, s, xs, a, parts, p, n, lat, rt);
      }
    } else {
      var b := FreshActor(s.procs);
      LapseBreaks(c, s, a, b, parts, every, lat, rt);
    }
  }

  lemma PassHasNoEffects(b: nat)
    ensures NoEffects(PassSteps(b))
  {
  }

  lemma PassBreaks(c: Config, s: State, xs: seq<Action>, a: nat, b: nat, parts: seq<Part>, p: Pace, n: nat, e: nat)
    requires Inv(c, s) && Owns(c, s, a, parts) && Takes(s, parts) && s.expires < s.now + e && b !in s.procs
    requires Run(c, s, xs) == s.(now := s.now + e) && NoEffects(xs)
    requires Follows(c, s, xs, a, p, n) && s.now + e <= Beats(p, n + 1).now
    ensures var zs := xs + PassSteps(b);
            Punctual(c, s, zs) && Follows(c, s, zs, a, p, n) && !HarmlessPublish(c, Run(c, s, zs), parts)
  {
    var t := Run(c, s, xs);
    PassHasNoEffects(b);
    FollowsWhilePassing(c, s, xs, a, b, p, n);
    NoEffectIsPunctual(c, s, xs);
    NoEffectIsPunctual(c, t, PassSteps(b));
    PunctualSplits(c, s, xs, PassSteps(b));
    RunKeepsInv(c, s, xs);
    LapseIsHarmful(c, t, a, b, parts);
  }

  lemma LapseHasNoEffects(a: nat, d: nat, e: nat)
    ensures NoEffects(LapseSteps(a, d, e))
  {
  }

  lemma EarlyLapseBreaks(c: Config, s: State, a: nat, b: nat, parts: seq<Part>, p: Pace)
    requires Inv(c, s) && Owns(c, s, a, parts) && Takes(s, parts) && s.expires == s.now + c.ttl && b !in s.procs
    requires p.start == s.now && p.leasedUntil == s.expires && p.ttl == c.ttl && s.expires < Beats(p, 1).now
    ensures exists zs :: Punctual(c, s, zs) && Follows(c, s, zs, a, p, 0) && !HarmlessPublish(c, Run(c, s, zs), parts)
  {
    FollowsTick(c, s, [], a, p, 0, c.ttl + 1);
    PassBreaks(c, s, [] + [Action.Tick(c.ttl + 1)], a, b, parts, p, 0, c.ttl + 1);
  }

  lemma LateLapseBreaks(c: Config, s: State, a: nat, b: nat, parts: seq<Part>, p: Pace, d: nat, e: nat)
    requires Inv(c, s) && Owns(c, s, a, parts) && Takes(s, parts) && s.expires == s.now + c.ttl && b !in s.procs
    requires p.leasedUntil == s.expires && p.ttl == c.ttl && d + e == c.ttl + 1 && Slips(p, s.now, d, s.now + d + e)
    ensures exists zs :: Punctual(c, s, zs) && Follows(c, s, zs, a, p, 1) && !HarmlessPublish(c, Run(c, s, zs), parts)
  {
    LapseFollows(c, s, a, parts, p, d, e);
    LapseHasNoEffects(a, d, e);
    PassBreaks(c, s, LapseSteps(a, d, e), a, b, parts, p, 1, d + e);
  }

  lemma LapseBreaks(c: Config, s: State, a: nat, b: nat, parts: seq<Part>, every: nat, lat: nat, rt: nat)
    requires Inv(c, s) && Owns(c, s, a, parts) && Takes(s, parts) && s.expires == s.now + c.ttl && b !in s.procs
    requires lat + rt <= every && c.ttl < 2 * every + lat + Drift(lat) + rt
    ensures !AlwaysHarmless(c, s, a, parts, every, lat, rt)
  {
    var p := Worst(s.now, every, c.ttl, lat, rt);
    WorstCase(s.now, every, c.ttl, lat, rt);
    WorstSlips(s.now, every, c.ttl, lat, rt);
    if c.ttl < every + lat {
      EarlyLapseBreaks(c, s, a, b, parts, p);
    } else {
      LateLapseBreaks(c, s, a, b, parts, p, every + lat, c.ttl + 1 - (every + lat));
    }
  }
}
