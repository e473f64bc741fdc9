/** Runs of the multipart upload that do end unsafe: each needs one provider call that outlives its
    caller, and each keeps every clock limit the code checks. */
module MultipartHazards {
  import opened Wrappers
  import opened Lifecycle
  import opened Completion
  import opened Multipart
  import opened MultipartInvariant
  import opened MultipartSafety

  /** Everything before the last step is punctual, and the last step alone makes the state unsafe. */
  ghost predicate EndsUnsafe(c: Config, xs: seq<Action>, x: Action) {
    Punctual(c, Begin(c), xs) && Safe(Run(c, Begin(c), xs)) && !Safe(Run(c, Begin(c), xs + [x]))
  }

  lemma {:induction false} RunFrom(c: Config, s: State, xs: seq<Action>, x: Action)
    ensures Run(c, s, [x] + xs) == Run(c, Next(c, s, x), xs)
    ensures Punctual(c, s, [x] + xs) <==> Admissible(c, s, x) && Punctual(c, Next(c, s, x), xs)
  {
    RunOne(c, s, x);
    PunctualSplits(c, s, [x], xs);
  }

  lemma RunThree(c: Config, s: State, x: Action, y: Action, z: Action)
    ensures Run(c, s, [x, y, z]) == Next(c, Next(c, Next(c, s, x), y), z)
  {
    RunTwo(c, Next(c, s, x), y, z);
    RunFrom(c, s, [y, z], x);
    assert [x] + [y, z] == [x, y, z];
  }

  predicate HasEffect(x: Action) {
    x.CreateReturns? || x.LandCreate? || x.CompleteReturns? || x.LandComplete?
  }

  predicate NoEffects(xs: seq<Action>) {
    forall x | x in xs :: !HasEffect(x)
  }

  lemma {:induction false} NoEffectIsPunctual(c: Config, s: State, xs: seq<Action>)
    requires NoEffects(xs)
    ensures Punctual(c, s, xs)
    decreases |xs|
  {
    if xs != [] {
      assert xs[|xs| - 1] in xs;
      NoEffectIsPunctual(c, s, xs[..|xs| - 1]);
    }
  }

  // ---- a create call that lands after its compensation ----

  /** The create call is given up on, the sweep by key finds nothing, the reservation is released. */
  function AbandonedCreate(): seq<Action> {
    [CreateReturns(Straggling), Compensate(Done), CompensateRelease(Done)]
  }

  /** A session without a location row, with the clock still at the start of the create lease: the
      compensation of an unknown session id is over before the session is opened. */
  lemma AbandonedCreateLosesItsSession(c: Config)
    requires Wellformed(c) && !c.s3
    ensures EndsUnsafe(c, AbandonedCreate(), LandCreate)
    ensures var s := Run(c, Begin(c), AbandonedCreate() + [LandCreate]);
            s.session.Open? && !s.location && s.now <= s.expires
  {
    RunThree(c, Begin(c), CreateReturns(Straggling), Compensate(Done), CompensateRelease(Done));
    var t := Next(c, Begin(c), CreateReturns(Straggling));
    assert t == Begin(c).(lateCreate := true, creation := Creation.Failed(false));
    RunExtends(c, Begin(c), AbandonedCreate(), LandCreate);
    NoEffectIsPunctual(c, t, [Compensate(Done), CompensateRelease(Done)]);
    RunFrom(c, Begin(c), [Compensate(Done), CompensateRelease(Done)], CreateReturns(Straggling));
    assert [CreateReturns(Straggling)] + [Compensate(Done), CompensateRelease(Done)] == AbandonedCreate();
    EveryCrashPointIsRecoverable(c, AbandonedCreate());
  }

  /** The create request is over without a session, and no create call can open one any more. */
  predicate NeverOpens(s: State) {
    s.creation == Ended && !s.session.Open? && !(s.lateCreate && s.session == Never)
  }

  lemma PartsOpenNothing(c: Config, s: State, x: Action)
    requires NeverOpens(s) && Uploads(x)
    ensures NeverOpens(Next(c, s, x))
  {
  }

  lemma RecordsOpenNothing(c: Config, s: State, x: Action)
    requires NeverOpens(s) && Settles(x)
    ensures NeverOpens(Next(c, s, x))
  {
  }

  lemma ClaimsOpenNothing(c: Config, s: State, x: Action)
    requires NeverOpens(s) && Claims(x)
    ensures NeverOpens(Next(c, s, x))
  {
  }

  lemma ConclusionsOpenNothing(c: Config, s: State, x: Action)
    requires NeverOpens(s) && Concludes(x)
    ensures NeverOpens(Next(c, s, x))
  {
  }

  lemma DecisionOpensNothing(c: Config, s: State, seen: Candidate, blob: Option<Blob>)
    requires NeverOpens(s)
    ensures NeverOpens(Resolve(c, s, seen, blob))
  {
  }

  lemma RecoveryOpensNothing(c: Config, s: State, x: Action)
    requires NeverOpens(s) && Recovers(x)
    ensures NeverOpens(Next(c, s, x))
  {
    if x.Decide? && ProcOf(s, x.a).Judging? {
      DecisionOpensNothing(c, s, ProcOf(s, x.a).seen, ProcOf(s, x.a).blob);
    }
  }

  lemma ReleasesOpenNothing(c: Config, s: State, x: Action)
    requires NeverOpens(s) && Releases(x)
    ensures NeverOpens(Next(c, s, x))
  {
  }

  lemma OthersOpenNothing(c: Config, s: State, x: Action)
    requires NeverOpens(s) && Mine(x) == None
    ensures NeverOpens(Next(c, s, x))
  {
  }

  lemma StepOpensNothing(c: Config, s: State, x: Action)
    requires NeverOpens(s)
    ensures NeverOpens(Next(c, s, x))
  {
    if Mine(x) == None { OthersOpenNothing(c, s, x); }
    else if Releases(x) { ReleasesOpenNothing(c, s, x); }
    else if Recovers(x) { RecoveryOpensNothing(c, s, x); }
    else if Uploads(x) { PartsOpenNothing(c, s, x); }
    else if Settles(x) { RecordsOpenNothing(c, s, x); }
    else if Claims(x) { ClaimsOpenNothing(c, s, x); }
    else { ConclusionsOpenNothing(c, s, x); }
  }

  lemma {:induction false} RunOpensNothing(c: Config, s: State, xs: seq<Action>)
    requires NeverOpens(s)
    ensures NeverOpens(Run(c, s, xs))
    decreases |xs|
  {
    if xs != [] {
      RunOpensNothing(c, s, xs[..|xs| - 1]);
      StepOpensNothing(c, Run(c, s, xs[..|xs| - 1]), xs[|xs| - 1]);
    }
  }

  /** Once the create request has ended without a session, none is ever opened for the upload in any
      run at all, exactly unless its create call is still under way. */
  lemma NoSessionAppearsExactlyWhenNoCallIsLate(c: Config, s: State)
    requires s.creation == Ended && !s.session.Open?
    ensures (forall xs :: !Run(c, s, xs).session.Open?) <==> !(s.lateCreate && s.session == Never)
  {
    if s.lateCreate && s.session == Never {
      RunOne(c, s, LandCreate);
      assert Run(c, s, [LandCreate]).session.Open?;
    } else {
      forall xs ensures !Run(c, s, xs).session.Open? {
        RunOpensNothing(c, s, xs);
      }
    }
  }

  // ---- a Complete that lands after its row was reopened ----

  function Created(): seq<Action> {
    [CreateReturns(Done), Attach(Done), PrepareRelay(Done)]
  }

  function PartStored(a: nat, n: nat, md5: string): seq<Action> {
    [ClaimPart(a, n, md5), PartReturns(a, Done), FinishPart(a, Done)]
  }

  function CompletionLost(a: nat, parts: seq<Part>): seq<Action> {
    [Prepare(a, parts, Done), Crash(a)]
  }

  function PassBegins(a: nat): seq<Action> {
    [Scan(a), ClaimRecovery(a), Look(a, Done)]
  }

  lemma CreatedIsOpen(c: Config)
    requires Wellformed(c) && c.s3
    ensures Punctual(c, Begin(c), Created())
    ensures Run(c, Begin(c), Created()) ==
            Begin(c).(session := Open(map[]), attached := true, creation := Ended, published := true)
  {
    RunThree(c, Begin(c), CreateReturns(Done), Attach(Done), PrepareRelay(Done));
    var s1 := Next(c, Begin(c), CreateReturns(Done));
    assert s1 == Begin(c).(session := Open(map[]), creation := Returned);
    NoEffectIsPunctual(c, s1, [Attach(Done), PrepareRelay(Done)]);
    RunFrom(c, Begin(c), [Attach(Done), PrepareRelay(Done)], CreateReturns(Done));
    assert [CreateReturns(Done)] + [Attach(Done), PrepareRelay(Done)] == Created();
    var s2 := Next(c, s1, Attach(Done));
    assert s2 == s1.(attached := true, creation := Attached);
  }

  lemma PartClaimed(c: Config, s: State, a: nat, n: nat, md5: string)
    requires c.s3 && Accepting(s) && s.ledger == map[] && s.session == Open(map[]) && PartFits(c, n, md5)
    requires ProcOf(s, a) == Idle && s.expires == s.now + c.ttl
    ensures NextUpload(c, s, ClaimPart(a, n, md5)) ==
            s.(ledger := map[n := Taken(None, a)], procs := s.procs[a := Holding(n, md5)])
  {
  }

  lemma PartForwarded(c: Config, s: State, a: nat, n: nat, md5: string)
    requires s.session == Open(map[]) && ProcOf(s, a) == Holding(n, md5)
    ensures NextUpload(c, s, PartReturns(a, Done)) ==
            s.(session := Open(map[n := md5]), procs := s.procs[a := Uploaded(n, md5)])
  {
  }

  lemma PartRecorded(c: Config, s: State, a: nat, n: nat, md5: string)
    requires c.s3 && ProcOf(s, a) == Uploaded(n, md5) && s.file == Pending && s.phase == Free && ClaimedRow(s, n)
    ensures NextSettle(c, s, FinishPart(a, Done)) ==
            s.(ledger := s.ledger[n := Stored(md5)], procs := s.procs[a := Idle])
  {
  }

  lemma PartIsStored(c: Config, s: State, a: nat, n: nat, md5: string)
    requires c.s3 && Accepting(s) && s.ledger == map[] && s.session == Open(map[]) && PartFits(c, n, md5)
    requires ProcOf(s, a) == Idle && s.expires == s.now + c.ttl
    ensures Run(c, s, PartStored(a, n, md5)) ==
            s.(ledger := map[n := Stored(md5)], session := Open(map[n := md5]), procs := s.procs[a := Idle])
  {
    RunThree(c, s, ClaimPart(a, n, md5), PartReturns(a, Done), FinishPart(a, Done));
    PartClaimed(c, s, a, n, md5);
    var s1 := Next(c, s, ClaimPart(a, n, md5));
    PartForwarded(c, s1, a, n, md5);
    var s2 := Next(c, s1, PartReturns(a, Done));
    PartRecorded(c, s2, a, n, md5);
    assert s2.ledger[n := Stored(md5)] == map[n := Stored(md5)];
    assert s2.procs[a := Idle] == s.procs[a := Idle];
  }

  lemma PrepareClaims(c: Config, s: State, a: nat, parts: seq<Part>)
    requires c.s3 && s.published && Claimable(s) && Preparable(c, s, parts) && ProcOf(s, a) == Idle
    ensures NextClaim(c, s, Prepare(a, parts, Done)) == With(ClaimRow(c, s, parts, a), a, InFlight(parts))
  {
  }

  lemma CrashLosesTheCall(c: Config, s: State, a: nat, parts: seq<Part>)
    requires ProcOf(s, a) == InFlight(parts)
    ensures NextClaim(c, s, Crash(a)) == With(s.(lateCompletes := s.lateCompletes + {parts}), a, Idle)
  {
  }

  lemma CompletionIsLost(c: Config, s: State, a: nat, parts: seq<Part>)
    requires c.s3 && s.published && Claimable(s) && Preparable(c, s, parts) && ProcOf(s, a) == Idle
    ensures Run(c, s, CompletionLost(a, parts)) ==
            With(ClaimRow(c, s, parts, a).(lateCompletes := s.lateCompletes + {parts}), a, Idle)
  {
    RunTwo(c, s, Prepare(a, parts, Done), Crash(a));
    PrepareClaims(c, s, a, parts);
    CrashLosesTheCall(c, With(ClaimRow(c, s, parts, a), a, InFlight(parts)), a, parts);
    Overwritten(ClaimRow(c, s, parts, a), a, InFlight(parts), Idle);
  }

  lemma ScanSees(c: Config, s: State, a: nat)
    requires Abandoned(s) && s.location && ProcOf(s, a) == Idle
    ensures NextRecover(c, s, Scan(a)) == With(s, a, Scanned(Candidate(s.phase.size, s.phase.etag, s.now)))
  {
  }

  lemma ClaimTakes(c: Config, s: State, a: nat, seen: Candidate)
    requires Abandoned(s) && ProcOf(s, a) == Scanned(seen)
    ensures NextRecover(c, s, ClaimRecovery(a)) == With(s, a, Inspecting(seen))
  {
  }

  lemma LookSees(c: Config, s: State, a: nat, seen: Candidate)
    requires ProcOf(s, a) == Inspecting(seen)
    ensures NextRecover(c, s, Look(a, Done)) == With(s, a, Judging(seen, s.blob))
  {
  }

  lemma Overwritten(s: State, a: nat, p: Proc, q: Proc)
    ensures With(With(s, a, p), a, q) == With(s, a, q)
  {
    assert s.procs[a := p][a := q] == s.procs[a := q];
  }

  lemma PassSees(c: Config, s: State, a: nat)
    requires Abandoned(s) && s.location && ProcOf(s, a) == Idle
    ensures var seen := Candidate(s.phase.size, s.phase.etag, s.now);
            Run(c, s, PassBegins(a)) == With(s, a, Judging(seen, s.blob))
  {
    RunThree(c, s, Scan(a), ClaimRecovery(a), Look(a, Done));
    var seen := Candidate(s.phase.size, s.phase.etag, s.now);
    ScanSees(c, s, a);
    ClaimTakes(c, With(s, a, Scanned(seen)), a, seen);
    Overwritten(s, a, Scanned(seen), Inspecting(seen));
    LookSees(c, With(s, a, Inspecting(seen)), a, seen);
    Overwritten(s, a, Inspecting(seen), Judging(seen, s.blob));
  }

  lemma DecideReopens(c: Config, s: State, a: nat)
    requires Abandoned(s) && ProcOf(s, a) == Judging(Candidate(s.phase.size, s.phase.etag, s.now), None)
    ensures NextRecover(c, s, Decide(a, Done)) == With(s.(phase := Free, expires := s.now + c.ttl), a, Idle)
  {
  }

  lemma ReopenedLosesTheSession(c: Config, s: State, a: nat, parts: seq<Part>)
    requires Abandoned(s) && ProcOf(s, a) == Judging(Candidate(s.phase.size, s.phase.etag, s.now), None)
    requires s.published && c.ttl > 0 && Takes(s, parts) && parts in s.lateCompletes
    ensures var t := Next(c, Next(c, s, Decide(a, Done)), LandComplete(parts));
            !Safe(t) && Accepting(t) && t.session == Closed && t.blob.Some?
  {
    DecideReopens(c, s, a);
    var u := With(s.(phase := Free, expires := s.now + c.ttl), a, Idle);
    assert Takes(u, parts);
  }

  lemma Appended(c: Config, xs: seq<Action>, ys: seq<Action>)
    requires Punctual(c, Begin(c), xs) && NoEffects(ys)
    ensures Punctual(c, Begin(c), xs + ys) && Run(c, Begin(c), xs + ys) == Run(c, Run(c, Begin(c), xs), ys)
  {
    NoEffectIsPunctual(c, Run(c, Begin(c), xs), ys);
    PunctualSplits(c, Begin(c), xs, ys);
  }

  /** One part is stored; its completion is claimed by an owner that stops with Complete under way,
      and the lease runs out. */
  function AbandonedCompletion(c: Config, md5: string): seq<Action> {
    Created() + PartStored(0, 1, md5) + CompletionLost(0, [Part(1, md5)]) + [Tick(c.ttl + 1)]
  }

  lemma LostIsAbandoned(c: Config, s: State, a: nat, parts: seq<Part>)
    requires s.file == Pending && s.lease == Issued
    ensures var t := With(ClaimRow(c, s, parts, a).(lateCompletes := s.lateCompletes + {parts}), a, Idle);
            Run(c, t, [Tick(c.ttl + 1)]) == t.(now := s.now + c.ttl + 1) && Abandoned(t.(now := s.now + c.ttl + 1))
  {
    RunOne(c, With(ClaimRow(c, s, parts, a).(lateCompletes := s.lateCompletes + {parts}), a, Idle), Tick(c.ttl + 1));
  }

  lemma OnePartIsStored(c: Config, md5: string)
    requires Wellformed(c) && c.s3 && c.ttl > 0
    ensures Punctual(c, Begin(c), Created() + PartStored(0, 1, md5))
    ensures Run(c, Begin(c), Created() + PartStored(0, 1, md5)) ==
            Begin(c).(ledger := map[1 := Stored(md5)], session := Open(map[1 := md5]), attached := true,
                      creation := Ended, published := true, procs := map[0 := Idle])
  {
    CreatedIsOpen(c);
    PartIsStored(c, Run(c, Begin(c), Created()), 0, 1, md5);
    Appended(c, Created(), PartStored(0, 1, md5));
  }

  lemma StoredIsAbandoned(c: Config, s: State, md5: string)
    requires c.s3 && s.published && Claimable(s) && s.session == Open(map[1 := md5]) && s.location && s.blob == None
    requires s.ledger == map[1 := Stored(md5)] && ProcOf(s, 0) == Idle && ProcOf(s, 1) == Idle
    ensures var t := Run(c, Run(c, s, CompletionLost(0, [Part(1, md5)])), [Tick(c.ttl + 1)]);
            Abandoned(t) && t.location && t.published && Takes(t, [Part(1, md5)]) &&
            [Part(1, md5)] in t.lateCompletes && ProcOf(t, 1) == Idle && t.blob == None
  {
    CompletionIsLost(c, s, 0, [Part(1, md5)]);
    LostIsAbandoned(c, s, 0, [Part(1, md5)]);
  }

  lemma CompletionIsAbandoned(c: Config, md5: string)
    requires Wellformed(c) && c.s3 && c.ttl > 0
    ensures var s := Run(c, Begin(c), AbandonedCompletion(c, md5));
            Punctual(c, Begin(c), AbandonedCompletion(c, md5)) && Abandoned(s) && s.location && s.published &&
            Takes(s, [Part(1, md5)]) && [Part(1, md5)] in s.lateCompletes && ProcOf(s, 1) == Idle && s.blob == None
  {
    OnePartIsStored(c, md5);
    var xs, parts := Created() + PartStored(0, 1, md5), [Part(1, md5)];
    Appended(c, xs, CompletionLost(0, parts));
    Appended(c, xs + CompletionLost(0, parts), [Tick(c.ttl + 1)]);
    StoredIsAbandoned(c, Run(c, Begin(c), xs), md5);
  }

  /** A recovery pass takes the abandoned row over and finds no object. */
  function Reopening(c: Config, md5: string): seq<Action> {
    AbandonedCompletion(c, md5) + PassBegins(1) + [Decide(1, Done)]
  }

  /** The row accepts parts again, although its session is gone and its object is there: the pass
      has reopened the row before the abandoned Complete arrives. */
  lemma AbandonedCompleteLosesTheSession(c: Config, md5: string)
    requires Wellformed(c) && c.s3 && c.ttl > 0
    ensures EndsUnsafe(c, Reopening(c, md5), LandComplete([Part(1, md5)]))
    ensures var s := Run(c, Begin(c), Reopening(c, md5) + [LandComplete([Part(1, md5)])]);
            Accepting(s) && s.session == Closed && s.blob.Some?
  {
    CompletionIsAbandoned(c, md5);
    var s := Run(c, Begin(c), AbandonedCompletion(c, md5));
    PassSees(c, s, 1);
    Appended(c, AbandonedCompletion(c, md5), PassBegins(1));
    Appended(c, AbandonedCompletion(c, md5) + PassBegins(1), [Decide(1, Done)]);
    var t := Run(c, s, PassBegins(1));
    RunOne(c, t, Decide(1, Done));
    RunExtends(c, Begin(c), Reopening(c, md5), LandComplete([Part(1, md5)]));
    EveryCrashPointIsRecoverable(c, Reopening(c, md5));
    ReopenedLosesTheSession(c, t, 1, [Part(1, md5)]);
  }
}
