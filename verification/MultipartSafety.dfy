/** What holds in every run of a multipart upload. */
module MultipartSafety {
  import opened Wrappers
  import opened Text
  import opened Lifecycle
  import opened Completion
  import opened Geometry
  import opened Multipart
  import opened MultipartInvariant

  // ---- crash recovery ----

  /** The session or the object of every upload has its location row; an upload that still accepts
      parts has an open session and no object; a claimed completion has either the object its row
      expects or an open session and no object; an active file has the object it names; Complete
      took effect at most once and recovery never gave an upload up. */
  ghost predicate Safe(s: State) {
    (s.blob.Some? || s.session.Open? ==> s.location) &&
    (s.published && s.file == Pending && s.phase == Free ==> s.session.Open? && s.blob == None) &&
    (s.phase.Completing? ==>
       if s.blob.Some? then MatchesExpectation(s.phase.size, s.phase.etag, s.blob.value) else s.session.Open?) &&
    (s.file == Active ==> s.blob.Some? && MatchesExpectation(s.size, s.etag, s.blob.value)) &&
    s.completions <= 1 && s.discarded == 0
  }

  lemma InvIsSafe(c: Config, s: State)
    requires Inv(c, s)
    ensures Safe(s)
  {
  }

  lemma EveryCrashPointIsRecoverable(c: Config, xs: seq<Action>)
    requires Wellformed(c) && Punctual(c, Begin(c), xs)
    ensures Safe(Run(c, Begin(c), xs))
  {
    BeginInv(c);
    RunKeepsInv(c, Begin(c), xs);
    InvIsSafe(c, Run(c, Begin(c), xs));
  }

  lemma ReachableInv(c: Config, xs: seq<Action>)
    requires Wellformed(c) && Punctual(c, Begin(c), xs)
    ensures Inv(c, Run(c, Begin(c), xs))
  {
    BeginInv(c);
    RunKeepsInv(c, Begin(c), xs);
  }

  /** What a recovery decision may do: leave the row as it is, activate it with the object that is
      there, or reopen it over an open session. Provider contents and ledger stay as they are. */
  ghost predicate RightlyDecided(s: State, u: State) {
    u.session == s.session && u.blob == s.blob && u.ledger == s.ledger && u.location == s.location &&
    ((u.file == s.file && u.phase == s.phase && u.lease == s.lease && u.expires == s.expires) ||
     (s.phase.Completing? && u.file == Active && s.blob.Some? && u.size == s.phase.size &&
      EqIgnoreCase(u.etag, s.phase.etag) && MatchesExpectation(u.size, u.etag, s.blob.value)) ||
     (Abandoned(s) && s.session.Open? && s.blob == None && u.file == Pending && u.phase == Free))
  }

  lemma DecidedIsRight(c: Config, s: State, etag: string, t: State)
    requires RowsInv(c, s) && Decided(c, s, etag, t)
    ensures RightlyDecided(s, t)
  {
  }

  lemma BystanderInv(c: Config, s: State, a: nat)
    requires Inv(c, s)
    ensures RowsInv(c, s) && SnapshotInv(c, s) && ProcInv(c, s, a, ProcOf(s, a))
  {
  }

  lemma DecidesRight(c: Config, s: State, a: nat, fate: Fate)
    requires Inv(c, s)
    ensures RightlyDecided(s, Next(c, s, Decide(a, fate)))
  {
    BystanderInv(c, s, a);
    var etag, t := DecideIsDecided(c, s, Decide(a, fate));
    DecidedIsRight(c, s, etag, t);
  }

  /** A recovery pass in any reachable state, with whatever it saw whenever it looked. */
  lemma RecoveryDecidesRight(c: Config, xs: seq<Action>, a: nat, fate: Fate)
    requires Wellformed(c) && Punctual(c, Begin(c), xs)
    ensures var s := Run(c, Begin(c), xs); RightlyDecided(s, Next(c, s, Decide(a, fate)))
  {
    ReachableInv(c, xs);
    DecidesRight(c, Run(c, Begin(c), xs), a, fate);
  }

  /** A pass that gets through in time on an abandoned row settles it: exactly the prepared ETag
      and size are activated if the object is there, otherwise parts are accepted again. */
  lemma RecoverySettles(c: Config, s: State, a: nat)
    requires Inv(c, s) && Abandoned(s) && ProcOf(s, a).Judging? && s.now <= ProcOf(s, a).seen.at + c.passTimeout
    requires c.ttl > 0
    ensures var t := Next(c, s, Decide(a, Done));
            if s.blob.Some?
            then t.file == Active && t.size == s.phase.size && EqIgnoreCase(t.etag, s.phase.etag) && t.blob == s.blob
            else Accepting(t) && t.session.Open? && t.ledger == s.ledger
  {
    BystanderInv(c, s, a);
    var p := ProcOf(s, a);
    assert CanStillAct(c, s, p.seen.at);
    JudgingSeesTheBlob(c, s, a);
    assert s.blob.Some? ==> Finalizable(c, s, p.seen.etag);
  }

  lemma JudgingSeesTheBlob(c: Config, s: State, a: nat)
    requires Inv(c, s) && ProcOf(s, a).Judging? && CanStillAct(c, s, ProcOf(s, a).seen.at)
    ensures ProcOf(s, a).blob == s.blob
    ensures ProcOf(s, a).seen.size == s.phase.size && ProcOf(s, a).seen.etag == s.phase.etag
    ensures s.blob.Some? ==> MatchesExpectation(s.phase.size, s.phase.etag, s.blob.value)
  {
    BystanderInv(c, s, a);
    if ProcOf(s, a).blob.Some? {
      assert !Condemned(s);
    }
  }

  /** Until it decides, a pass changes nothing but its own place, and an observation error ends it. */
  lemma LookingChangesNothing(c: Config, s: State, x: Action)
    requires Recovers(x) && !x.Decide?
    ensures Next(c, s, x).(procs := s.procs) == s
    ensures x.Look? && x.fate != Done && ProcOf(s, x.a).Inspecting? ==> ProcOf(Next(c, s, x), x.a) == Idle
  {
  }

  // ---- the lease is a fence ----

  /** Actor `a` owns the completion of `parts`, and its call is in flight. */
  ghost predicate Owns(c: Config, s: State, a: nat, parts: seq<Part>) {
    Wellformed(c) && ProcOf(s, a) == InFlight(parts) && s.file == Pending && s.lease == Issued &&
    s.phase == Completing(ExpectedSize(c, parts), c.composite(Tags(parts)), parts, a)
  }

  /** The provider's ETag of an assembled object is the one computed from its parts. */
  ghost predicate Conforming(c: Config) {
    forall tags :: EqIgnoreCase(c.vendorTag(tags), c.composite(tags))
  }

  /** If `a` holds the claimed row, its lease has not run out. */
  predicate LeaseHolds(s: State, a: nat) {
    s.phase.Completing? && s.phase.owner == a ==> s.now <= s.expires
  }

  /** At no point of the run does the row say that `a` holds it under a lease that has run out. */
  ghost predicate Unexpired(c: Config, s: State, xs: seq<Action>, a: nat)
    decreases |xs|
  {
    LeaseHolds(Run(c, s, xs), a) && (xs != [] ==> Unexpired(c, s, xs[..|xs| - 1], a))
  }

  ghost predicate FenceKept(s: State, t: State) {
    (t.phase == s.phase && t.file == Pending && t.lease == Issued) || |t.activations| == 1
  }

  ghost predicate Fenced(c: Config, s: State, x: Action) {
    RowsInv(c, s) && s.phase.Completing? && s.file == Pending && s.lease == Issued && s.now <= s.expires &&
    (Mine(x).Some? ==> ProcInv(c, s, x.a, ProcOf(s, x.a)))
  }

  lemma ConcludingRespectsFence(c: Config, s: State, x: Action)
    requires Fenced(c, s, x) && Concludes(x)
    ensures FenceKept(s, Next(c, s, x))
  {
  }

  lemma RecoveringRespectsFence(c: Config, s: State, x: Action)
    requires Fenced(c, s, x) && Recovers(x)
    ensures FenceKept(s, Next(c, s, x))
  {
  }

  lemma UploadingRespectsFence(c: Config, s: State, x: Action)
    requires Fenced(c, s, x) && (Uploads(x) || Settles(x))
    ensures FenceKept(s, Next(c, s, x))
  {
  }

  lemma ClaimingRespectsFence(c: Config, s: State, x: Action)
    requires Fenced(c, s, x) && Claims(x)
    ensures FenceKept(s, Next(c, s, x))
  {
  }

  lemma ReleasingRespectsFence(c: Config, s: State, x: Action)
    requires Fenced(c, s, x) && Releases(x)
    ensures FenceKept(s, Next(c, s, x))
  {
  }

  lemma OutsideRespectsFence(c: Config, s: State, x: Action)
    requires Fenced(c, s, x) && Mine(x) == None
    ensures FenceKept(s, Next(c, s, x))
  {
  }

  lemma StepRespectsFence(c: Config, s: State, x: Action)
    requires Fenced(c, s, x)
    ensures FenceKept(s, Next(c, s, x))
  {
    if Mine(x) == None { OutsideRespectsFence(c, s, x); }
    else if Concludes(x) { ConcludingRespectsFence(c, s, x); }
    else if Recovers(x) { RecoveringRespectsFence(c, s, x); }
    else if Uploads(x) || Settles(x) { UploadingRespectsFence(c, s, x); }
    else if Claims(x) { ClaimingRespectsFence(c, s, x); }
    else { ReleasingRespectsFence(c, s, x); }
  }

  lemma StepKeepsActivations(c: Config, s: State, x: Action)
    requires RowsInv(c, s)
    ensures s.activations <= Next(c, s, x).activations
  {
  }

  /** The completion is still `a`'s, or the file has been activated. */
  ghost predicate OwnsOrDone(c: Config, s: State, a: nat, parts: seq<Part>) {
    Owns(c, s, a, parts) || |s.activations| == 1
  }

  lemma RenewalKeepsOwnership(c: Config, s: State, a: nat, parts: seq<Part>, fate: Fate)
    requires Owns(c, s, a, parts)
    ensures Owns(c, Next(c, s, RenewCompletion(a, fate)), a, parts)
  {
  }

  lemma StepKeepsOwnership(c: Config, s: State, x: Action, a: nat, parts: seq<Part>)
    requires Inv(c, s) && Admissible(c, s, x) && OwnsOrDone(c, s, a, parts) && LeaseHolds(s, a)
    requires Mine(x) == Some(a) ==> x.RenewCompletion?
    ensures OwnsOrDone(c, Next(c, s, x), a, parts)
  {
    NextKeepsInv(c, s, x);
    StepKeepsActivations(c, s, x);
    assert RowsInv(c, Next(c, s, x));
    if Owns(c, s, a, parts) {
      if Mine(x) == Some(a) {
        RenewalKeepsOwnership(c, s, a, parts, x.fate);
      } else {
        StepLeavesOthers(c, s, x, a);
        if Mine(x).Some? { BystanderInv(c, s, x.a); }
        StepRespectsFence(c, s, x);
      }
    }
  }

  /** Nobody can take a completion whose lease does not run out: however many other requests,
      recovery passes and sweeps run while its owner renews, the completion is still the owner's at
      the end, unless the file was activated. */
  lemma {:induction false} LeaseIsAFence(c: Config, s: State, xs: seq<Action>, a: nat, parts: seq<Part>)
    requires Inv(c, s) && Punctual(c, s, xs) && Unexpired(c, s, xs, a) && OwnsOrDone(c, s, a, parts)
    requires forall x | x in xs :: Mine(x) == Some(a) ==> x.RenewCompletion?
    ensures OwnsOrDone(c, Run(c, s, xs), a, parts)
    decreases |xs|
  {
    if xs != [] {
      var before := xs[..|xs| - 1];
      LeaseIsAFence(c, s, before, a, parts);
      RunKeepsInv(c, s, before);
      assert before == [] ==> LeaseHolds(s, a);
      StepKeepsOwnership(c, Run(c, s, before), xs[|xs| - 1], a, parts);
    }
  }

  /** The part plan of a native upload is the one its accepted declaration fixes. */
  ghost predicate Planned(c: Config, threshold: int, partSize: int) {
    !c.s3 ==>
      AcceptedMultipart(c.declaredSize, threshold, partSize) &&
      |c.sizes| == PartCount(c.declaredSize, partSize) &&
      forall i | 0 <= i < |c.sizes| :: c.sizes[i] == PartExpectedSize(c.declaredSize, partSize, i + 1)
  }

  lemma VerifiedTotal(c: Config, threshold: int, partSize: int, parts: seq<Part>)
    requires Planned(c, threshold, partSize) && !c.s3 && Verified(c, parts)
    ensures Total(c, parts) == c.declaredSize
  {
    var sizes := seq(|parts|, i requires 0 <= i < |parts| => c.sizes[i] as int);
    TotalIsSum(c, parts, sizes);
    VerifiedPartsSumToTheDeclaration(c.declaredSize, threshold, partSize, sizes);
  }

  lemma {:induction false} TotalIsSum(c: Config, parts: seq<Part>, sizes: seq<int>)
    requires |sizes| == |parts| && forall i | 0 <= i < |parts| :: sizes[i] == c.sizeOf(parts[i].md5)
    ensures Total(c, parts) == Sum(sizes)
  {
    if parts != [] {
      TotalIsSum(c, parts[..|parts| - 1], sizes[..|sizes| - 1]);
    }
  }

  lemma PlannedIsWellformed(c: Config, threshold: int, partSize: int)
    requires Planned(c, threshold, partSize) && c.passTimeout <= c.ttl
    ensures Wellformed(c)
  {
    forall parts | !c.s3 && Verified(c, parts) ensures Total(c, parts) == c.declaredSize {
      VerifiedTotal(c, threshold, partSize, parts);
    }
  }

  /** An effect that arrives while its own claim is in force: the create request's lease, or the
      row's claim of exactly these parts, has not run out. */
  ghost predicate Prompt(c: Config, s: State, x: Action)
  {
    (Opens(s, x) ==> s.now <= s.expires && (s.creation == Calling || s.creation == Dead)) &&
    (Publishes(s, x) ==> s.now <= s.expires && s.phase.Completing? && s.phase.parts == Published(s, x))
  }

  lemma PromptIsAdmissible(c: Config, s: State, x: Action)
    requires Inv(c, s) && Conforming(c) && Prompt(c, s, x)
    ensures Admissible(c, s, x)
  {
    forall b | b in s.procs && s.procs[b].Judging? ensures s.now <= s.expires ==> !CanStillAct(c, s, s.procs[b].seen.at) {
      BystanderInv(c, s, b);
    }
    if Publishes(s, x) {
      var parts := Published(s, x);
      assert EqIgnoreCase(c.vendorTag(Tags(parts)), c.composite(Tags(parts)));
      EqIgnoreCaseIsEquivalence(c.vendorTag(Tags(parts)), c.composite(Tags(parts)), "");
    }
  }

  ghost predicate AllPrompt(c: Config, s: State, xs: seq<Action>)
    decreases |xs|
  {
    xs != [] ==> AllPrompt(c, s, xs[..|xs| - 1]) && Prompt(c, Run(c, s, xs[..|xs| - 1]), xs[|xs| - 1])
  }

  /** Against a provider whose ETag is the composite of the parts', a run is punctual, and so every
      crash point is safe, if a session is opened only while the create call runs or after it
      stopped there, within the create lease, and Complete takes effect only under the row's
      unexpired claim of the same parts. */
  lemma {:induction false} PromptRunsAreSafe(c: Config, xs: seq<Action>)
    requires Wellformed(c) && Conforming(c) && AllPrompt(c, Begin(c), xs)
    ensures Punctual(c, Begin(c), xs) && Safe(Run(c, Begin(c), xs))
    decreases |xs|
  {
    if xs != [] {
      var before := xs[..|xs| - 1];
      PromptRunsAreSafe(c, before);
      ReachableInv(c, before);
      PromptIsAdmissible(c, Run(c, Begin(c), before), xs[|xs| - 1]);
    }
    EveryCrashPointIsRecoverable(c, xs);
  }

  lemma OwnedIsHarmless(c: Config, s: State, a: nat, parts: seq<Part>)
    requires Inv(c, s) && Conforming(c) && OwnsOrDone(c, s, a, parts) && LeaseHolds(s, a)
    ensures HarmlessPublish(c, s, parts)
  {
    if Owns(c, s, a, parts) {
      PromptIsAdmissible(c, s, CompleteReturns(a, Done));
    } else {
      assert ProviderInv(s);
    }
  }

  /** From the claim to the reply of Complete, in any run in which the owner's renewals keep the
      lease from running out, its call is harmless whenever it takes effect. */
  lemma HeartbeatsKeepCompletionHarmless(c: Config, s: State, xs: seq<Action>, a: nat, parts: seq<Part>)
    requires Inv(c, s) && Conforming(c) && Owns(c, s, a, parts)
    requires Punctual(c, s, xs) && Unexpired(c, s, xs, a)
    requires forall x | x in xs :: Mine(x) == Some(a) ==> x.RenewCompletion?
    ensures HarmlessPublish(c, Run(c, s, xs), parts)
  {
    LeaseIsAFence(c, s, xs, a, parts);
    RunKeepsInv(c, s, xs);
    OwnedIsHarmless(c, Run(c, s, xs), a, parts);
  }

  // ---- exactly which late effects are safe ----

  lemma RunOne(c: Config, s: State, x: Action)
    ensures Run(c, s, [x]) == Next(c, s, x)
    ensures Punctual(c, s, [x]) <==> Admissible(c, s, x)
  {
    assert [x][..0] == [];
  }

  lemma RunTwo(c: Config, s: State, x: Action, y: Action)
    ensures Run(c, s, [x, y]) == Next(c, Next(c, s, x), y)
    ensures Punctual(c, s, [x, y]) <==> Admissible(c, s, x) && Admissible(c, Next(c, s, x), y)
  {
    RunOne(c, s, x);
    RunExtends(c, s, [x], y);
    assert [x] + [y] == [x, y];
  }

  /** Every punctual continuation is safe. */
  ghost predicate SafeFrom(c: Config, t: State) {
    forall xs | Punctual(c, t, xs) :: Safe(Run(c, t, xs))
  }

  lemma InvIsSafeFromHere(c: Config, t: State)
    requires Inv(c, t)
    ensures SafeFrom(c, t)
  {
    forall xs | Punctual(c, t, xs) ensures Safe(Run(c, t, xs)) {
      RunKeepsInv(c, t, xs);
      InvIsSafe(c, Run(c, t, xs));
    }
  }

  lemma UnsafeNow(c: Config, t: State, xs: seq<Action>)
    requires Punctual(c, t, xs) && !Safe(Run(c, t, xs))
    ensures !SafeFrom(c, t)
  {
  }

  lemma HarmfulReopen(c: Config, t: State, b: nat)
    requires t.published && t.blob.Some? && ProcOf(t, b).Judging? && ProcOf(t, b).blob == None
    requires CanStillAct(c, t, ProcOf(t, b).seen.at)
    ensures !SafeFrom(c, t)
  {
    var x, y := Tick(ProcOf(t, b).seen.at + c.passTimeout - t.now), Decide(b, Done);
    RunTwo(c, t, x, y);
    var u := Next(c, t, x);
    assert Abandoned(u) && ProcOf(u, b) == ProcOf(t, b);
    UnsafeNow(c, t, [x, y]);
  }

  lemma HarmfulAtOnce(c: Config, s: State, parts: seq<Part>)
    requires RowsInv(c, s) && parts in s.lateCompletes && Takes(s, parts) && !Condemned(s)
    requires s.phase.Completing? ==> !MatchesExpectation(s.phase.size, s.phase.etag, Whole(c, parts))
    ensures !Safe(Next(c, s, LandComplete(parts)))
  {
  }

  lemma HarmfulIsUnsafe(c: Config, s: State, parts: seq<Part>)
    requires RowsInv(c, s) && parts in s.lateCompletes && !HarmlessPublish(c, s, parts)
    ensures !SafeFrom(c, Next(c, s, LandComplete(parts)))
  {
    var t := Next(c, s, LandComplete(parts));
    if s.phase.Completing? && MatchesExpectation(s.phase.size, s.phase.etag, Whole(c, parts)) {
      var b :| b in s.procs && s.procs[b].Judging? && s.procs[b].blob == None &&
               CanStillAct(c, s, s.procs[b].seen.at);
      HarmfulReopen(c, t, b);
    } else {
      HarmfulAtOnce(c, s, parts);
      UnsafeNow(c, t, []);
    }
  }

  /** Exactly when a Complete that outlived its caller may take effect: a harmless one leaves every
      continuation safe, and any other makes some continuation unsafe. */
  lemma LateCompleteIsSafeExactlyWhenHarmless(c: Config, s: State, parts: seq<Part>)
    requires Inv(c, s) && parts in s.lateCompletes
    ensures HarmlessPublish(c, s, parts) <==> SafeFrom(c, Next(c, s, LandComplete(parts)))
  {
    if HarmlessPublish(c, s, parts) {
      NextKeepsInv(c, s, LandComplete(parts));
      InvIsSafeFromHere(c, Next(c, s, LandComplete(parts)));
    } else {
      HarmfulIsUnsafe(c, s, parts);
    }
  }

  lemma ReleaseAfterSwept(c: Config, t: State, a: nat)
    requires Condemned(t) && t.session.Open? && ProcOf(t, a) == Swept
    ensures !Safe(Next(c, t, SweepRelease(a, Done)))
  {
  }

  lemma ReleaseAfter(c: Config, t: State, a: nat)
    requires Condemned(t) && t.session.Open? && (ProcOf(t, a) == AbortTried(true) || ProcOf(t, a) == Swept)
    ensures !SafeFrom(c, t)
  {
    var x, y := SweepDelete(a, Done), SweepRelease(a, Done);
    if ProcOf(t, a) == Swept {
      RunOne(c, t, y);
      ReleaseAfterSwept(c, t, a);
      UnsafeNow(c, t, [y]);
    } else {
      RunTwo(c, t, x, y);
      ReleaseAfterSwept(c, Next(c, t, x), a);
      UnsafeNow(c, t, [x, y]);
    }
  }

  /** Exactly when a session-opening call that outlived its create request may take effect: its
      location row must still be there, with no cleanup past the point where it closes sessions. */
  lemma LateCreateIsSafeExactlyWhenHarmless(c: Config, s: State)
    requires Inv(c, s) && s.lateCreate
    ensures var t := Next(c, s, LandCreate);
            HarmlessOpen(s) <==> SafeFrom(c, t)
  {
    var t := Next(c, s, LandCreate);
    if HarmlessOpen(s) {
      NextKeepsInv(c, s, LandCreate);
      InvIsSafeFromHere(c, t);
    } else if !s.location {
      UnsafeNow(c, t, []);
    } else if s.creation == Aborted && !Condemned(s) {
      RunOne(c, t, CompensateRelease(Done));
      UnsafeNow(c, t, [CompensateRelease(Done)]);
    } else {
      var a :| a in s.procs && (s.procs[a] == AbortTried(true) || s.procs[a] == Swept);
      BystanderInv(c, s, a);
      ReleaseAfter(c, t, a);
    }
  }

  // ---- part claims against completion ----

  ghost predicate HoldsPart(s: State, a: nat, n: nat) {
    var p := ProcOf(s, a);
    (p.Holding? && p.n == n) || (p.Uploaded? && p.n == n) || (p.Refused? && p.n == n)
  }

  /** While a part claim is held nobody else holds that part, the row is not completing, and no
      completion can be claimed. */
  lemma ClaimExcludesCompletion(c: Config, s: State, a: nat, n: nat, b: nat, parts: seq<Part>, fate: Fate)
    requires Inv(c, s) && HoldsPart(s, a, n)
    ensures HoldsPart(s, b, n) ==> a == b
    ensures !s.phase.Completing? && !Next(c, s, Prepare(b, parts, fate)).phase.Completing?
  {
    BystanderInv(c, s, a);
    BystanderInv(c, s, b);
  }

  /** While a completion is claimed no part can be claimed, and what it prepared is what the ledger
      says: on the native relay the whole ledger, on the S3 surface the client's part of it. */
  lemma CompletionExcludesClaims(c: Config, s: State, a: nat, n: nat, md5: string)
    requires Inv(c, s) && s.phase.Completing?
    ensures Next(c, s, ClaimPart(a, n, md5)).ledger == s.ledger && !HoldsPart(s, a, n)
    ensures !Direct(c) ==> InLedger(s.ledger, s.phase.parts)
    ensures c.relay && !c.s3 ==> |s.ledger| == |s.phase.parts|
    ensures s.phase.etag == c.composite(Tags(s.phase.parts)) && s.phase.size == Total(c, s.phase.parts)
  {
    BystanderInv(c, s, a);
  }

  /** A finished part is recorded by the actor whose claim it is, with what it measured; every
      other row stays as it was. */
  lemma FinishRecordsOwnClaim(c: Config, s: State, a: nat, fate: Fate)
    requires Inv(c, s) && ProcOf(s, a).Uploaded?
    ensures var p, t := ProcOf(s, a), Next(c, s, FinishPart(a, fate));
            s.ledger[p.n].Taken? && s.ledger[p.n].claimant == a &&
            (t.ledger == s.ledger || (t.ledger == s.ledger[p.n := Stored(p.md5)] && s.file == Pending))
  {
    BystanderInv(c, s, a);
  }

  lemma UploadingKeepsLedger(c: Config, s: State, x: Action)
    requires RowsInv(c, s) && SnapshotInv(c, s) && s.phase.Completing? && (Uploads(x) || Settles(x))
    requires ProcInv(c, s, x.a, ProcOf(s, x.a))
    ensures Next(c, s, x).ledger == s.ledger
  {
  }

  lemma OthersKeepLedger(c: Config, s: State, x: Action)
    requires !Uploads(x) && !Settles(x)
    ensures Next(c, s, x).ledger == s.ledger
  {
  }

  /** The row stays claimed throughout the run. */
  ghost predicate StaysClaimed(c: Config, s: State, xs: seq<Action>)
    decreases |xs|
  {
    Run(c, s, xs).phase.Completing? && (xs != [] ==> StaysClaimed(c, s, xs[..|xs| - 1]))
  }

  /** From the claim until finalize or reopen, no interleaving changes the part ledger. */
  lemma {:induction false} LedgerIsFrozenWhileCompleting(c: Config, s: State, xs: seq<Action>)
    requires Inv(c, s) && Punctual(c, s, xs) && StaysClaimed(c, s, xs)
    ensures Run(c, s, xs).ledger == s.ledger
    decreases |xs|
  {
    if xs != [] {
      var before, x := xs[..|xs| - 1], xs[|xs| - 1];
      LedgerIsFrozenWhileCompleting(c, s, before);
      RunKeepsInv(c, s, before);
      var t := Run(c, s, before);
      assert before == [] ==> t == s;
      if Uploads(x) || Settles(x) {
        BystanderInv(c, t, x.a);
        UploadingKeepsLedger(c, t, x);
      } else {
        OthersKeepLedger(c, t, x);
      }
    }
  }

  // ---- racing commits ----

  lemma {:induction false} RunKeepsActivations(c: Config, s: State, xs: seq<Action>)
    requires Inv(c, s) && Punctual(c, s, xs)
    ensures s.activations <= Run(c, s, xs).activations
    decreases |xs|
  {
    if xs != [] {
      var before := xs[..|xs| - 1];
      RunKeepsActivations(c, s, before);
      RunKeepsInv(c, s, before);
      StepKeepsActivations(c, Run(c, s, before), xs[|xs| - 1]);
    }
  }

  /** At most one step of any run activates the file, and every commit that answered, at any two
      moments of the run, answered the ETag that step stored. */
  lemma RacingCommitsAgree(c: Config, xs: seq<Action>, ys: seq<Action>, a: nat, b: nat)
    requires Wellformed(c) && Punctual(c, Begin(c), xs + ys)
    ensures var s, t := Run(c, Begin(c), xs), Run(c, Begin(c), xs + ys);
            |t.activations| <= 1 && s.activations <= t.activations &&
            (ProcOf(s, a).Answered? ==> |t.activations| == 1 && EqIgnoreCase(t.etag, ProcOf(s, a).etag)) &&
            (ProcOf(t, b).Answered? ==> |t.activations| == 1 && EqIgnoreCase(t.etag, ProcOf(t, b).etag))
  {
    PunctualSplits(c, Begin(c), xs, ys);
    ReachableInv(c, xs);
    ReachableInv(c, xs + ys);
    RunKeepsActivations(c, Run(c, Begin(c), xs), ys);
    BystanderInv(c, Run(c, Begin(c), xs), a);
    BystanderInv(c, Run(c, Begin(c), xs + ys), b);
  }
}
