/** What a multipart upload can always still do: become active when its parts are there, give a part
    claim back, and be cleaned up, from every state it can get into. */
module MultipartProgress {
  import opened Wrappers
  import opened Text
  import opened Lifecycle
  import opened Completion
  import opened Multipart
  import opened MultipartInvariant
  import opened MultipartSafety
  import opened MultipartHazards

  // ---- parts ----

  lemma PartIsClaimed(c: Config, s: State, a: nat, n: nat, md5: string)
    requires (c.s3 || c.relay) && Accepting(s) && PartFits(c, n, md5) && !ClaimedRow(s, n) && ProcOf(s, a) == Idle
    ensures var prev := if n in s.ledger then Some(s.ledger[n].md5) else None;
            NextUpload(c, s, ClaimPart(a, n, md5)) ==
            s.(ledger := s.ledger[n := Taken(prev, a)], expires := Max(s.expires, s.now + c.ttl),
               procs := s.procs[a := Holding(n, md5)])
  {
  }

  lemma PartIsTaken(c: Config, s: State, a: nat, n: nat, md5: string)
    requires ProcOf(s, a) == Holding(n, md5) && s.session.Open?
    ensures NextUpload(c, s, PartReturns(a, Done)) ==
            s.(session := Open(s.session.parts[n := md5]), procs := s.procs[a := Uploaded(n, md5)])
    ensures NextUpload(c, s, PartReturns(a, NotApplied)) == s.(procs := s.procs[a := Refused(n)])
  {
  }

  lemma PartIsRecorded(c: Config, s: State, a: nat, n: nat, md5: string)
    requires ProcOf(s, a) == Uploaded(n, md5) && s.file == Pending && s.phase == Free && ClaimedRow(s, n)
    ensures NextSettle(c, s, FinishPart(a, Done)) ==
            s.(ledger := s.ledger[n := Stored(md5)], procs := s.procs[a := Idle])
  {
  }

  lemma PartIsReleased(c: Config, s: State, a: nat, n: nat)
    requires ProcOf(s, a) == Refused(n) && ClaimedRow(s, n)
    ensures var prev := s.ledger[n].prev;
            NextSettle(c, s, CancelPart(a, Done)) ==
            s.(ledger := if prev.Some? then s.ledger[n := Stored(prev.value)] else s.ledger - {n},
               procs := s.procs[a := Idle])
  {
  }

  /** A part that is claimed, taken by the provider and recorded is in the ledger and in the session
      with its digest; no other part is touched, and the lease is full. */
  lemma UploadedPartIsStored(c: Config, s: State, a: nat, n: nat, md5: string)
    requires (c.s3 || c.relay) && Accepting(s) && PartFits(c, n, md5) && !ClaimedRow(s, n) && ProcOf(s, a) == Idle
    requires s.session.Open?
    ensures var t := Run(c, s, PartStored(a, n, md5));
            t.ledger == s.ledger[n := Stored(md5)] && t.session == Open(s.session.parts[n := md5]) &&
            t.expires >= s.now + c.ttl && t.now == s.now && t.phase == Free && t.file == Pending && ProcOf(t, a) == Idle
  {
    RunThree(c, s, ClaimPart(a, n, md5), PartReturns(a, Done), FinishPart(a, Done));
    PartIsClaimed(c, s, a, n, md5);
    var s1 := NextUpload(c, s, ClaimPart(a, n, md5));
    PartIsTaken(c, s1, a, n, md5);
    var s2 := NextUpload(c, s1, PartReturns(a, Done));
    PartIsRecorded(c, s2, a, n, md5);
  }

  /** A claim whose part the provider refused is undone: ledger and session are what they were. */
  lemma CancelUndoesTheClaim(c: Config, s: State, a: nat, n: nat, md5: string)
    requires (c.s3 || c.relay) && Accepting(s) && PartFits(c, n, md5) && !ClaimedRow(s, n) && ProcOf(s, a) == Idle
    requires s.session.Open?
    ensures var t := Run(c, s, [ClaimPart(a, n, md5), PartReturns(a, NotApplied), CancelPart(a, Done)]);
            t.ledger == s.ledger && t.session == s.session && t.phase == Free && ProcOf(t, a) == Idle
  {
    RunThree(c, s, ClaimPart(a, n, md5), PartReturns(a, NotApplied), CancelPart(a, Done));
    PartIsClaimed(c, s, a, n, md5);
    var s1 := NextUpload(c, s, ClaimPart(a, n, md5));
    PartIsTaken(c, s1, a, n, md5);
    var s2 := NextUpload(c, s1, PartReturns(a, NotApplied));
    PartIsReleased(c, s2, a, n);
    if n in s.ledger {
      assert s.ledger[n].Stored?;
    }
  }

  // ---- completion ----

  lemma CompletionIsClaimed(c: Config, s: State, a: nat, parts: seq<Part>)
    requires s.published && Claimable(s) && Preparable(c, s, parts)
    requires ProcOf(s, a) == if Direct(c) then Listing(parts) else Idle
    ensures NextClaim(c, s, Prepare(a, parts, Done)) == With(ClaimRow(c, s, parts, a), a, InFlight(parts))
  {
  }

  lemma CompletionIsPublished(c: Config, s: State, a: nat, parts: seq<Part>)
    requires ProcOf(s, a) == InFlight(parts) && Takes(s, parts)
    requires EqIgnoreCase(c.vendorTag(Tags(parts)), c.composite(Tags(parts)))
    ensures NextConclude(c, s, CompleteReturns(a, Done)) ==
            With(s.(session := Closed, blob := Some(Whole(c, parts)), completions := s.completions + 1), a,
                 Assembled(c.composite(Tags(parts))))
  {
  }

  lemma CompletionIsFinalized(c: Config, s: State, a: nat, parts: seq<Part>, etag: string)
    requires ProcOf(s, a) == Assembled(etag) && s.file == Pending && s.phase.Completing? && s.phase.etag == etag
    ensures NextConclude(c, s, Finalize(a, Done)) ==
            With(s.(file := Active, etag := etag, size := s.phase.size, lease := Committed, phase := Free,
                    activations := s.activations + [etag]), a, Answered(etag))
  {
    EqIgnoreCaseIsEquivalence(etag, etag, etag);
  }

  function CommitSteps(a: nat, parts: seq<Part>): seq<Action> {
    [Prepare(a, parts, Done), CompleteReturns(a, Done), Finalize(a, Done)]
  }

  /** A list that can be prepared and that the session holds becomes the active file: with the size
      and the ETag computed from it, and the object it names. */
  lemma PreparedUploadActivates(c: Config, s: State, a: nat, parts: seq<Part>)
    requires Inv(c, s) && Conforming(c) && s.published && Claimable(s) && Preparable(c, s, parts) && Takes(s, parts)
    requires ProcOf(s, a) == if Direct(c) then Listing(parts) else Idle
    ensures Punctual(c, s, CommitSteps(a, parts))
    ensures var t, etag := Run(c, s, CommitSteps(a, parts)), c.composite(Tags(parts));
            t.file == Active && t.etag == etag && t.size == ExpectedSize(c, parts) && t.lease == Committed &&
            t.blob == Some(Blob(Total(c, parts), c.vendorTag(Tags(parts)))) && t.session == Closed &&
            t.ledger == s.ledger && t.activations == s.activations + [etag] && ProcOf(t, a) == Answered(etag)
  {
    var etag := c.composite(Tags(parts));
    RunThree(c, s, Prepare(a, parts, Done), CompleteReturns(a, Done), Finalize(a, Done));
    CompletionIsClaimed(c, s, a, parts);
    var s1 := With(ClaimRow(c, s, parts, a), a, InFlight(parts));
    assert Next(c, s, Prepare(a, parts, Done)) == s1;
    NextKeepsInv(c, s, Prepare(a, parts, Done));
    PreparedCallIsAdmissible(c, s1, a, parts);
    assert EqIgnoreCase(c.vendorTag(Tags(parts)), etag);
    CompletionIsPublished(c, s1, a, parts);
    var s2 := Next(c, s1, CompleteReturns(a, Done));
    CompletionIsFinalized(c, s2, a, parts, etag);
    CommitIsPunctual(c, s, a, parts);
  }

  lemma PreparedCallIsAdmissible(c: Config, s: State, a: nat, parts: seq<Part>)
    requires Inv(c, s) && Conforming(c) && ProcOf(s, a) == InFlight(parts)
    requires s.now <= s.expires && s.phase.Completing? && s.phase.parts == parts
    ensures Admissible(c, s, CompleteReturns(a, Done))
  {
    PromptIsAdmissible(c, s, CompleteReturns(a, Done));
  }

  lemma CommitIsPunctual(c: Config, s: State, a: nat, parts: seq<Part>)
    requires Admissible(c, Next(c, s, Prepare(a, parts, Done)), CompleteReturns(a, Done))
    ensures Punctual(c, s, CommitSteps(a, parts))
  {
    var s1 := Next(c, s, Prepare(a, parts, Done));
    RunTwo(c, s1, CompleteReturns(a, Done), Finalize(a, Done));
    RunFrom(c, s, [CompleteReturns(a, Done), Finalize(a, Done)], Prepare(a, parts, Done));
    assert [Prepare(a, parts, Done)] + [CompleteReturns(a, Done), Finalize(a, Done)] == CommitSteps(a, parts);
  }

  // ---- cleanup ----

  function SweepSteps(a: nat): seq<Action> {
    [SweepStart(a), SweepAbort(a, Done)] + [SweepDelete(a, Done), SweepRelease(a, Done)]
  }

  /** The provider has nothing of this upload, and neither has the location table. */
  predicate CleanedUp(s: State) {
    !s.location && !s.session.Open? && s.blob == None
  }

  lemma SweepBegins(c: Config, s: State, a: nat)
    requires RowsInv(c, s) && Condemned(s) && s.location && ProcOf(s, a) == Idle
    ensures var t := Run(c, s, [SweepStart(a), SweepAbort(a, Done)]);
            ProcOf(t, a) == AbortTried(true) && !t.session.Open? && t.location
  {
    RunTwo(c, s, SweepStart(a), SweepAbort(a, Done));
  }

  lemma SweepFinishes(c: Config, s: State, a: nat)
    requires ProcOf(s, a) == AbortTried(true) && !s.session.Open?
    ensures CleanedUp(Run(c, s, [SweepDelete(a, Done), SweepRelease(a, Done)]))
  {
    RunTwo(c, s, SweepDelete(a, Done), SweepRelease(a, Done));
  }

  lemma SweepCleansUp(c: Config, s: State, a: nat)
    requires RowsInv(c, s) && Condemned(s) && s.location && ProcOf(s, a) == Idle
    ensures CleanedUp(Run(c, s, SweepSteps(a))) && Punctual(c, s, SweepSteps(a))
  {
    SweepBegins(c, s, a);
    SweepFinishes(c, Run(c, s, [SweepStart(a), SweepAbort(a, Done)]), a);
    PunctualSplits(c, s, [SweepStart(a), SweepAbort(a, Done)], [SweepDelete(a, Done), SweepRelease(a, Done)]);
    NoEffectIsPunctual(c, s, SweepSteps(a));
  }

  lemma TimePasses(c: Config, s: State, d: nat, xs: seq<Action>)
    ensures Run(c, s, [Tick(d)] + xs) == Run(c, s.(now := s.now + d), xs)
    ensures Punctual(c, s, [Tick(d)] + xs) <==> Punctual(c, s.(now := s.now + d), xs)
  {
    RunFrom(c, s, xs, Tick(d));
    assert NextWorld(c, s, Tick(d)) == s.(now := s.now + d);
  }

  lemma LaterStillHolds(c: Config, s: State, d: nat)
    requires Inv(c, s)
    ensures Inv(c, s.(now := s.now + d))
  {
    NextKeepsInv(c, s, Tick(d));
    assert NextWorld(c, s, Tick(d)) == s.(now := s.now + d);
  }

  /** A row whose lease has run out is reclaimed, and an active file can be deleted. */
  lemma LateRowGoes(c: Config, s: State)
    requires (s.file == Pending && s.phase == Free ==> s.lease == Issued) && !s.phase.Completing? && s.expires < s.now
    ensures var t := Run(c, s, [Reclaim, MarkDeleted]);
            Condemned(t) && t.location == s.location && t.procs == s.procs
  {
    RunTwo(c, s, Reclaim, MarkDeleted);
    var u := NextWorld(c, s, Reclaim);
    assert Next(c, s, Reclaim) == u;
    assert Next(c, u, MarkDeleted) == NextWorld(c, u, MarkDeleted);
  }

  /** From here on, this actor can clean the upload up. */
  ghost predicate Cleanable(c: Config, s: State) {
    exists xs :: Punctual(c, s, xs) && CleanedUp(Run(c, s, xs))
  }

  lemma CleanableLater(c: Config, s: State, xs: seq<Action>)
    requires Punctual(c, s, xs) && Cleanable(c, Run(c, s, xs))
    ensures Cleanable(c, s)
  {
    var ys :| Punctual(c, Run(c, s, xs), ys) && CleanedUp(Run(c, Run(c, s, xs), ys));
    PunctualSplits(c, s, xs, ys);
  }

  lemma CleanableAfter(c: Config, s: State, d: nat)
    requires Cleanable(c, s.(now := s.now + d))
    ensures Cleanable(c, s)
  {
    var ys :| Punctual(c, s.(now := s.now + d), ys) && CleanedUp(Run(c, s.(now := s.now + d), ys));
    TimePasses(c, s, d, ys);
  }

  lemma LateCanBeCleaned(c: Config, s: State, a: nat)
    requires Inv(c, s) && !s.phase.Completing? && s.location && ProcOf(s, a) == Idle && s.expires < s.now
    ensures Cleanable(c, s)
  {
    LateRowGoes(c, s);
    NoEffectIsPunctual(c, s, [Reclaim, MarkDeleted]);
    RunKeepsInv(c, s, [Reclaim, MarkDeleted]);
    SweepCleansUp(c, Run(c, s, [Reclaim, MarkDeleted]), a);
    CleanableLater(c, s, [Reclaim, MarkDeleted]);
  }

  lemma FreeCanBeCleaned(c: Config, s: State, a: nat)
    requires Inv(c, s) && !s.phase.Completing? && s.location && ProcOf(s, a) == Idle
    ensures Cleanable(c, s)
  {
    LaterStillHolds(c, s, s.expires + 1);
    LateCanBeCleaned(c, s.(now := s.now + s.expires + 1), a);
    CleanableAfter(c, s, s.expires + 1);
  }

  lemma AbandonedCanBeCleaned(c: Config, s: State, a: nat)
    requires Inv(c, s) && c.ttl > 0 && Abandoned(s) && s.location && ProcOf(s, a) == Idle
    ensures Cleanable(c, s)
  {
    PassSees(c, s, a);
    var judging := Run(c, s, PassBegins(a));
    NoEffectIsPunctual(c, s, PassBegins(a));
    RunKeepsInv(c, s, PassBegins(a));
    JudgedCanBeCleaned(c, judging, a);
    CleanableLater(c, s, PassBegins(a));
  }

  lemma JudgedCanBeCleaned(c: Config, s: State, a: nat)
    requires Inv(c, s) && c.ttl > 0 && Abandoned(s) && s.location
    requires ProcOf(s, a).Judging? && ProcOf(s, a).seen.at == s.now
    ensures Cleanable(c, s)
  {
    DecisionSettles(c, s, a);
    FreeCanBeCleaned(c, Next(c, s, Decide(a, Done)), a);
    RunOne(c, s, Decide(a, Done));
    NoEffectIsPunctual(c, s, [Decide(a, Done)]);
    CleanableLater(c, s, [Decide(a, Done)]);
  }

  lemma DecisionSettles(c: Config, s: State, a: nat)
    requires Inv(c, s) && c.ttl > 0 && Abandoned(s) && s.location
    requires ProcOf(s, a).Judging? && ProcOf(s, a).seen.at == s.now
    ensures var t := Next(c, s, Decide(a, Done)); Inv(c, t) && !t.phase.Completing? && t.location && ProcOf(t, a) == Idle
  {
    RecoverySettles(c, s, a);
    DecidesRight(c, s, a, Done);
    NextKeepsInv(c, s, Decide(a, Done));
    DecisionEnds(c, s, a);
    assert RowsInv(c, Next(c, s, Decide(a, Done)));
  }

  lemma DecisionEnds(c: Config, s: State, a: nat)
    requires ProcOf(s, a).Judging?
    ensures ProcOf(NextRecover(c, s, Decide(a, Done)), a) == Idle
  {
  }

  /** No upload is ever stuck: from every state that a punctual run can reach there is a punctual
      continuation after which neither session nor object nor location row is left. */
  lemma EveryUploadCanBeCleanedUp(c: Config, s: State)
    requires Inv(c, s) && c.ttl > 0
    ensures exists xs :: Punctual(c, s, xs) && CleanedUp(Run(c, s, xs))
  {
    var a := FreshActor(s.procs);
    if !s.location {
      assert Punctual(c, s, []) && CleanedUp(Run(c, s, []));
    } else if s.phase.Completing? {
      LaterStillHolds(c, s, s.expires + 1);
      AbandonedCanBeCleaned(c, s.(now := s.now + s.expires + 1), a);
      CleanableAfter(c, s, s.expires + 1);
    } else {
      FreeCanBeCleaned(c, s, a);
    }
  }

  // ---- what gives time, and what gives up ----

  /** Every renewal that its row admits makes the lease full again, and none takes from it. */
  lemma RenewalsFillTheLease(c: Config, s: State, a: nat)
    requires s.expires <= s.now + c.ttl && s.lease == Issued && s.file == Pending
    ensures var p := ProcOf(s, a);
            (p.Holding? && s.phase == Free && ClaimedRow(s, p.n) ==>
               NextUpload(c, s, RenewPart(a)) == s.(expires := s.now + c.ttl)) &&
            (p.InFlight? && s.phase.Completing? ==>
               NextClaim(c, s, RenewCompletion(a, Done)) == s.(expires := s.now + c.ttl)) &&
            (s.published && s.now < s.expires && (c.s3 || s.phase == Free) ==>
               NextWorld(c, s, ExtendLease) == s.(expires := s.now + c.ttl))
  {
  }

  /** A create call that had no effect is undone: nothing is left at the provider or on record. */
  lemma FailedCreateIsUndone(c: Config)
    requires !c.s3
    ensures var t := Run(c, Begin(c), [CreateReturns(NotApplied), Compensate(Done), CompensateRelease(Done)]);
            CleanedUp(t) && t.file == Reclaimed && t.lease == Expired && t.creation == Ended
  {
    RunThree(c, Begin(c), CreateReturns(NotApplied), Compensate(Done), CompensateRelease(Done));
    var s1 := NextCreate(c, Begin(c), CreateReturns(NotApplied));
    assert s1.creation == Creation.Failed(false);
  }

  /** On S3 it is left to cleanup instead, whatever became of the call, and nothing can upload to it. */
  lemma FailedS3CreateIsHandedToCleanup(c: Config, fate: Fate)
    requires c.s3 && fate != Done
    ensures var t := Run(c, Begin(c), [CreateReturns(fate), ScheduleCleanup(Done)]);
            t.phase == Cleaning && t.creation == Ended && !t.published && t.file == Pending
  {
    RunTwo(c, Begin(c), CreateReturns(fate), ScheduleCleanup(Done));
    var s1 := NextCreate(c, Begin(c), CreateReturns(fate));
    assert s1.creation == Unclean;
  }

  /** A commit that comes after the file was activated answers with the ETag of the activation: on
      the native surface also one that was outrun in its claim or in its finalize. */
  lemma LateCommitAnswersTheWinner(c: Config, s: State, a: nat, parts: seq<Part>)
    requires s.file == Active && s.published
    ensures ProcOf(s, a) == Idle ==> ProcOf(Run(c, s, [AnswerActive(a)]), a) == Answered(s.etag)
    ensures !c.s3 && ProcOf(s, a) == (if Direct(c) then Listing(parts) else Idle) ==>
              ProcOf(Run(c, s, [Prepare(a, parts, Done), Reload(a)]), a) == Answered(s.etag)
  {
    RunTwo(c, s, Prepare(a, parts, Done), Reload(a));
    RunOne(c, s, AnswerActive(a));
  }

  lemma OutrunCommitAnswersTheWinner(c: Config, s: State, a: nat)
    requires !c.s3 && s.file == Active && ProcOf(s, a).Assembled?
    ensures ProcOf(Run(c, s, [Finalize(a, Done), Reload(a)]), a) == Answered(s.etag)
  {
    RunTwo(c, s, Finalize(a, Done), Reload(a));
  }

  /** A client can abort an open S3 upload exactly while no part is under way; parts that clients put
      themselves arrive in the session. */
  lemma ClientStepsTakeEffect(c: Config, s: State, n: nat, md5: string)
    requires s.published && s.file == Pending && s.phase == Free
    ensures NextWorld(c, s, ClientAbort).phase == (if c.s3 && Unclaimed(s.ledger) then Cleaning else Free)
    ensures s.session.Open? && (c.s3 || 1 <= n <= |c.sizes|) ==>
              NextWorld(c, s, PutPart(n, md5)).session == Open(s.session.parts[n := md5])
  {
  }

  /** Reclaimed, but its location row is still there. */
  predicate HalfReclaimed(s: State) {
    s.file == Reclaimed && s.location
  }

  lemma RequestsReclaimNoHalf(c: Config, s: State, x: Action)
    requires c.s3 && !HalfReclaimed(s)
    ensures !HalfReclaimed(NextUpload(c, s, x)) &&
            !HalfReclaimed(NextSettle(c, s, x))
  {
  }

  lemma CreateReclaimsNoHalf(c: Config, s: State, x: Action)
    requires !HalfReclaimed(s)
    ensures !HalfReclaimed(NextCreate(c, s, x))
  {
    if x.CompensateRelease? {
      assert ReleasePending(s).location ==> ReleasePending(s) == s;
    } else {
      CreateKeepsLocation(c, s, x);
    }
  }

  lemma CreateKeepsLocation(c: Config, s: State, x: Action)
    requires !x.CompensateRelease?
    ensures var t := NextCreate(c, s, x); t.file == s.file && t.location == s.location
  {
  }

  lemma ClaimsReclaimNothing(c: Config, s: State, x: Action)
    ensures var t := NextClaim(c, s, x); t.file == s.file && t.location == s.location
  {
  }

  lemma ConclusionsReclaimNoHalf(c: Config, s: State, x: Action)
    requires c.s3 && !HalfReclaimed(s)
    ensures !HalfReclaimed(NextConclude(c, s, x)) &&
            !HalfReclaimed(NextRecover(c, s, x))
  {
  }

  lemma CleanupReclaimsNoHalf(c: Config, s: State, x: Action)
    requires c.s3 && !HalfReclaimed(s)
    ensures !HalfReclaimed(NextRelease(c, s, x)) &&
            !HalfReclaimed(NextWorld(c, s, x))
  {
  }

  /** An S3 upload that is given up stays pending until its cleanup is over: once it is reclaimed,
      neither session nor object nor location row is left of it. */
  lemma {:induction false} S3IsReclaimedOnlyWhenCleanedUp(c: Config, xs: seq<Action>)
    requires Wellformed(c) && c.s3 && Punctual(c, Begin(c), xs)
    ensures var t := Run(c, Begin(c), xs); t.file == Reclaimed ==> CleanedUp(t)
    decreases |xs|
  {
    ReachableInv(c, xs);
    if xs != [] {
      var before := xs[..|xs| - 1];
      S3IsReclaimedOnlyWhenCleanedUp(c, before);
      var s, x := Run(c, Begin(c), before), xs[|xs| - 1];
      RequestsReclaimNoHalf(c, s, x);
      CreateReclaimsNoHalf(c, s, x);
      ClaimsReclaimNothing(c, s, x);
      ConclusionsReclaimNoHalf(c, s, x);
      CleanupReclaimsNoHalf(c, s, x);
    }
  }

  // ---- lost replies ----

  /** The same rows and the same provider contents, whatever the callers know. */
  predicate SameRows(s: State, t: State) {
    t.(procs := s.procs) == s
  }

  /** A call takes effect whether or not its caller hears of it, and one without effect changes no
      row and nothing at the provider: here for parts. */
  lemma LostPartRepliesTakeEffect(c: Config, s: State, a: nat)
    ensures SameRows(NextUpload(c, s, PartReturns(a, Done)), NextUpload(c, s, PartReturns(a, AppliedButLost)))
    ensures SameRows(s, NextUpload(c, s, PartReturns(a, NotApplied)))
  {
  }

  lemma LostPartRecordsTakeEffect(c: Config, s: State, a: nat)
    ensures SameRows(NextSettle(c, s, FinishPart(a, Done)), NextSettle(c, s, FinishPart(a, AppliedButLost)))
    ensures SameRows(s, NextSettle(c, s, FinishPart(a, NotApplied)))
  {
  }

  lemma LostPartReleasesTakeEffect(c: Config, s: State, a: nat)
    ensures SameRows(NextSettle(c, s, CancelPart(a, Done)), NextSettle(c, s, CancelPart(a, AppliedButLost)))
    ensures SameRows(s, NextSettle(c, s, CancelPart(a, NotApplied)))
  {
  }

  /** The same for the calls of a completion. */
  lemma LostPreparesTakeEffect(c: Config, s: State, a: nat, parts: seq<Part>)
    ensures SameRows(NextClaim(c, s, Prepare(a, parts, Done)), NextClaim(c, s, Prepare(a, parts, AppliedButLost)))
    ensures SameRows(s, NextClaim(c, s, Prepare(a, parts, NotApplied)))
  {
  }

  lemma LostCompletesTakeEffect(c: Config, s: State, a: nat)
    ensures SameRows(NextConclude(c, s, CompleteReturns(a, Done)), NextConclude(c, s, CompleteReturns(a, AppliedButLost)))
  {
  }

  lemma FailedCompletesChangeNothing(c: Config, s: State, a: nat)
    ensures SameRows(s, NextConclude(c, s, CompleteReturns(a, NotApplied)))
  {
  }

  lemma LostFinalizesTakeEffect(c: Config, s: State, a: nat)
    ensures SameRows(NextConclude(c, s, Finalize(a, Done)), NextConclude(c, s, Finalize(a, AppliedButLost)))
    ensures SameRows(s, NextConclude(c, s, Finalize(a, NotApplied)))
  {
  }

  /** And of a recovery decision and of cleanup. */
  lemma LostDecisionsTakeEffect(c: Config, s: State, a: nat)
    ensures SameRows(NextRecover(c, s, Decide(a, Done)), NextRecover(c, s, Decide(a, AppliedButLost)))
    ensures SameRows(s, NextRecover(c, s, Decide(a, NotApplied)))
  {
  }

  lemma LostAbortsTakeEffect(c: Config, s: State, a: nat)
    ensures SameRows(NextRelease(c, s, SweepAbort(a, Done)), NextRelease(c, s, SweepAbort(a, AppliedButLost)))
    ensures SameRows(s, NextRelease(c, s, SweepAbort(a, NotApplied)))
  {
  }

  lemma LostDeletesTakeEffect(c: Config, s: State, a: nat)
    ensures SameRows(NextRelease(c, s, SweepDelete(a, Done)), NextRelease(c, s, SweepDelete(a, AppliedButLost)))
    ensures SameRows(s, NextRelease(c, s, SweepDelete(a, NotApplied)))
  {
  }

  lemma LostReleasesTakeEffect(c: Config, s: State, a: nat)
    ensures SameRows(NextRelease(c, s, SweepRelease(a, Done)), NextRelease(c, s, SweepRelease(a, AppliedButLost)))
    ensures SameRows(s, NextRelease(c, s, SweepRelease(a, NotApplied)))
  {
  }
}
