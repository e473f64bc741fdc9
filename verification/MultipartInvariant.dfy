/** What every step of a multipart upload keeps, and which provider effects may arrive when. */
module MultipartInvariant {
  import opened Wrappers
  import opened Text
  import opened Lifecycle
  import opened Completion
  import opened Multipart

  // ---- which provider effects are harmless ----

  /** A recovery pass that picked the row up at `at` may still reopen or clean it. */
  predicate CanStillAct(c: Config, s: State, at: nat) {
    s.file == Pending && s.phase.Completing? && s.lease == Issued &&
    s.expires < at + c.passTimeout && s.now <= at + c.passTimeout
  }

  /** A session may still be opened: its location row is there, and no cleanup has already
      passed the point at which it closes sessions. */
  predicate HarmlessOpen(s: State) {
    s.session == Never ==>
      s.location && (s.creation == Aborted ==> Condemned(s)) &&
      forall a | a in s.procs :: s.procs[a] != AbortTried(true) && s.procs[a] != Swept
  }

  /** A Complete may still take effect: the upload is given up anyway, or its row expects exactly
      this object and no recovery that saw no object can still reopen it. */
  predicate HarmlessPublish(c: Config, s: State, parts: seq<Part>) {
    Takes(s, parts) ==>
      Condemned(s) ||
      (s.phase.Completing? && MatchesExpectation(s.phase.size, s.phase.etag, Whole(c, parts)) &&
       forall a | a in s.procs ::
         s.procs[a].Judging? && s.procs[a].blob == None ==> !CanStillAct(c, s, s.procs[a].seen.at))
  }

  predicate Opens(s: State, x: Action) {
    (x.CreateReturns? && s.creation == Calling && Applies(x.fate)) || (x.LandCreate? && s.lateCreate)
  }

  predicate Publishes(s: State, x: Action) {
    (x.CompleteReturns? && ProcOf(s, x.a).InFlight? && Applies(x.fate)) ||
    (x.LandComplete? && x.late in s.lateCompletes)
  }

  function Published(s: State, x: Action): seq<Part>
    requires Publishes(s, x)
  {
    if x.LandComplete? then x.late else ProcOf(s, x.a).parts
  }

  predicate Admissible(c: Config, s: State, x: Action) {
    (Opens(s, x) ==> HarmlessOpen(s)) && (Publishes(s, x) ==> HarmlessPublish(c, s, Published(s, x)))
  }

  /** The runs in which every provider effect that opens a session or publishes an object
      arrives while it is harmless. */
  ghost predicate Punctual(c: Config, s: State, xs: seq<Action>)
    decreases |xs|
  {
    xs != [] ==>
      Punctual(c, s, xs[..|xs| - 1]) && Admissible(c, Run(c, s, xs[..|xs| - 1]), xs[|xs| - 1])
  }

  // ---- the invariant ----

  /** The server's constants: a recovery pass is shorter than a lease, and the native gate lets
      only lists of the declared size through. */
  ghost predicate Wellformed(c: Config) {
    c.passTimeout <= c.ttl &&
    (!c.s3 ==> forall parts | Verified(c, parts) :: Total(c, parts) == c.declaredSize)
  }

  ghost predicate CreationInv(s: State) {
    (s.creation == Calling ==> s.session == Never && !s.lateCreate) &&
    (s.creation == Returned || s.creation == Attached ==> !s.lateCreate && (Condemned(s) || s.session.Open?)) &&
    (s.creation == Attached ==> s.attached) && (s.creation != Ended ==> !s.published) &&
    (s.creation == Aborted ==> Condemned(s) || !s.session.Open?) &&
    (s.creation == Calling || s.creation == Dead ==> Condemned(s) ==> s.expires < s.now) &&
    (s.lateCreate ==> !s.published && s.session == Never) &&
    (s.published ==> s.attached) && (!s.published ==> s.lateCompletes == {})
  }

  ghost predicate ProviderInv(s: State) {
    (!s.location ==> Gone(s) && !s.session.Open? && s.blob == None) &&
    (s.blob.Some? ==> s.session == Closed && s.completions == 1) &&
    s.completions <= 1 && (s.completions == 1 ==> s.session == Closed) &&
    (s.file == Active || s.file == Deleted ==> s.session == Closed)
  }

  ghost predicate RowsInv(c: Config, s: State) {
    Wellformed(c) && CreationInv(s) && ProviderInv(s) &&
    (s.phase != Free ==> s.file == Pending) && (s.phase.Completing? ==> s.published) &&
    (s.file == Pending && s.phase != Cleaning ==> s.lease == Issued) &&
    (s.file == Pending && s.published && s.phase == Free ==> s.session.Open? && s.blob == None) &&
    (s.phase.Completing? ==>
       (s.session.Open? && s.blob == None) ||
       (s.blob.Some? && MatchesExpectation(s.phase.size, s.phase.etag, s.blob.value))) &&
    (s.file == Active ==> s.blob.Some? && MatchesExpectation(s.size, s.etag, s.blob.value)) &&
    (!s.published ==> s.blob == None && !s.phase.Completing? && s.ledger == map[] &&
                      s.file != Active && s.file != Deleted) &&
    (s.file == Active || s.file == Deleted <==> |s.activations| == 1) && |s.activations| <= 1 &&
    (|s.activations| == 1 ==> s.activations[0] == s.etag) && s.discarded == 0
  }

  /** A claimed completion carries its own snapshot's size and ETag, no part is claimed meanwhile,
      and the snapshot is what the ledger says. */
  ghost predicate SnapshotInv(c: Config, s: State) {
    s.phase.Completing? ==>
      s.phase.size == ExpectedSize(c, s.phase.parts) == Total(c, s.phase.parts) &&
      s.phase.etag == c.composite(Tags(s.phase.parts)) &&
      Unclaimed(s.ledger) && (!Direct(c) ==> InLedger(s.ledger, s.phase.parts)) &&
      (c.relay && !c.s3 ==> |s.ledger| == |s.phase.parts|)
  }

  ghost predicate HoldsRow(s: State, a: nat, n: nat) {
    s.published && n in s.ledger && s.ledger[n].Taken? && s.ledger[n].claimant == a
  }

  ghost predicate Current(c: Config, s: State, seen: Candidate) {
    seen.at <= s.now &&
    (CanStillAct(c, s, seen.at) ==>
       s.expires < seen.at && s.phase.size == seen.size && s.phase.etag == seen.etag)
  }

  ghost predicate ProcInv(c: Config, s: State, a: nat, p: Proc) {
    match p
    case Holding(n, md5) => HoldsRow(s, a, n)
    case Uploaded(n, md5) => HoldsRow(s, a, n)
    case Refused(n) => HoldsRow(s, a, n)
    case Listing(parts) => s.published && Total(c, parts) == ExpectedSize(c, parts)
    case InFlight(parts) => s.published
    case Assembled(etag) =>
      s.published &&
      (Condemned(s) || (s.phase.Completing? && s.blob.Some? && EqIgnoreCase(s.phase.etag, etag)) ||
       (s.file == Active && EqIgnoreCase(s.etag, etag)))
    case Answered(etag) => |s.activations| == 1 && EqIgnoreCase(s.activations[0], etag)
    case Scanned(seen) => Current(c, s, seen)
    case Inspecting(seen) => Current(c, s, seen)
    case Judging(seen, blob) =>
      Current(c, s, seen) && (blob == None && CanStillAct(c, s, seen.at) ==> s.blob == None) &&
      (blob.Some? && !Condemned(s) ==> s.blob == blob)
    case Sweeping => Condemned(s)
    case AbortTried(ok) => Condemned(s) && (ok ==> !s.session.Open?)
    case Swept => Condemned(s) && !s.session.Open? && s.blob == None
    case _ => true
  }

  ghost predicate Inv(c: Config, s: State) {
    RowsInv(c, s) && SnapshotInv(c, s) && forall a | a in s.procs :: ProcInv(c, s, a, s.procs[a])
  }

  // ---- each group of steps keeps it ----

  predicate Compensates(x: Action) {
    x.Compensate? || x.ScheduleCleanup? || x.CompensateRelease?
  }

  lemma GiveUpKeepsRows(c: Config, s: State, x: Action)
    requires x.CompensateRelease? && RowsInv(c, s)
    ensures RowsInv(c, Next(c, s, x))
  {
  }

  lemma CompensateKeepsRows(c: Config, s: State, x: Action)
    requires Compensates(x) && !x.CompensateRelease? && RowsInv(c, s)
    ensures RowsInv(c, Next(c, s, x))
  {
  }

  lemma CompensateKeepsSnapshot(c: Config, s: State, x: Action)
    requires Compensates(x) && RowsInv(c, s) && SnapshotInv(c, s)
    ensures SnapshotInv(c, Next(c, s, x))
  {
  }

  lemma OpeningKeepsRows(c: Config, s: State, x: Action)
    requires (x.CreateReturns? || x.LandCreate?) && RowsInv(c, s) && SnapshotInv(c, s) && Admissible(c, s, x)
    ensures RowsInv(c, Next(c, s, x)) && SnapshotInv(c, Next(c, s, x))
  {
  }

  lemma CreateKeepsRows(c: Config, s: State, x: Action)
    requires (x.Attach? || x.PrepareRelay? || x.CrashCreate?) && RowsInv(c, s) && SnapshotInv(c, s)
    ensures RowsInv(c, Next(c, s, x)) && SnapshotInv(c, Next(c, s, x))
  {
  }

  lemma CreateKeepsProc(c: Config, s: State, x: Action, b: nat)
    requires Creates(x) && RowsInv(c, s) && Admissible(c, s, x)
    requires b in s.procs && ProcInv(c, s, b, s.procs[b])
    ensures ProcInv(c, Next(c, s, x), b, s.procs[b])
  {
  }

  lemma UploadKeepsOwn(c: Config, s: State, x: Action)
    requires Uploads(x) && RowsInv(c, s) && SnapshotInv(c, s) && ProcInv(c, s, x.a, ProcOf(s, x.a))
    ensures RowsInv(c, Next(c, s, x)) && SnapshotInv(c, Next(c, s, x))
    ensures ProcInv(c, Next(c, s, x), x.a, ProcOf(Next(c, s, x), x.a))
  {
  }

  lemma UploadKeepsOther(c: Config, s: State, x: Action, b: nat)
    requires Uploads(x) && RowsInv(c, s) && ProcInv(c, s, x.a, ProcOf(s, x.a))
    requires b != x.a && ProcInv(c, s, b, ProcOf(s, b))
    ensures ProcInv(c, Next(c, s, x), b, ProcOf(s, b))
  {
  }

  lemma SettleKeepsOwn(c: Config, s: State, x: Action)
    requires Settles(x) && RowsInv(c, s) && SnapshotInv(c, s) && ProcInv(c, s, x.a, ProcOf(s, x.a))
    ensures RowsInv(c, Next(c, s, x)) && SnapshotInv(c, Next(c, s, x))
    ensures ProcInv(c, Next(c, s, x), x.a, ProcOf(Next(c, s, x), x.a))
  {
  }

  lemma SettleKeepsOther(c: Config, s: State, x: Action, b: nat)
    requires Settles(x) && RowsInv(c, s) && ProcInv(c, s, x.a, ProcOf(s, x.a))
    requires b != x.a && ProcInv(c, s, b, ProcOf(s, b))
    ensures ProcInv(c, NextSettle(c, s, x), b, ProcOf(s, b))
  {
  }

  lemma ClaimKeepsRows(c: Config, s: State, x: Action)
    requires Claims(x) && RowsInv(c, s) && ProcInv(c, s, x.a, ProcOf(s, x.a))
    ensures RowsInv(c, Next(c, s, x))
  {
  }

  lemma ClaimKeepsSnapshot(c: Config, s: State, x: Action)
    requires Claims(x) && RowsInv(c, s) && SnapshotInv(c, s) && ProcInv(c, s, x.a, ProcOf(s, x.a))
    ensures SnapshotInv(c, Next(c, s, x))
  {
  }

  lemma ClaimKeepsOwn(c: Config, s: State, x: Action)
    requires Claims(x) && RowsInv(c, s) && ProcInv(c, s, x.a, ProcOf(s, x.a))
    ensures ProcInv(c, Next(c, s, x), x.a, ProcOf(Next(c, s, x), x.a))
  {
  }

  lemma ClaimKeepsOther(c: Config, s: State, x: Action, b: nat)
    requires Claims(x) && RowsInv(c, s) && ProcInv(c, s, x.a, ProcOf(s, x.a))
    requires b != x.a && ProcInv(c, s, b, ProcOf(s, b))
    ensures ProcInv(c, NextClaim(c, s, x), b, ProcOf(s, b))
  {
  }

  lemma ConcludeKeepsRows(c: Config, s: State, x: Action)
    requires Concludes(x) && RowsInv(c, s) && ProcInv(c, s, x.a, ProcOf(s, x.a)) && Admissible(c, s, x)
    ensures RowsInv(c, Next(c, s, x))
  {
  }

  lemma ConcludeKeepsSnapshot(c: Config, s: State, x: Action)
    requires Concludes(x) && RowsInv(c, s) && SnapshotInv(c, s) && ProcInv(c, s, x.a, ProcOf(s, x.a))
    ensures SnapshotInv(c, Next(c, s, x))
  {
  }

  lemma ConcludeKeepsOwn(c: Config, s: State, x: Action)
    requires Concludes(x) && RowsInv(c, s) && ProcInv(c, s, x.a, ProcOf(s, x.a)) && Admissible(c, s, x)
    ensures ProcInv(c, Next(c, s, x), x.a, ProcOf(Next(c, s, x), x.a))
  {
  }

  lemma ConcludeKeepsOther(c: Config, s: State, x: Action, b: nat)
    requires Concludes(x) && RowsInv(c, s) && ProcInv(c, s, x.a, ProcOf(s, x.a)) && Admissible(c, s, x)
    requires b != x.a && ProcInv(c, s, b, ProcOf(s, b))
    ensures ProcInv(c, NextConclude(c, s, x), b, ProcOf(s, b))
  {
  }

  lemma RecoverKeepsRows(c: Config, s: State, x: Action)
    requires Recovers(x) && !x.Decide? && RowsInv(c, s) && SnapshotInv(c, s) && ProcInv(c, s, x.a, ProcOf(s, x.a))
    ensures RowsInv(c, Next(c, s, x)) && SnapshotInv(c, Next(c, s, x))
  {
  }

  lemma RecoverKeepsOwn(c: Config, s: State, x: Action)
    requires Recovers(x) && !x.Decide? && RowsInv(c, s) && ProcInv(c, s, x.a, ProcOf(s, x.a))
    ensures ProcInv(c, Next(c, s, x), x.a, ProcOf(Next(c, s, x), x.a))
  {
  }

  lemma RecoverKeepsOther(c: Config, s: State, x: Action, b: nat)
    requires Recovers(x) && !x.Decide? && RowsInv(c, s) && ProcInv(c, s, x.a, ProcOf(s, x.a))
    requires b != x.a && ProcInv(c, s, b, ProcOf(s, b))
    ensures ProcInv(c, Next(c, s, x), b, ProcOf(s, b))
  {
  }

  function Reopened(c: Config, s: State): State {
    s.(phase := Free, expires := s.now + c.ttl)
  }

  /** What recovery may do to a row: leave it alone, activate it with the object the provider
      has, or reopen it while the session is still open and no object exists. */
  ghost predicate Decided(c: Config, s: State, etag: string, t: State) {
    t == s ||
    (Finalizable(c, s, etag) && t == FinalizeRow(c, s, etag) && s.blob.Some? &&
     MatchesExpectation(t.size, t.etag, s.blob.value)) ||
    (Abandoned(s) && s.session.Open? && s.blob == None && t == Reopened(c, s))
  }

  /** Whatever a recovery pass decides is right for the row it finds, however stale what it read:
      it never gives up published bytes and never reopens over an object. */
  lemma DecisionIsSound(c: Config, s: State, a: nat, seen: Candidate, blob: Option<Blob>)
    requires RowsInv(c, s) && ProcInv(c, s, a, Judging(seen, blob)) && s.now <= seen.at + c.passTimeout
    ensures Decided(c, s, seen.etag, Resolve(c, s, seen, blob))
  {
    assert Abandoned(s) ==> CanStillAct(c, s, seen.at);
  }

  lemma DecideIsDecided(c: Config, s: State, x: Action) returns (etag: string, t: State)
    requires x.Decide? && RowsInv(c, s) && ProcInv(c, s, x.a, ProcOf(s, x.a))
    ensures Decided(c, s, etag, t) && (Next(c, s, x) == s || Next(c, s, x) == With(t, x.a, Idle))
  {
    var p := ProcOf(s, x.a);
    t, etag := s, "";
    if p.Judging? && Applies(x.fate) && s.now <= p.seen.at + c.passTimeout {
      t, etag := Resolve(c, s, p.seen, p.blob), p.seen.etag;
      DecisionIsSound(c, s, x.a, p.seen, p.blob);
    }
  }

  lemma FinalizeKeeps(c: Config, s: State, etag: string, a: nat, p: Proc)
    requires RowsInv(c, s) && Finalizable(c, s, etag) && s.blob.Some?
    requires MatchesExpectation(s.phase.size, FinalizeRow(c, s, etag).etag, s.blob.value)
    ensures RowsInv(c, With(FinalizeRow(c, s, etag), a, p)) && SnapshotInv(c, With(FinalizeRow(c, s, etag), a, p))
  {
  }

  lemma ReopenKeeps(c: Config, s: State, a: nat, p: Proc)
    requires RowsInv(c, s) && Abandoned(s) && s.session.Open? && s.blob == None
    ensures RowsInv(c, With(Reopened(c, s), a, p)) && SnapshotInv(c, With(Reopened(c, s), a, p))
  {
  }

  lemma OutcomeKeepsRows(c: Config, s: State, etag: string, t: State, a: nat)
    requires RowsInv(c, s) && SnapshotInv(c, s) && Decided(c, s, etag, t)
    ensures RowsInv(c, With(t, a, Idle)) && SnapshotInv(c, With(t, a, Idle))
  {
    if t == s {
    } else if Abandoned(s) && t == Reopened(c, s) {
      ReopenKeeps(c, s, a, Idle);
    } else {
      FinalizeKeeps(c, s, etag, a, Idle);
    }
  }

  lemma FinalizeKeepsProc(c: Config, s: State, etag: string, a: nat, p: Proc, b: nat)
    requires RowsInv(c, s) && Finalizable(c, s, etag) && a != b && ProcInv(c, s, b, ProcOf(s, b))
    ensures ProcInv(c, With(FinalizeRow(c, s, etag), a, p), b, ProcOf(s, b))
  {
  }

  lemma ReopenKeepsProc(c: Config, s: State, a: nat, p: Proc, b: nat)
    requires RowsInv(c, s) && Abandoned(s) && s.blob == None && a != b && ProcInv(c, s, b, ProcOf(s, b))
    ensures ProcInv(c, With(Reopened(c, s), a, p), b, ProcOf(s, b))
  {
  }

  lemma OutcomeKeepsProc(c: Config, s: State, etag: string, t: State, a: nat, b: nat)
    requires RowsInv(c, s) && Decided(c, s, etag, t) && a != b && ProcInv(c, s, b, ProcOf(s, b))
    ensures ProcInv(c, With(t, a, Idle), b, ProcOf(s, b))
  {
    if t == s {
    } else if Abandoned(s) && t == Reopened(c, s) {
      ReopenKeepsProc(c, s, a, Idle, b);
    } else {
      FinalizeKeepsProc(c, s, etag, a, Idle, b);
    }
  }

  lemma ReleaseKeepsSnapshot(c: Config, s: State, x: Action)
    requires Releases(x) && RowsInv(c, s) && SnapshotInv(c, s) && ProcInv(c, s, x.a, ProcOf(s, x.a))
    ensures SnapshotInv(c, Next(c, s, x))
  {
  }

  lemma ReleaseKeepsOwn(c: Config, s: State, x: Action)
    requires Releases(x) && RowsInv(c, s) && ProcInv(c, s, x.a, ProcOf(s, x.a))
    ensures ProcInv(c, Next(c, s, x), x.a, ProcOf(Next(c, s, x), x.a))
  {
  }

  lemma SweepKeepsRows(c: Config, s: State, x: Action)
    requires Releases(x) && !x.SweepRelease? && RowsInv(c, s) && ProcInv(c, s, x.a, ProcOf(s, x.a))
    ensures RowsInv(c, Next(c, s, x))
  {
  }

  lemma SweepKeepsOther(c: Config, s: State, x: Action, b: nat)
    requires Releases(x) && !x.SweepRelease? && RowsInv(c, s) && ProcInv(c, s, x.a, ProcOf(s, x.a))
    requires b != x.a && ProcInv(c, s, b, ProcOf(s, b))
    ensures ProcInv(c, NextRelease(c, s, x), b, ProcOf(s, b))
  {
  }

  lemma ReleaseKeepsRows(c: Config, s: State, x: Action)
    requires x.SweepRelease? && RowsInv(c, s) && ProcInv(c, s, x.a, ProcOf(s, x.a))
    ensures RowsInv(c, Next(c, s, x))
  {
  }

  lemma ReleaseKeepsOther(c: Config, s: State, x: Action, b: nat)
    requires x.SweepRelease? && RowsInv(c, s) && ProcInv(c, s, x.a, ProcOf(s, x.a))
    requires b != x.a && ProcInv(c, s, b, ProcOf(s, b))
    ensures ProcInv(c, NextRelease(c, s, x), b, ProcOf(s, b))
  {
  }

  predicate OfTheWorld(x: Action) {
    !Creates(x) && Mine(x) == None
  }

  lemma WorldKeepsRows(c: Config, s: State, x: Action)
    requires OfTheWorld(x) && RowsInv(c, s) && SnapshotInv(c, s) && Admissible(c, s, x)
    ensures RowsInv(c, Next(c, s, x)) && SnapshotInv(c, Next(c, s, x))
  {
  }

  lemma WorldKeepsProc(c: Config, s: State, x: Action, b: nat)
    requires OfTheWorld(x) && RowsInv(c, s) && Admissible(c, s, x)
    requires b in s.procs && ProcInv(c, s, b, s.procs[b])
    ensures ProcInv(c, Next(c, s, x), b, s.procs[b])
  {
  }

  ghost predicate StepReady(c: Config, s: State, x: Action) {
    Mine(x).Some? && RowsInv(c, s) && SnapshotInv(c, s) && ProcInv(c, s, x.a, ProcOf(s, x.a)) && Admissible(c, s, x)
  }

  ghost predicate StepKept(c: Config, s: State, x: Action, t: State)
    requires Mine(x).Some?
  {
    RowsInv(c, t) && SnapshotInv(c, t) && ProcInv(c, t, x.a, ProcOf(t, x.a))
  }

  lemma DecideStep(c: Config, s: State, x: Action)
    requires x.Decide? && StepReady(c, s, x)
    ensures StepKept(c, s, x, Next(c, s, x))
  {
    var etag, t := DecideIsDecided(c, s, x);
    OutcomeKeepsRows(c, s, etag, t, x.a);
  }

  lemma DecideStepOther(c: Config, s: State, x: Action, b: nat)
    requires x.Decide? && StepReady(c, s, x) && b != x.a && ProcInv(c, s, b, ProcOf(s, b))
    ensures ProcInv(c, Next(c, s, x), b, ProcOf(s, b))
  {
    var etag, t := DecideIsDecided(c, s, x);
    OutcomeKeepsProc(c, s, etag, t, x.a, b);
  }

  lemma OwnStepKeeps(c: Config, s: State, x: Action)
    requires StepReady(c, s, x)
    ensures StepKept(c, s, x, Next(c, s, x))
  {
    if Uploads(x) { UploadKeepsOwn(c, s, x); }
    else if Settles(x) { SettleKeepsOwn(c, s, x); }
    else if Claims(x) { ClaimKeepsRows(c, s, x); ClaimKeepsSnapshot(c, s, x); ClaimKeepsOwn(c, s, x); }
    else if Concludes(x) { ConcludeKeepsRows(c, s, x); ConcludeKeepsSnapshot(c, s, x); ConcludeKeepsOwn(c, s, x); }
    else if x.Decide? { DecideStep(c, s, x); }
    else if Recovers(x) { RecoverKeepsRows(c, s, x); RecoverKeepsOwn(c, s, x); }
    else {
      ReleaseKeepsSnapshot(c, s, x);
      ReleaseKeepsOwn(c, s, x);
      if x.SweepRelease? { ReleaseKeepsRows(c, s, x); } else { SweepKeepsRows(c, s, x); }
    }
  }

  lemma RequestKeepsOther(c: Config, s: State, x: Action, b: nat)
    requires (Uploads(x) || Settles(x) || Claims(x) || Concludes(x)) && StepReady(c, s, x)
    requires b != x.a && ProcInv(c, s, b, ProcOf(s, b))
    ensures ProcInv(c, Next(c, s, x), b, ProcOf(s, b))
  {
    if Uploads(x) { UploadKeepsOther(c, s, x, b); }
    else if Settles(x) { SettleKeepsOther(c, s, x, b); }
    else if Claims(x) { ClaimKeepsOther(c, s, x, b); }
    else { ConcludeKeepsOther(c, s, x, b); }
  }

  lemma PassKeepsOther(c: Config, s: State, x: Action, b: nat)
    requires (Recovers(x) || Releases(x)) && StepReady(c, s, x)
    requires b != x.a && ProcInv(c, s, b, ProcOf(s, b))
    ensures ProcInv(c, Next(c, s, x), b, ProcOf(s, b))
  {
    if x.Decide? { DecideStepOther(c, s, x, b); }
    else if Recovers(x) { RecoverKeepsOther(c, s, x, b); }
    else if x.SweepRelease? { ReleaseKeepsOther(c, s, x, b); }
    else { SweepKeepsOther(c, s, x, b); }
  }

  lemma NextKeepsRows(c: Config, s: State, x: Action)
    requires Inv(c, s) && Admissible(c, s, x)
    ensures RowsInv(c, Next(c, s, x)) && SnapshotInv(c, Next(c, s, x))
  {
    if x.CreateReturns? || x.LandCreate? { OpeningKeepsRows(c, s, x); }
    else if x.Attach? || x.PrepareRelay? || x.CrashCreate? { CreateKeepsRows(c, s, x); }
    else if Compensates(x) {
      CompensateKeepsSnapshot(c, s, x);
      if x.CompensateRelease? { GiveUpKeepsRows(c, s, x); } else { CompensateKeepsRows(c, s, x); }
    }
    else if OfTheWorld(x) { WorldKeepsRows(c, s, x); }
    else { OwnStepKeeps(c, s, x); }
  }

  lemma UploadLeavesOthers(c: Config, s: State, x: Action, b: nat)
    requires (Uploads(x) || Settles(x)) && x.a != b
    ensures ProcOf(Next(c, s, x), b) == ProcOf(s, b)
  {
  }

  lemma ClaimLeavesOthers(c: Config, s: State, x: Action, b: nat)
    requires Claims(x) && x.a != b
    ensures ProcOf(Next(c, s, x), b) == ProcOf(s, b)
  {
  }

  lemma ConcludeLeavesOthers(c: Config, s: State, x: Action, b: nat)
    requires Concludes(x) && x.a != b
    ensures ProcOf(Next(c, s, x), b) == ProcOf(s, b)
  {
  }

  lemma RecoveryLeavesOthers(c: Config, s: State, x: Action, b: nat)
    requires (Recovers(x) || Releases(x)) && x.a != b
    ensures ProcOf(Next(c, s, x), b) == ProcOf(s, b)
  {
  }

  lemma StepLeavesOthers(c: Config, s: State, x: Action, b: nat)
    requires Mine(x) != Some(b)
    ensures ProcOf(Next(c, s, x), b) == ProcOf(s, b)
  {
    if Uploads(x) || Settles(x) { UploadLeavesOthers(c, s, x, b); }
    else if Claims(x) { ClaimLeavesOthers(c, s, x, b); }
    else if Concludes(x) { ConcludeLeavesOthers(c, s, x, b); }
    else if Recovers(x) || Releases(x) { RecoveryLeavesOthers(c, s, x, b); }
  }

  lemma OwnStepKeepsOther(c: Config, s: State, x: Action, b: nat)
    requires StepReady(c, s, x) && b != x.a && ProcInv(c, s, b, ProcOf(s, b))
    ensures ProcOf(Next(c, s, x), b) == ProcOf(s, b) && ProcInv(c, Next(c, s, x), b, ProcOf(s, b))
  {
    StepLeavesOthers(c, s, x, b);
    if Recovers(x) || Releases(x) { PassKeepsOther(c, s, x, b); } else { RequestKeepsOther(c, s, x, b); }
  }

  lemma NextKeepsProc(c: Config, s: State, x: Action, b: nat)
    requires Inv(c, s) && Admissible(c, s, x) && b in Next(c, s, x).procs
    ensures ProcInv(c, Next(c, s, x), b, Next(c, s, x).procs[b])
  {
    if Creates(x) { CreateKeepsProc(c, s, x, b); }
    else if OfTheWorld(x) { WorldKeepsProc(c, s, x, b); }
    else if b == x.a { OwnStepKeeps(c, s, x); }
    else { OwnStepKeepsOther(c, s, x, b); }
  }

  lemma NextKeepsInv(c: Config, s: State, x: Action)
    requires Inv(c, s) && Admissible(c, s, x)
    ensures Inv(c, Next(c, s, x))
  {
    NextKeepsRows(c, s, x);
    forall b | b in Next(c, s, x).procs ensures ProcInv(c, Next(c, s, x), b, Next(c, s, x).procs[b]) {
      NextKeepsProc(c, s, x, b);
    }
  }

  lemma BeginInv(c: Config)
    requires Wellformed(c)
    ensures Inv(c, Begin(c))
  {
  }

  lemma {:induction false} RunKeepsInv(c: Config, s: State, xs: seq<Action>)
    requires Inv(c, s) && Punctual(c, s, xs)
    ensures Inv(c, Run(c, s, xs))
    decreases |xs|
  {
    if xs != [] {
      var before := xs[..|xs| - 1];
      RunKeepsInv(c, s, before);
      NextKeepsInv(c, Run(c, s, before), xs[|xs| - 1]);
    }
  }

  lemma RunExtends(c: Config, s: State, xs: seq<Action>, x: Action)
    ensures Run(c, s, xs + [x]) == Next(c, Run(c, s, xs), x)
    ensures Punctual(c, s, xs + [x]) <==> Punctual(c, s, xs) && Admissible(c, Run(c, s, xs), x)
  {
    assert (xs + [x])[..|xs|] == xs;
  }

  lemma {:induction false} PunctualSplits(c: Config, s: State, xs: seq<Action>, ys: seq<Action>)
    ensures Run(c, s, xs + ys) == Run(c, Run(c, s, xs), ys)
    ensures Punctual(c, s, xs + ys) <==> Punctual(c, s, xs) && Punctual(c, Run(c, s, xs), ys)
    decreases |ys|
  {
    if ys == [] {
      assert xs + ys == xs;
    } else {
      var most := ys[..|ys| - 1];
      assert (xs + ys)[..|xs + ys| - 1] == xs + most;
      PunctualSplits(c, s, xs, most);
    }
  }
}
