/** One multipart file from its provider session to its release: creation with compensation,
    part claims, completion with a renewable lease, crash recovery and physical cleanup. Requests
    and recovery passes are actors with a program counter; `Next` is one atomic database
    transaction or provider call, and a disabled action leaves the state as it is. */
module Multipart {
  import opened Wrappers
  import opened Text
  import opened Lifecycle
  import opened Completion
  import Geometry

  /** One entry of the part list a completion sends to the provider. */
  datatype Part = Part(n: nat, md5: string)

  /** `s3`: the S3-compatible surface, where the client names the parts and the size is measured;
      otherwise the native surface, whose declaration fixes the size of every part (`sizes`).
      `relay`: part bytes pass through the server. `composite` is the ETag the server computes
      from part MD5s, `vendorTag` the one the provider gives the assembled object, `sizeOf` the
      length behind a digest. */
  datatype Config = Config(
    s3: bool, relay: bool, declaredSize: nat, sizes: seq<nat>, ttl: nat, passTimeout: nat,
    sizeOf: string -> nat, composite: seq<string> -> string, vendorTag: seq<string> -> string)

  /** The upload's owner row; `Free` is an S3 row in state open, or no native row at all.
      `owner` is bookkeeping: no step reads it. */
  datatype Phase = Free | Completing(size: nat, etag: string, parts: seq<Part>, owner: nat) | Cleaning

  /** A part row. `claimant` is bookkeeping: no step reads it. */
  datatype Row = Taken(prev: Option<string>, claimant: nat) | Stored(md5: string)

  /** The provider's multipart session: opened at most once, closed by Complete or Abort. */
  datatype Session = Never | Open(parts: map<nat, string>) | Closed

  /** The create request. `Dead` stopped while its call was in flight; `Failed(known)` must
      compensate, with or without the session's id. */
  datatype Creation = Calling | Dead | Returned | Attached | Failed(known: bool) | Unclean | Aborted | Ended

  /** What a recovery pass read when it picked the row up, and when. */
  datatype Candidate = Candidate(size: nat, etag: string, at: nat)

  datatype Proc =
    | Idle
    | Holding(n: nat, md5: string)   // part claimed, UploadPart in flight
    | Uploaded(n: nat, md5: string)  // the provider took the part
    | Refused(n: nat)                // UploadPart failed, claim still held
    | Listing(parts: seq<Part>)      // direct: the provider's part list, verified
    | InFlight(parts: seq<Part>)     // completion claimed, Complete in flight
    | Assembled(etag: string)        // the provider completed
    | Outrun                         // the file was decided by somebody else
    | Answered(etag: string)         // commit answered 200
    | Scanned(seen: Candidate)
    | Inspecting(seen: Candidate)
    | Judging(seen: Candidate, blob: Option<Blob>)
    | Sweeping
    | AbortTried(ok: bool)
    | Swept

  datatype State = State(
    file: FileState, etag: string, size: nat, lease: LeaseState, expires: nat, attached: bool,
    location: bool, published: bool, creation: Creation, phase: Phase, ledger: map<nat, Row>,
    session: Session, blob: Option<Blob>, now: nat, procs: map<nat, Proc>,
    lateCreate: bool, lateCompletes: set<seq<Part>>,
    completions: nat, discarded: nat, activations: seq<string>)

  datatype Action =
    // the create request
    | CreateReturns(fate: Fate)
    | Attach(fate: Fate)
    | PrepareRelay(fate: Fate)
    | Compensate(fate: Fate)
    | ScheduleCleanup(fate: Fate)
    | CompensateRelease(fate: Fate)
    | CrashCreate
    | LandCreate
    // part uploads
    | ClaimPart(a: nat, n: nat, md5: string)
    | PartReturns(a: nat, fate: Fate)
    | RenewPart(a: nat)
    | FinishPart(a: nat, fate: Fate)
    | CancelPart(a: nat, fate: Fate)
    // completion
    | ListParts(a: nat, parts: seq<Part>)
    | Prepare(a: nat, parts: seq<Part>, fate: Fate)
    | RenewCompletion(a: nat, fate: Fate)
    | CompleteReturns(a: nat, fate: Fate)
    | Finalize(a: nat, fate: Fate)
    | Reload(a: nat)
    | AnswerActive(a: nat)
    // recovery
    | Scan(a: nat)
    | ClaimRecovery(a: nat)
    | Look(a: nat, fate: Fate)
    | Decide(a: nat, fate: Fate)
    // cleanup
    | SweepStart(a: nat)
    | SweepAbort(a: nat, fate: Fate)
    | SweepDelete(a: nat, fate: Fate)
    | SweepRelease(a: nat, fate: Fate)
    | Crash(a: nat)
    // the outside client, the scans, late arrivals and the clock
    | PutPart(n: nat, md5: string)
    | ExtendLease
    | ClientAbort
    | Reclaim
    | MarkDeleted
    | LandComplete(late: seq<Part>)
    | Tick(d: nat)

  // ---- the numbers a completion is checked against ----

  predicate Direct(c: Config) {
    !c.s3 && !c.relay
  }

  function Tags(parts: seq<Part>): seq<string> {
    seq(|parts|, i requires 0 <= i < |parts| => parts[i].md5)
  }

  function Total(c: Config, parts: seq<Part>): nat {
    if parts == [] then 0 else Total(c, parts[..|parts| - 1]) + c.sizeOf(parts[|parts| - 1].md5)
  }

  /** The native gate: exactly parts 1..count, each of its expected size. */
  predicate Verified(c: Config, parts: seq<Part>) {
    |parts| == |c.sizes| &&
    forall i | 0 <= i < |parts| :: parts[i].n == i + 1 && c.sizeOf(parts[i].md5) == c.sizes[i]
  }

  predicate Ascending(parts: seq<Part>) {
    forall i, j | 0 <= i < j < |parts| :: parts[i].n < parts[j].n
  }

  predicate InLedger(ledger: map<nat, Row>, parts: seq<Part>) {
    forall i | 0 <= i < |parts| :: parts[i].n in ledger && ledger[parts[i].n] == Stored(parts[i].md5)
  }

  predicate Unclaimed(ledger: map<nat, Row>) {
    forall n | n in ledger :: ledger[n].Stored?
  }

  /** The part lists a completion may prepare: the whole measured ledger on the native relay, a
      verified provider listing on the direct path, and the client's ascending, ledger-checked
      choice on the S3 surface. */
  predicate Preparable(c: Config, s: State, parts: seq<Part>) {
    if c.s3 then parts != [] && Ascending(parts) && InLedger(s.ledger, parts)
    else if c.relay then Verified(c, parts) && InLedger(s.ledger, parts) && |s.ledger| == |parts|
    else Verified(c, parts)
  }

  function ExpectedSize(c: Config, parts: seq<Part>): nat
  {
    if c.s3 then Total(c, parts) else c.declaredSize
  }

  /** Complete takes effect only in an open session that holds every listed part with that ETag. */
  predicate Takes(s: State, parts: seq<Part>) {
    s.session.Open? &&
    forall i | 0 <= i < |parts| :: parts[i].n in s.session.parts && s.session.parts[parts[i].n] == parts[i].md5
  }

  function Whole(c: Config, parts: seq<Part>): Blob {
    Blob(Total(c, parts), c.vendorTag(Tags(parts)))
  }

  function Publish(c: Config, s: State, parts: seq<Part>): (t: State)
    ensures SameRequest(s, t) && t.ledger == s.ledger && t.procs == s.procs && t.activations == s.activations
  {
    if Takes(s, parts)
    then s.(session := Closed, blob := Some(Whole(c, parts)), completions := s.completions + 1) else s
  }

  // ---- state access ----

  function ProcOf(s: State, a: nat): Proc {
    if a in s.procs then s.procs[a] else Idle
  }

  function With(s: State, a: nat, p: Proc): State {
    s.(procs := s.procs[a := p])
  }

  function Begin(c: Config): State {
    State(Pending, "", 0, Issued, c.ttl, false, true, false, Calling, Free, map[], Never, None, 0,
          map[], false, {}, 0, 0, [])
  }

  predicate Gone(s: State) {
    s.file == Deleted || s.file == Reclaimed
  }

  /** Given up: only cleanup may touch the provider from here on. */
  predicate Condemned(s: State) {
    Gone(s) || s.phase == Cleaning
  }

  predicate Accepting(s: State) {
    s.published && s.file == Pending && s.phase == Free && s.lease == Issued && s.expires > s.now
  }

  /** A completion the reconciler may act on: claimed, and its lease has run out. */
  predicate Abandoned(s: State) {
    s.file == Pending && s.phase.Completing? && s.lease == Issued && s.expires < s.now
  }

  function CloseSession(s: State): State {
    if s.session.Open? then s.(session := Closed) else s
  }

  /** The pending file is given up in one transaction with its location row. */
  function ReleasePending(s: State): State {
    if s.file == Pending && s.phase == Free
    then s.(file := Reclaimed, lease := Expired, location := false) else s
  }

  function Activate(s: State, size: nat, etag: string): State {
    s.(file := Active, etag := etag, size := size, lease := Committed, phase := Free,
       activations := s.activations + [etag])
  }

  // ---- steps ----

  predicate Creates(x: Action) {
    x.CreateReturns? || x.Attach? || x.PrepareRelay? || x.Compensate? || x.ScheduleCleanup? ||
    x.CompensateRelease? || x.CrashCreate? || x.LandCreate?
  }

  predicate Uploads(x: Action) {
    x.ClaimPart? || x.PartReturns? || x.RenewPart?
  }

  predicate Settles(x: Action) {
    x.FinishPart? || x.CancelPart?
  }

  predicate Claims(x: Action) {
    x.ListParts? || x.Prepare? || x.RenewCompletion? || x.Crash?
  }

  predicate Concludes(x: Action) {
    x.CompleteReturns? || x.Finalize? || x.Reload? || x.AnswerActive?
  }

  predicate Recovers(x: Action) {
    x.Scan? || x.ClaimRecovery? || x.Look? || x.Decide?
  }

  predicate Releases(x: Action) {
    x.SweepStart? || x.SweepAbort? || x.SweepDelete? || x.SweepRelease?
  }

  /** The request or pass that takes the step; None for the create request and the outside. */
  function Mine(x: Action): Option<nat> {
    if Uploads(x) || Settles(x) || Claims(x) || Concludes(x) || Recovers(x) || Releases(x) then Some(x.a) else None
  }

  /** The create request has not moved. */
  predicate SameRequest(s: State, t: State) {
    t.creation == s.creation && t.published == s.published && t.attached == s.attached
  }

  predicate Applies(fate: Fate) {
    fate == Done || fate == AppliedButLost
  }

  function NextCreate(c: Config, s: State, x: Action): (t: State)
    ensures t.procs == s.procs && t.activations == s.activations && t.ledger == s.ledger
  {
    match x
    case CreateReturns(fate) =>
      if s.creation != Calling then s
      else
        var t := if Applies(fate) then s.(session := Open(map[])) else s.(lateCreate := fate == Straggling);
        t.(creation := if fate == Done then Returned else if c.s3 then Unclean else Failed(false))
    case Attach(fate) =>
      if s.creation != Returned then s
      else s.(attached := s.attached || Applies(fate), creation := if fate == Done then Attached else Failed(true))
    case PrepareRelay(fate) =>
      if s.creation != Attached then s
      else if c.s3 || fate == Done then s.(creation := Ended, published := true)
      else s.(creation := Failed(true))
    case Compensate(fate) =>
      if !s.creation.Failed? then s
      else
        var t := if Applies(fate) then CloseSession(s) else s;
        t.(creation := if fate == Done then Aborted else if c.s3 then Unclean else Ended)
    case ScheduleCleanup(fate) =>
      if s.creation != Unclean then s
      else if Applies(fate) && s.file == Pending && s.phase == Free && Unclaimed(s.ledger)
      then s.(creation := Ended, phase := Cleaning) else s.(creation := Ended)
    case CompensateRelease(fate) =>
      if s.creation != Aborted then s
      else if Applies(fate) then ReleasePending(s).(creation := Ended) else s.(creation := Ended)
    case CrashCreate =>
      if s.creation == Calling then s.(lateCreate := true, creation := Dead) else s.(creation := Ended)
    case LandCreate =>
      if !s.lateCreate then s
      else s.(lateCreate := false, session := if s.session == Never then Open(map[]) else s.session)
    case _ => s
  }

  /** A part the surface accepts: in range, and on the native surface of the declared size. */
  predicate PartFits(c: Config, n: nat, md5: string) {
    if c.s3 then 1 <= n <= Geometry.MAX_PARTS else 1 <= n <= |c.sizes| && c.sizeOf(md5) == c.sizes[n - 1]
  }

  predicate ClaimedRow(s: State, n: nat) {
    n in s.ledger && s.ledger[n].Taken?
  }

  function PutInSession(s: State, n: nat, md5: string): State {
    if s.session.Open? then s.(session := Open(s.session.parts[n := md5])) else s
  }

  function NextUpload(c: Config, s: State, x: Action): (t: State)
    ensures SameRequest(s, t)
    ensures s.file != Pending ==> t.activations == s.activations
  {
    match x
    case ClaimPart(a, n, md5) =>
      if (c.s3 || c.relay) && ProcOf(s, a) == Idle && Accepting(s) && PartFits(c, n, md5) && !ClaimedRow(s, n)
      then
        var prev := if n in s.ledger then Some(s.ledger[n].md5) else None;
        With(s.(ledger := s.ledger[n := Taken(prev, a)], expires := Max(s.expires, s.now + c.ttl)),
             a, Holding(n, md5))
      else s
    case PartReturns(a, fate) =>
      (match ProcOf(s, a)
       case Holding(n, md5) =>
         var t := if Applies(fate) then PutInSession(s, n, md5) else s;
         With(t, a, if fate == Done && s.session.Open? then Uploaded(n, md5) else Refused(n))
       case _ => s)
    case RenewPart(a) =>
      (match ProcOf(s, a)
       case Holding(n, md5) =>
         if s.file == Pending && s.lease == Issued && s.phase == Free && ClaimedRow(s, n)
         then s.(expires := s.now + c.ttl) else With(s, a, Idle)
       case _ => s)
    case _ => s
  }

  function NextSettle(c: Config, s: State, x: Action): (t: State)
    ensures SameRequest(s, t)
    ensures s.file != Pending ==> t.activations == s.activations
  {
    match x
    case FinishPart(a, fate) =>
      (match ProcOf(s, a)
       case Uploaded(n, md5) =>
         if Applies(fate) && s.file == Pending && (c.s3 ==> s.phase == Free) && ClaimedRow(s, n)
         then With(s.(ledger := s.ledger[n := Stored(md5)]), a, Idle) else With(s, a, Idle)
       case _ => s)
    case CancelPart(a, fate) =>
      (match ProcOf(s, a)
       case Refused(n) =>
         if !Applies(fate) || !ClaimedRow(s, n) then With(s, a, Idle)
         else
           var prev := s.ledger[n].prev;
           With(s.(ledger := if prev.Some? then s.ledger[n := Stored(prev.value)] else s.ledger - {n}), a, Idle)
       case _ => s)
    case _ => s
  }

  /** Whether finalizing with this ETag activates: the S3 surface trusts the row it finds. */
  predicate Finalizable(c: Config, s: State, etag: string) {
    s.file == Pending && s.phase.Completing? && (c.s3 || EqIgnoreCase(s.phase.etag, etag))
  }

  function FinalizeRow(c: Config, s: State, etag: string): (t: State)
    requires Finalizable(c, s, etag)
    ensures SameRequest(s, t) && t.ledger == s.ledger && t.procs == s.procs
  {
    Activate(s, s.phase.size, if c.s3 then s.phase.etag else etag)
  }

  /** The row a completion can be claimed on: open, leased, and with no part upload under way. */
  predicate Claimable(s: State) {
    s.file == Pending && s.phase == Free && s.lease == Issued && Unclaimed(s.ledger)
  }

  /** The native commit asks for the winner's answer only when the file or its lease is no longer
      open; a busy part, a completion under way or an incomplete list are refusals. */
  predicate Overtaken(c: Config, s: State) {
    !c.s3 && (s.file != Pending || (s.phase == Free && Unclaimed(s.ledger) && s.lease != Issued))
  }

  function ClaimRow(c: Config, s: State, parts: seq<Part>, a: nat): (t: State)
    ensures SameRequest(s, t) && t.ledger == s.ledger && t.procs == s.procs && t.activations == s.activations
  {
    s.(phase := Completing(ExpectedSize(c, parts), c.composite(Tags(parts)), parts, a), expires := s.now + c.ttl)
  }

  function NextClaim(c: Config, s: State, x: Action): (t: State)
    ensures SameRequest(s, t)
    ensures t.ledger == s.ledger
    ensures s.file != Pending ==> t.activations == s.activations
  {
    match x
    case ListParts(a, parts) =>
      if Direct(c) && ProcOf(s, a) == Idle && s.published && Takes(s, parts) &&
         Verified(c, parts) && |s.session.parts| == |parts|
      then With(s, a, Listing(parts)) else s
    case Prepare(a, parts, fate) =>
      if !s.published || ProcOf(s, a) != (if Direct(c) then Listing(parts) else Idle) then s
      else
        var claims := Applies(fate) && Claimable(s) && Preparable(c, s, parts);
        With(if claims then ClaimRow(c, s, parts, a) else s, a,
             if fate != Done then Idle
             else if claims then InFlight(parts)
             else if Overtaken(c, s) then Outrun else Idle)
    case RenewCompletion(a, fate) =>
      (match ProcOf(s, a)
       case InFlight(parts) =>
         if s.file == Pending && s.phase.Completing? && s.lease == Issued
         then if Applies(fate) then s.(expires := s.now + c.ttl) else s
         else if fate == Done then With(s.(lateCompletes := s.lateCompletes + {parts}), a, Idle)
         else s
       case _ => s)
    case Crash(a) =>
      if a !in s.procs then s
      else
        var p := s.procs[a];
        With(if p.InFlight? then s.(lateCompletes := s.lateCompletes + {p.parts}) else s, a, Idle)
    case _ => s
  }

  /** The caller goes on only with a reply whose ETag is the one it computed itself. */
  function AfterComplete(c: Config, s: State, parts: seq<Part>, fate: Fate): Proc {
    var etag := c.composite(Tags(parts));
    if fate == Done && Takes(s, parts) && EqIgnoreCase(c.vendorTag(Tags(parts)), etag)
    then Assembled(etag) else Idle
  }

  function NextConclude(c: Config, s: State, x: Action): (t: State)
    ensures SameRequest(s, t)
    ensures t.ledger == s.ledger
    ensures s.file != Pending ==> t.activations == s.activations
  {
    match x
    case CompleteReturns(a, fate) =>
      (match ProcOf(s, a)
       case InFlight(parts) =>
         if fate == Straggling then With(s.(lateCompletes := s.lateCompletes + {parts}), a, Idle)
         else With(if Applies(fate) then Publish(c, s, parts) else s, a, AfterComplete(c, s, parts, fate))
       case _ => s)
    case Finalize(a, fate) =>
      (match ProcOf(s, a)
       case Assembled(etag) =>
         With(if Applies(fate) && Finalizable(c, s, etag) then FinalizeRow(c, s, etag) else s, a,
              if fate != Done then Idle
              else if Finalizable(c, s, etag) then Answered(etag)
              else if c.s3 then Idle else Outrun)
       case _ => s)
    case Reload(a) =>
      if ProcOf(s, a) != Outrun then s
      else With(s, a, if s.file == Active then Answered(s.etag) else Idle)
    case AnswerActive(a) =>
      if ProcOf(s, a) == Idle && s.file == Active then With(s, a, Answered(s.etag)) else s
    case _ => s
  }

  function Resolve(c: Config, s: State, seen: Candidate, blob: Option<Blob>): (t: State)
    ensures SameRequest(s, t) && t.ledger == s.ledger && t.procs == s.procs
    ensures s.file != Pending ==> t.activations == s.activations
  {
    match Decision<()>(seen.size, seen.etag, true, Success(blob))
    case Success(FinalizeIt) => if Finalizable(c, s, seen.etag) then FinalizeRow(c, s, seen.etag) else s
    case Success(ReopenIt) =>
      if Abandoned(s) then s.(phase := Free, expires := s.now + c.ttl) else s
    case Success(CleanIt) =>
      if Abandoned(s)
      then s.(phase := Cleaning, discarded := s.discarded + 1, lease := if c.s3 then s.lease else Expired)
      else s
    case Failure(_) => s
  }

  function NextRecover(c: Config, s: State, x: Action): (t: State)
    ensures SameRequest(s, t)
    ensures t.ledger == s.ledger
    ensures s.file != Pending ==> t.activations == s.activations
  {
    match x
    case Scan(a) =>
      if ProcOf(s, a) == Idle && Abandoned(s) && s.location
      then With(s, a, Scanned(Candidate(s.phase.size, s.phase.etag, s.now))) else s
    case ClaimRecovery(a) =>
      (match ProcOf(s, a)
       case Scanned(seen) => With(s, a, if Abandoned(s) then Inspecting(seen) else Idle)
       case _ => s)
    case Look(a, fate) =>
      (match ProcOf(s, a)
       case Inspecting(seen) => With(s, a, if fate == Done then Judging(seen, s.blob) else Idle)
       case _ => s)
    case Decide(a, fate) =>
      (match ProcOf(s, a)
       case Judging(seen, blob) =>
         // the pass that scanned the row is cut off after its timeout
         if Applies(fate) && s.now <= seen.at + c.passTimeout
         then With(Resolve(c, s, seen, blob), a, Idle) else With(s, a, Idle)
       case _ => s)
    case _ => s
  }

  /** After physical cleanup the location row goes, and with it a row that was being cleaned. */
  function ReleaseRows(s: State): (t: State)
    ensures SameRequest(s, t) && t.ledger == s.ledger && t.procs == s.procs && t.activations == s.activations
  {
    if Gone(s) then s.(location := false)
    else s.(file := Reclaimed, lease := Expired, location := false, phase := Free)
  }

  function NextRelease(c: Config, s: State, x: Action): (t: State)
    ensures SameRequest(s, t)
    ensures t.ledger == s.ledger
    ensures s.file != Pending ==> t.activations == s.activations
  {
    match x
    case SweepStart(a) =>
      if ProcOf(s, a) == Idle && Condemned(s) && s.location
      then With(s, a, if s.file == Deleted then AbortTried(true) else Sweeping) else s
    case SweepAbort(a, fate) =>
      if ProcOf(s, a) != Sweeping then s
      else With(if Applies(fate) then CloseSession(s) else s, a, AbortTried(fate == Done))
    case SweepDelete(a, fate) =>
      (match ProcOf(s, a)
       case AbortTried(ok) =>
         With(if Applies(fate) then s.(blob := None) else s, a, if ok && fate == Done then Swept else Idle)
       case _ => s)
    case SweepRelease(a, fate) =>
      if ProcOf(s, a) != Swept then s
      else With(if Applies(fate) then ReleaseRows(s) else s, a, Idle)
    case _ => s
  }

  function NextWorld(c: Config, s: State, x: Action): (t: State)
    ensures SameRequest(s, t)
    ensures t.procs == s.procs && t.activations == s.activations && t.ledger == s.ledger
  {
    match x
    case PutPart(n, md5) =>
      if c.s3 || 1 <= n <= |c.sizes| then PutInSession(s, n, md5) else s
    case ExtendLease =>
      if s.published && s.file == Pending && s.lease == Issued && s.expires > s.now && (c.s3 || s.phase == Free)
      then s.(expires := Max(s.expires, s.now + c.ttl)) else s
    case ClientAbort =>
      if c.s3 && s.published && s.file == Pending && s.phase == Free && Unclaimed(s.ledger)
      then s.(phase := Cleaning) else s
    case Reclaim =>
      if s.file == Pending && s.phase == Free && s.lease == Issued && s.expires < s.now
      then if c.s3 then s.(phase := Cleaning, lease := Expired) else s.(file := Reclaimed, lease := Expired)
      else s
    case MarkDeleted => if s.file == Active then s.(file := Deleted) else s
    case LandComplete(late) =>
      if late in s.lateCompletes
      then Publish(c, s, late).(lateCompletes := s.lateCompletes - {late}) else s
    case Tick(d) => s.(now := s.now + d)
    case _ => s
  }

  function Next(c: Config, s: State, x: Action): State
  {
    if Creates(x) then NextCreate(c, s, x)
    else if Uploads(x) then NextUpload(c, s, x)
    else if Settles(x) then NextSettle(c, s, x)
    else if Claims(x) then NextClaim(c, s, x)
    else if Concludes(x) then NextConclude(c, s, x)
    else if Recovers(x) then NextRecover(c, s, x)
    else if Releases(x) then NextRelease(c, s, x)
    else NextWorld(c, s, x)
  }

  function Run(c: Config, s: State, xs: seq<Action>): State
    decreases |xs|
  {
    if xs == [] then s else Next(c, Run(c, s, xs[..|xs| - 1]), xs[|xs| - 1])
  }
}
