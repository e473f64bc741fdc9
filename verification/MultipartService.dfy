/** The request handlers and recovery passes of a multipart upload, as programs over the shared
    world. Before every call the environment runs an arbitrary batch of other actors' steps, and
    every call may fail with or without its effect. */
module MultipartService {
  import opened Wrappers
  import opened Text
  import opened Lifecycle
  import opened Completion
  import opened Multipart
  import opened MultipartInvariant
  import opened MultipartSafety
  import opened MultipartWorld

  // ---- creation ----

  /** What the create request leaves behind when it fails: nothing a client could resume, and any
      session or object still has its location row for the reconciler. */
  ghost predicate GivenUp(s: State) {
    s.creation == Ended && !s.published && (s.session.Open? ==> s.location) && s.blob == None
  }

  /** Aborts by the known id, or sweeps the key when the id is unknown. */
  method AbortSession(w: World) returns (ok: bool)
    requires w.Valid() && w.s.creation.Failed?
    modifies w
    ensures w.Valid() && !w.s.published
    ensures w.s.creation == if ok then Aborted else if w.c.s3 then Unclean else Ended
    ensures ok ==> !w.s.session.Open?
  {
    w.Yield(None);
    w.Reached();
    w.Act(Compensate(w.fates(w.clock)));
    ok := w.s.creation == Aborted;
  }

  /** Gives the pending row up together with its location: only after the session is closed. */
  method ReleaseReservation(w: World)
    requires w.Valid() && w.s.creation == Aborted
    modifies w
    ensures w.Valid() && w.s.creation == Ended && !w.s.published
  {
    w.Yield(None);
    w.Reached();
    w.Act(CompensateRelease(w.fates(w.clock)));
  }

  /** Leaves the row to the reconciler, which still has its location. */
  method ScheduleCreateCleanup(w: World)
    requires w.Valid() && w.s.creation == Unclean
    modifies w
    ensures w.Valid() && w.s.creation == Ended && !w.s.published
  {
    w.Yield(None);
    w.Reached();
    w.Act(Action.ScheduleCleanup(w.fates(w.clock)));
  }

  method GiveUp(w: World)
    requires w.Valid() && (w.s.creation.Failed? || (w.s.creation == Unclean && w.c.s3))
    modifies w
    ensures w.Valid() && GivenUp(w.s)
  {
    var aborted := false;
    if w.s.creation.Failed? {
      aborted := AbortSession(w);
    }
    if aborted {
      ReleaseReservation(w);
    } else if w.c.s3 {
      ScheduleCreateCleanup(w);
    }
    w.Reached();
  }

  lemma CallInTimeIsAdmissible(c: Config, s: State, fate: Fate)
    requires Inv(c, s) && s.creation == Calling && s.now <= s.expires
    ensures Admissible(c, s, CreateReturns(fate))
  {
    forall a | a in s.procs ensures s.procs[a] != AbortTried(true) && s.procs[a] != Swept {
      BystanderInv(c, s, a);
    }
  }

  lemma CreateEnds(c: Config, s: State, fate: Fate)
    requires s.creation == Calling
    ensures var t := NextCreate(c, s, CreateReturns(fate));
            t.now == s.now && t.expires == s.expires &&
            t.creation == if fate == Done then Returned else if c.s3 then Unclean else Creation.Failed(false)
  {
  }

  /** The provider never has to refuse a create call that is answered within the create lease. */
  method CreateVendorUpload(w: World) returns (ok: bool)
    requires w.Valid() && w.s.creation == Calling
    modifies w
    ensures w.Valid()
    ensures w.s.creation == if ok then Returned else if w.c.s3 then Unclean else Failed(false)
    ensures w.s.now <= w.s.expires ==> w.suppressed == old(w.suppressed)
  {
    w.Yield(None);
    w.Reached();
    if w.s.now <= w.s.expires {
      CallInTimeIsAdmissible(w.c, w.s, w.fates(w.clock));
    }
    var fate := w.Answer(CreateReturns(w.fates(w.clock)));
    CreateEnds(w.c, w.s, fate);
    w.Act(CreateReturns(fate));
    ok := w.s.creation == Returned;
  }

  method AttachVendorUpload(w: World) returns (ok: bool)
    requires w.Valid() && w.s.creation == Returned
    modifies w
    ensures w.Valid() && w.s.creation == if ok then Attached else Failed(true)
  {
    w.Yield(None);
    w.Act(Attach(w.fates(w.clock)));
    ok := w.s.creation == Attached;
  }

  method PrepareForRelay(w: World) returns (ok: bool)
    requires w.Valid() && w.s.creation == Attached
    modifies w
    ensures w.Valid() && (if ok then w.s.creation == Ended && w.s.published else w.s.creation == Failed(true))
  {
    w.Yield(None);
    w.Act(PrepareRelay(w.fates(w.clock)));
    ok := w.s.creation == Ended;
  }

  /** Initializes a reserved multipart upload. Success hands out an upload whose session id is on
      record; failure at any step leaves nothing a client could resume and no session without a
      location row. */
  method Initialize(w: World) returns (ok: bool)
    requires w.Valid() && w.s.creation == Calling
    modifies w
    ensures w.Valid() && (if ok then w.s.published && w.s.attached else GivenUp(w.s))
  {
    ok := CreateVendorUpload(w);
    if ok {
      ok := AttachVendorUpload(w);
      if ok {
        ok := PrepareForRelay(w);
      }
    }
    w.Reached();
    if !ok {
      GiveUp(w);
    }
  }

  // ---- part uploads ----

  datatype PartReply = PartStored | PartBusy | NotAccepting | PartFailed | PartLost

  /** The part's claim and its lease can still be renewed. */
  predicate PartRenewable(s: State, n: nat) {
    s.file == Pending && s.lease == Issued && s.phase == Free && ClaimedRow(s, n)
  }

  predicate StoredPart(s: State, n: nat, md5: string) {
    n in s.ledger && s.ledger[n] == Stored(md5)
  }

  method ClaimThePart(w: World, me: nat, n: nat, md5: string) returns (r: Option<PartReply>)
    requires w.Valid() && ProcOf(w.s, me) == Idle && !Direct(w.c) && PartFits(w.c, n, md5)
    modifies w
    ensures w.Valid() && Took(old(w.trace), w.trace, me, ClaimPart(me, n, md5))
    ensures var s := Previous(w.c, w.trace);
            r == if !Accepting(s) then Some(NotAccepting) else if ClaimedRow(s, n) then Some(PartBusy) else None
    ensures ProcOf(w.s, me) == if r.Some? then Idle else Holding(n, md5)
  {
    w.Yield(Some(me));
    WaitedAndTook(old(w.trace), w.trace, me, ClaimPart(me, n, md5));
    var busy := Accepting(w.s) && ClaimedRow(w.s, n);
    w.Act(ClaimPart(me, n, md5));
    r := if ProcOf(w.s, me) == Holding(n, md5) then None else Some(if busy then PartBusy else NotAccepting);
  }

  method RenewThePart(w: World, me: nat) returns (owned: bool)
    requires w.Valid() && ProcOf(w.s, me).Holding?
    modifies w
    ensures w.Valid() && Took(old(w.trace), w.trace, me, RenewPart(me))
    ensures owned <==> PartRenewable(Previous(w.c, w.trace), old(ProcOf(w.s, me)).n)
    ensures ProcOf(w.s, me) == if owned then old(ProcOf(w.s, me)) else Idle
  {
    w.Yield(Some(me));
    WaitedAndTook(old(w.trace), w.trace, me, RenewPart(me));
    w.Act(RenewPart(me));
    owned := ProcOf(w.s, me) != Idle;
  }

  /** Renews until the provider answers: `n` renewals, all of them unless the last one is refused. */
  method RenewWhileForwarding(w: World, me: nat, beats: nat) returns (owned: bool, ghost n: nat)
    requires w.Valid() && ProcOf(w.s, me).Holding?
    modifies w
    ensures w.Valid() && Made(w.c, old(w.trace), w.trace, me, Repeat(RenewPart(me), n), false)
    ensures n <= beats && (owned ==> n == beats)
    ensures ProcOf(w.s, me) == if owned then old(ProcOf(w.s, me)) else Idle
    ensures !owned ==> w.trace != [] && w.Last() == RenewPart(me) &&
                       !PartRenewable(Previous(w.c, w.trace), old(ProcOf(w.s, me)).n)
  {
    owned, n := true, 0;
    MadeNothing(w.c, w.trace, me);
    for i := 0 to beats
      invariant w.Valid() && ProcOf(w.s, me) == old(ProcOf(w.s, me)) && owned && n == i
      invariant Made(w.c, old(w.trace), w.trace, me, Repeat(RenewPart(me), n), false)
    {
      ghost var before := w.trace;
      owned := RenewThePart(w, me);
      RenewalIsMade(w.c, old(w.trace), before, w.trace, me, n);
      n := n + 1;
      if !owned {
        return;
      }
    }
  }

  lemma RenewalIsMade(c: Config, was: seq<Action>, before: seq<Action>, trace: seq<Action>, me: nat, n: nat)
    requires Made(c, was, before, me, Repeat(RenewPart(me), n), false) && Took(before, trace, me, RenewPart(me))
    ensures Made(c, was, trace, me, Repeat(RenewPart(me), n + 1), false)
  {
    TookIsMade(c, before, trace, me, RenewPart(me));
    MadeMore(c, was, before, trace, me, Repeat(RenewPart(me), n), [RenewPart(me)], false, false);
    RepeatMore(RenewPart(me), n);
  }

  method TakePartReply(w: World, me: nat)
    requires w.Valid() && ProcOf(w.s, me).Holding?
    modifies w
    ensures w.Valid() && w.trace != [] && Took(old(w.trace), w.trace, me, PartReturns(me, Ending(w.Last())))
    ensures var p := old(ProcOf(w.s, me));
            ProcOf(w.s, me) ==
            if Ending(w.Last()) == Done && Previous(w.c, w.trace).session.Open? then Uploaded(p.n, p.md5) else Refused(p.n)
  {
    w.Yield(Some(me));
    WaitedAndTook(old(w.trace), w.trace, me, PartReturns(me, w.fates(w.clock)));
    w.Act(PartReturns(me, w.fates(w.clock)));
  }

  /** Forwards the part while renewing the lease; `beats` renewals happen before the reply. */
  method ForwardPart(w: World, me: nat, beats: nat) returns (owned: bool, ghost n: nat)
    requires w.Valid() && ProcOf(w.s, me).Holding?
    modifies w
    ensures w.Valid() && n <= beats && (owned ==> n == beats)
    ensures Made(w.c, old(w.trace), w.trace, me,
                 Repeat(RenewPart(me), n) + if owned then [PartReturns(me, Done)] else [], false)
    ensures !owned ==> ProcOf(w.s, me) == Idle && w.trace != [] && w.Last() == RenewPart(me) &&
                       !PartRenewable(Previous(w.c, w.trace), old(ProcOf(w.s, me)).n)
    ensures var p := old(ProcOf(w.s, me));
            owned ==> w.trace != [] && w.Last().PartReturns? &&
                      ProcOf(w.s, me) == if Ending(w.Last()) == Done && Previous(w.c, w.trace).session.Open?
                                         then Uploaded(p.n, p.md5) else Refused(p.n)
  {
    owned, n := RenewWhileForwarding(w, me, beats);
    assert Repeat(RenewPart(me), n) + [] == Repeat(RenewPart(me), n);
    if owned {
      ghost var before := w.trace;
      TakePartReply(w, me);
      TookIsMade(w.c, before, w.trace, me, w.Last());
      MadeMore(w.c, old(w.trace), before, w.trace, me, Repeat(RenewPart(me), n), [PartReturns(me, Done)], false, false);
    }
  }

  method RecordPart(w: World, me: nat) returns (r: PartReply)
    requires w.Valid() && ProcOf(w.s, me).Uploaded?
    modifies w
    ensures w.Valid() && ProcOf(w.s, me) == Idle
    ensures w.trace != [] && Took(old(w.trace), w.trace, me, FinishPart(me, Ending(w.Last())))
    ensures ProcOf(Previous(w.c, w.trace), me) == old(ProcOf(w.s, me))
    ensures var p := old(ProcOf(w.s, me));
            r == if Ending(w.Last()) != Done then PartFailed
                 else if StoredPart(w.s, p.n, p.md5) then PartStored else PartLost
  {
    w.Yield(Some(me));
    w.Own(me);
    var p, fate := ProcOf(w.s, me), w.fates(w.clock);
    WaitedAndTook(old(w.trace), w.trace, me, FinishPart(me, fate));
    w.Act(FinishPart(me, fate));
    r := if fate != Done then PartFailed
         else if p.n in w.s.ledger && w.s.ledger[p.n] == Stored(p.md5) then PartStored
         else PartLost;
  }

  method ReleasePart(w: World, me: nat)
    requires w.Valid() && ProcOf(w.s, me).Refused?
    modifies w
    ensures w.Valid() && ProcOf(w.s, me) == Idle
    ensures w.trace != [] && Took(old(w.trace), w.trace, me, CancelPart(me, Ending(w.Last())))
    ensures ProcOf(Previous(w.c, w.trace), me) == old(ProcOf(w.s, me))
  {
    w.Yield(Some(me));
    WaitedAndTook(old(w.trace), w.trace, me, CancelPart(me, w.fates(w.clock)));
    w.Act(CancelPart(me, w.fates(w.clock)));
  }

  /** Why the upload of a part ended so: what its last step found and did. */
  ghost predicate PartExplained(r: PartReply, me: nat, n: nat, md5: string, s: State, x: Action, t: State) {
    match r
    case NotAccepting => x.ClaimPart? && !Accepting(s)
    case PartBusy => x.ClaimPart? && Accepting(s) && ClaimedRow(s, n)
    case PartFailed => (x.CancelPart? && ProcOf(s, me) == Refused(n)) || (x.FinishPart? && x.fate != Done)
    case PartLost => (x.RenewPart? && !PartRenewable(s, n)) || (x.FinishPart? && x.fate == Done && !StoredPart(t, n, md5))
    case PartStored => x.FinishPart? && x.fate == Done && StoredPart(t, n, md5)
  }

  /** The calls of a part upload: the claim, the renewals, the reply, and then its record or, if the
      provider refused it, its release. It may stop at the claim or at a renewal. */
  ghost predicate PartCalls(calls: seq<Action>, me: nat, n: nat, md5: string, beats: nat) {
    var claim, reply := [ClaimPart(me, n, md5)], Repeat(RenewPart(me), beats) + [PartReturns(me, Done)];
    (exists k: nat :: k <= beats && calls == claim + Repeat(RenewPart(me), k)) ||
    calls == claim + reply + [FinishPart(me, Done)] || calls == claim + reply + [CancelPart(me, Done)]
  }

  /** A measured part: claim it, forward it under a heartbeat, record it. Success means the ledger
      now holds exactly the measured digest for this part, and every reply says why it was given. */
  method UploadPart(w: World, me: nat, n: nat, md5: string, beats: nat) returns (r: PartReply, ghost calls: seq<Action>)
    requires w.Valid() && ProcOf(w.s, me) == Idle && !Direct(w.c) && PartFits(w.c, n, md5)
    modifies w
    ensures w.Valid() && ProcOf(w.s, me) == Idle
    ensures r.PartStored? ==> n in w.s.ledger && w.s.ledger[n] == Stored(md5)
    ensures Made(w.c, old(w.trace), w.trace, me, calls, false) && PartCalls(calls, me, n, md5, beats)
    ensures w.trace != [] && PartExplained(r, me, n, md5, Previous(w.c, w.trace), w.Last(), w.s)
  {
    var refused := ClaimThePart(w, me, n, md5);
    ghost var claim := [ClaimPart(me, n, md5)];
    calls := claim;
    TookIsMade(w.c, old(w.trace), w.trace, me, ClaimPart(me, n, md5));
    assert claim == claim + Repeat(RenewPart(me), 0);
    if refused.Some? {
      return refused.value, calls;
    }
    ghost var claimed := w.trace;
    r, calls := ForwardAndRecord(w, me, beats);
    MadeMore(w.c, old(w.trace), claimed, w.trace, me, claim, calls, false, false);
    assert calls == Repeat(RenewPart(me), beats) + [PartReturns(me, Done)] + [FinishPart(me, Done)] ==>
             claim + calls == claim + (Repeat(RenewPart(me), beats) + [PartReturns(me, Done)]) + [FinishPart(me, Done)];
    assert calls == Repeat(RenewPart(me), beats) + [PartReturns(me, Done)] + [CancelPart(me, Done)] ==>
             claim + calls == claim + (Repeat(RenewPart(me), beats) + [PartReturns(me, Done)]) + [CancelPart(me, Done)];
    calls := claim + calls;
  }

  method ForwardAndRecord(w: World, me: nat, beats: nat) returns (r: PartReply, ghost calls: seq<Action>)
    requires w.Valid() && ProcOf(w.s, me).Holding?
    modifies w
    ensures w.Valid() && ProcOf(w.s, me) == Idle && Made(w.c, old(w.trace), w.trace, me, calls, false)
    ensures var reply := Repeat(RenewPart(me), beats) + [PartReturns(me, Done)];
            (exists k: nat :: k <= beats && calls == Repeat(RenewPart(me), k)) ||
            calls == reply + [FinishPart(me, Done)] || calls == reply + [CancelPart(me, Done)]
    ensures var p := old(ProcOf(w.s, me));
            w.trace != [] && PartExplained(r, me, p.n, p.md5, Previous(w.c, w.trace), w.Last(), w.s)
  {
    var owned;
    ghost var k;
    owned, k := ForwardPart(w, me, beats);
    calls := Repeat(RenewPart(me), k) + if owned then [PartReturns(me, Done)] else [];
    if !owned {
      assert calls == Repeat(RenewPart(me), k);
      return PartLost, calls;
    }
    ghost var forwarded, rest := w.trace, [];
    r, rest := SettlePart(w, me);
    MadeMore(w.c, old(w.trace), forwarded, w.trace, me, calls, rest, false, false);
    calls := calls + rest;
  }

  /** Records a part that the provider took, and releases one that it refused. */
  method SettlePart(w: World, me: nat) returns (r: PartReply, ghost calls: seq<Action>)
    requires w.Valid() && (ProcOf(w.s, me).Uploaded? || ProcOf(w.s, me).Refused?)
    modifies w
    ensures w.Valid() && ProcOf(w.s, me) == Idle && Made(w.c, old(w.trace), w.trace, me, calls, false)
    ensures calls == [FinishPart(me, Done)] || calls == [CancelPart(me, Done)]
    ensures var p := old(ProcOf(w.s, me));
            w.trace != [] && ProcOf(Previous(w.c, w.trace), me) == p &&
            if p.Refused? then r == PartFailed && w.Last().CancelPart?
            else w.Last().FinishPart? &&
                 r == if w.Last().fate != Done then PartFailed
                      else if StoredPart(w.s, p.n, p.md5) then PartStored else PartLost
  {
    if ProcOf(w.s, me).Refused? {
      ReleasePart(w, me);
      r := PartFailed;
    } else {
      r := RecordPart(w, me);
    }
    TookIsMade(w.c, old(w.trace), w.trace, me, w.Last());
    calls := [Plain(w.Last())];
  }

  // ---- completion ----

  datatype CommitReply =
    | Committed(etag: string, transitioned: bool)
    | NotCommittable | OperationFailed | OwnershipLost

  datatype Prepared = Ready | TakenOver | PrepareFailed

  /** The provider's list can be prepared: complete, and every part of its expected size. */
  predicate Listed(c: Config, s: State, parts: seq<Part>) {
    s.published && Takes(s, parts) && Verified(c, parts) && |s.session.parts| == |parts|
  }

  /** The claim of this list goes through. */
  predicate CanClaim(c: Config, s: State, parts: seq<Part>) {
    s.published && Claimable(s) && Preparable(c, s, parts)
  }

  /** A list is prepared only if it can be, and not beside another transition. */
  function PreparedBy(c: Config, s: State, x: Action): Prepared
    requires x.Prepare?
  {
    if x.fate == Done && CanClaim(c, s, x.parts) then Ready
    else if x.fate == Done && s.published && Overtaken(c, s) then TakenOver
    else PrepareFailed
  }

  /** The calls that prepare a completion: on the direct path the provider's list is read first. */
  function PrepareCalls(c: Config, me: nat, chosen: seq<Part>): seq<Action> {
    (if Direct(c) then [Action.ListParts(me, chosen)] else []) + [Action.Prepare(me, chosen, Done)]
  }

  method ReadPartList(w: World, me: nat, chosen: seq<Part>) returns (ok: bool)
    requires w.Valid() && ProcOf(w.s, me) == Idle && Direct(w.c)
    modifies w
    ensures w.Valid() && Took(old(w.trace), w.trace, me, Action.ListParts(me, chosen))
    ensures ok <==> Listed(w.c, Previous(w.c, w.trace), chosen)
    ensures ProcOf(w.s, me) == if ok then Listing(chosen) else Idle
    ensures w.suppressed == old(w.suppressed)
  {
    w.Yield(Some(me));
    WaitedAndTook(old(w.trace), w.trace, me, Action.ListParts(me, chosen));
    w.Act(Action.ListParts(me, chosen));
    ok := ProcOf(w.s, me) == Listing(chosen);
  }

  method ClaimCompletion(w: World, me: nat, parts: seq<Part>) returns (r: Prepared)
    requires w.Valid() && ProcOf(w.s, me) == if Direct(w.c) then Listing(parts) else Idle
    modifies w
    ensures w.Valid() && w.suppressed == old(w.suppressed)
    ensures w.trace != [] && Took(old(w.trace), w.trace, me, Action.Prepare(me, parts, Ending(w.Last())))
    ensures r == PreparedBy(w.c, Previous(w.c, w.trace), w.Last())
    ensures r.Ready? ==> w.s.phase.Completing? && w.s.phase.parts == parts
    ensures PreparedAs(w.c, me, parts, r, w.trace)
  {
    w.Yield(Some(me));
    WaitedAndTook(old(w.trace), w.trace, me, Action.Prepare(me, parts, w.fates(w.clock)));
    w.Act(Action.Prepare(me, parts, w.fates(w.clock)));
    r := if ProcOf(w.s, me) == InFlight(parts) then Ready
         else if ProcOf(w.s, me) == Outrun then TakenOver
         else PrepareFailed;
  }

  /** Why nothing was prepared. */
  ghost predicate PrepareRefused(c: Config, me: nat, chosen: seq<Part>, s: State, x: Action) {
    (x == Action.ListParts(me, chosen) && Direct(c) && !Listed(c, s, chosen)) ||
    (x.Prepare? && x.parts == chosen && PreparedBy(c, s, x) == PrepareFailed)
  }

  /** What a preparation leaves behind, and why it refused. */
  ghost predicate PreparedAs(c: Config, me: nat, chosen: seq<Part>, r: Prepared, trace: seq<Action>) {
    trace != [] &&
    var s, x, p := Previous(c, trace), trace[|trace| - 1], ProcOf(Run(c, Begin(c), trace), me);
    match r
    case Ready =>
      p == InFlight(chosen) && x.Prepare? && PreparedBy(c, s, x) == Ready && Owns(c, Run(c, Begin(c), trace), me, chosen)
    case TakenOver => p == Outrun && x.Prepare? && PreparedBy(c, s, x) == TakenOver
    case PrepareFailed => (p == Idle || p.Listing?) && PrepareRefused(c, me, chosen, s, x)
  }

  /** Validates one part list and durably claims completion before any physical commit. */
  method PrepareCompletion(w: World, me: nat, chosen: seq<Part>) returns (r: Prepared, ghost calls: seq<Action>)
    requires w.Valid() && ProcOf(w.s, me) == Idle
    modifies w
    ensures w.Valid() && w.suppressed == old(w.suppressed) && Made(w.c, old(w.trace), w.trace, me, calls, false)
    ensures calls == PrepareCalls(w.c, me, chosen) ||
            (Direct(w.c) && r.PrepareFailed? && calls == [Action.ListParts(me, chosen)])
    ensures r.Ready? ==> w.s.phase.Completing? && w.s.phase.parts == chosen
    ensures PreparedAs(w.c, me, chosen, r, w.trace)
  {
    if Direct(w.c) {
      r, calls := PrepareDirect(w, me, chosen);
    } else {
      ghost var was := w.trace;
      r := ClaimCompletion(w, me, chosen);
      MadeNothing(w.c, was, me);
      PrepareIsMade(w.c, was, was, w.trace, me, chosen, []);
      calls := [] + [Action.Prepare(me, chosen, Done)];
    }
  }

  /** The direct path verifies the provider's own list first. */
  method PrepareDirect(w: World, me: nat, chosen: seq<Part>) returns (r: Prepared, ghost calls: seq<Action>)
    requires w.Valid() && ProcOf(w.s, me) == Idle && Direct(w.c)
    modifies w
    ensures w.Valid() && w.suppressed == old(w.suppressed) && Made(w.c, old(w.trace), w.trace, me, calls, false)
    ensures calls == PrepareCalls(w.c, me, chosen) || (r.PrepareFailed? && calls == [Action.ListParts(me, chosen)])
    ensures r.Ready? ==> w.s.phase.Completing? && w.s.phase.parts == chosen
    ensures PreparedAs(w.c, me, chosen, r, w.trace)
  {
    ghost var was := w.trace;
    var listed := ReadPartList(w, me, chosen);
    ghost var read := w.trace;
    ListIsMade(w.c, was, read, me, chosen);
    calls := [Action.ListParts(me, chosen)];
    r := PrepareFailed;
    if listed {
      r := ClaimCompletion(w, me, chosen);
      PrepareIsMade(w.c, was, read, w.trace, me, chosen, calls);
      calls := calls + [Action.Prepare(me, chosen, Done)];
    }
  }

  lemma ListIsMade(c: Config, was: seq<Action>, trace: seq<Action>, me: nat, chosen: seq<Part>)
    requires Took(was, trace, me, Action.ListParts(me, chosen))
    ensures Made(c, was, trace, me, [Action.ListParts(me, chosen)], false)
  {
    TookIsMade(c, was, trace, me, Action.ListParts(me, chosen));
  }

  lemma PrepareIsMade(c: Config, was: seq<Action>, before: seq<Action>, trace: seq<Action>, me: nat, chosen: seq<Part>,
                      calls: seq<Action>)
    requires Made(c, was, before, me, calls, false)
    requires trace != [] && Took(before, trace, me, Action.Prepare(me, chosen, Ending(trace[|trace| - 1])))
    ensures Made(c, was, trace, me, calls + [Action.Prepare(me, chosen, Done)], false)
  {
    TookIsMade(c, before, trace, me, trace[|trace| - 1]);
    MadeMore(c, was, before, trace, me, calls, [Action.Prepare(me, chosen, Done)], false, false);
  }

  /** No completion is claimed on this row any more. */
  predicate Lost(s: State) {
    s.file != Pending || !s.phase.Completing? || s.lease != Issued
  }

  lemma RenewalTook(was: seq<Action>, trace: seq<Action>, me: nat, x: Action)
    requires Took(was, trace, me, x) && x.RenewCompletion?
    ensures OnlyRenews(trace[|was|..], me)
  {
    assert trace[|was|..] == trace[|was|..|trace| - 1] + [x];
  }

  method RenewTheCompletion(w: World, me: nat) returns (owned: bool)
    requires w.Valid() && ProcOf(w.s, me).InFlight?
    modifies w
    ensures w.Valid() && w.suppressed == old(w.suppressed)
    ensures w.trace != [] && Took(old(w.trace), w.trace, me, Action.RenewCompletion(me, Ending(w.Last())))
    ensures owned <==> !Lost(Previous(w.c, w.trace)) || Ending(w.Last()) != Done
    ensures ProcOf(w.s, me) == if owned then old(ProcOf(w.s, me)) else Idle
    ensures !owned ==> Lost(w.s)
  {
    w.Yield(Some(me));
    WaitedAndTook(old(w.trace), w.trace, me, Action.RenewCompletion(me, w.fates(w.clock)));
    w.Act(Action.RenewCompletion(me, w.fates(w.clock)));
    owned := ProcOf(w.s, me) != Idle;
  }

  lemma OneMoreRenewal(was: seq<Action>, before: seq<Action>, trace: seq<Action>, me: nat)
    requires was <= before <= trace && OnlyRenews(before[|was|..], me) && OnlyRenews(trace[|before|..], me)
    ensures OnlyRenews(trace[|was|..], me)
  {
    assert trace[|was|..] == before[|was|..] + trace[|before|..];
  }

  /** Renews the lease until the reply is there: `n` renewals, all of them unless the last one finds
      the row taken. A failed renewal is not a loss. */
  method RenewWhileCompleting(w: World, me: nat, beats: nat) returns (owned: bool, ghost n: nat)
    requires w.Valid() && ProcOf(w.s, me).InFlight?
    modifies w
    ensures w.Valid() && ProcOf(w.s, me) == if owned then old(ProcOf(w.s, me)) else Idle
    ensures w.suppressed == old(w.suppressed) && n <= beats && (owned ==> n == beats)
    ensures Made(w.c, old(w.trace), w.trace, me, Repeat(Action.RenewCompletion(me, Done), n), false)
    ensures OnlyRenews(w.trace[|old(w.trace)|..], me)
    ensures !owned ==> Lost(w.s) && w.trace != [] && w.Last() == Action.RenewCompletion(me, Done) &&
                       Lost(Previous(w.c, w.trace))
  {
    owned, n := true, 0;
    ghost var x := Action.RenewCompletion(me, Done);
    MadeNothing(w.c, w.trace, me);
    for i := 0 to beats
      invariant w.Valid() && ProcOf(w.s, me) == old(ProcOf(w.s, me)) && owned && n == i
      invariant w.suppressed == old(w.suppressed) && Made(w.c, old(w.trace), w.trace, me, Repeat(x, n), false)
      invariant OnlyRenews(w.trace[|old(w.trace)|..], me)
    {
      ghost var before := w.trace;
      owned := RenewTheCompletion(w, me);
      RenewalTook(before, w.trace, me, w.Last());
      OneMoreRenewal(old(w.trace), before, w.trace, me);
      TookIsMade(w.c, before, w.trace, me, w.Last());
      MadeMore(w.c, old(w.trace), before, w.trace, me, Repeat(x, n), [x], false, false);
      RepeatMore(x, n);
      n := n + 1;
      if !owned {
        return;
      }
    }
  }

  lemma AnswerIsAdmissible(c: Config, s: State, me: nat, parts: seq<Part>, fate: Fate)
    requires Inv(c, s) && Conforming(c) && OwnsOrDone(c, s, me, parts) && LeaseHolds(s, me)
    requires ProcOf(s, me) == InFlight(parts)
    ensures Admissible(c, s, CompleteReturns(me, fate))
  {
    OwnedIsHarmless(c, s, me, parts);
  }

  lemma LeasedCallIsAdmissible(c: Config, was: seq<Action>, called: seq<Action>, trace: seq<Action>,
                               me: nat, parts: seq<Part>, fate: Fate)
    requires Wellformed(c) && Conforming(c) && was <= called <= trace && Leased(c, trace, |was|, me)
    requires Punctual(c, Begin(c), called) && OthersOnly(called[|was|..], Some(me))
    requires OwnsOrDone(c, Run(c, Begin(c), was), me, parts)
    requires ProcOf(Run(c, Begin(c), called), me) == InFlight(parts)
    ensures Admissible(c, Run(c, Begin(c), called), CompleteReturns(me, fate))
  {
    assert trace[..|called|] == called;
    LeasedEarlier(c, trace, |called|, |was|, me);
    OthersRenewNothing(called[|was|..], me);
    StillOwned(c, was, called, me, parts);
    ReachableInv(c, called);
    AnswerIsAdmissible(c, Run(c, Begin(c), called), me, parts, fate);
  }

  /** The provider completes this list and gives the object the ETag computed here. */
  predicate Completes(c: Config, s: State, parts: seq<Part>, fate: Fate) {
    fate == Done && Takes(s, parts) && EqIgnoreCase(c.vendorTag(Tags(parts)), c.composite(Tags(parts)))
  }

  method TakeAnswer(w: World, me: nat) returns (etag: Option<string>)
    requires w.Valid() && ProcOf(w.s, me).InFlight?
    modifies w
    ensures w.Valid()
    ensures w.trace != [] && w.trace == old(w.trace) + [CompleteReturns(me, Ending(w.Last()))]
    ensures Ending(w.Last()) != w.fates(old(w.clock)) ==>
              Ending(w.Last()) == NotApplied && !Admissible(w.c, old(w.s), CompleteReturns(me, w.fates(old(w.clock))))
    ensures var parts := old(ProcOf(w.s, me)).parts;
            (etag.Some? <==> Completes(w.c, old(w.s), parts, Ending(w.Last()))) &&
            (etag.Some? ==> etag.value == w.c.composite(Tags(parts)))
    ensures ProcOf(w.s, me) == if etag.Some? then Assembled(etag.value) else Idle
    ensures Admissible(w.c, old(w.s), CompleteReturns(me, w.fates(old(w.clock)))) ==> w.suppressed == old(w.suppressed)
  {
    var fate := w.Answer(CompleteReturns(me, w.fates(w.clock)));
    w.Act(CompleteReturns(me, fate));
    etag := if ProcOf(w.s, me).Assembled? then Some(ProcOf(w.s, me).etag) else None;
  }

  /** The provider's answer. While this program owns the completion and its lease holds, whatever
      the provider does is harmless. */
  method AwaitComplete(w: World, me: nat) returns (etag: Option<string>)
    requires w.Valid() && ProcOf(w.s, me).InFlight?
    modifies w
    ensures w.Valid()
    ensures w.trace != [] && Took(old(w.trace), w.trace, me, CompleteReturns(me, Ending(w.Last())))
    ensures var parts := old(ProcOf(w.s, me)).parts;
            (etag.Some? <==> Completes(w.c, Previous(w.c, w.trace), parts, Ending(w.Last()))) &&
            (etag.Some? ==> etag.value == w.c.composite(Tags(parts)))
    ensures ProcOf(w.s, me) == if etag.Some? then Assembled(etag.value) else Idle
    ensures Conforming(w.c) && OwnsOrDone(w.c, old(w.s), me, old(ProcOf(w.s, me).parts)) ==>
              Leased(w.c, w.trace, |old(w.trace)|, me) ==> w.suppressed == old(w.suppressed)
  {
    ghost var was, parts := w.trace, ProcOf(w.s, me).parts;
    w.Yield(Some(me));
    ghost var called, fate := w.trace, w.fates(w.clock);
    etag := TakeAnswer(w, me);
    WaitedAndTook(was, called, me, w.Last());
    if Conforming(w.c) && OwnsOrDone(w.c, old(w.s), me, parts) && Leased(w.c, w.trace, |was|, me) {
      LeasedCallIsAdmissible(w.c, was, called, w.trace, me, parts, fate);
    }
  }

  /** The conditional activation of an assembled object. */
  method FinalizeCompletion(w: World, me: nat) returns (won: Option<bool>)
    requires w.Valid() && ProcOf(w.s, me).Assembled?
    modifies w
    ensures w.Valid() && w.suppressed == old(w.suppressed)
    ensures w.trace != [] && Took(old(w.trace), w.trace, me, Action.Finalize(me, Ending(w.Last())))
    ensures ProcOf(Previous(w.c, w.trace), me) == old(ProcOf(w.s, me))
    ensures var s, etag := Previous(w.c, w.trace), old(ProcOf(w.s, me)).etag;
            won == (if Ending(w.Last()) != Done then None else Some(Finalizable(w.c, s, etag))) &&
            ProcOf(w.s, me) == if won == Some(true) then Answered(etag)
                               else if won == Some(false) && !w.c.s3 then Outrun else Idle
    ensures won == Some(true) ==> |w.s.activations| == |Previous(w.c, w.trace).activations| + 1
    ensures won == Some(false) ==> w.s.activations == Previous(w.c, w.trace).activations
    ensures won == Some(false) ==> !Finalizable(w.c, w.s, old(ProcOf(w.s, me).etag))
  {
    w.Yield(Some(me));
    var fate := w.fates(w.clock);
    WaitedAndTook(old(w.trace), w.trace, me, Action.Finalize(me, fate));
    w.Act(Action.Finalize(me, fate));
    won := if fate != Done then None else Some(ProcOf(w.s, me).Answered?);
  }

  method ReloadWinner(w: World, me: nat) returns (r: CommitReply)
    requires w.Valid() && ProcOf(w.s, me) == Outrun
    modifies w
    ensures w.Valid() && w.suppressed == old(w.suppressed)
    ensures Took(old(w.trace), w.trace, me, Reload(me))
    ensures var s := Previous(w.c, w.trace);
            r == (if s.file == Active then CommitReply.Committed(s.etag, false) else NotCommittable) &&
            ProcOf(w.s, me) == if s.file == Active then Answered(s.etag) else Idle
  {
    w.Yield(Some(me));
    WaitedAndTook(old(w.trace), w.trace, me, Reload(me));
    w.Act(Reload(me));
    r := if ProcOf(w.s, me).Answered? then CommitReply.Committed(ProcOf(w.s, me).etag, false) else NotCommittable;
  }

  /** Why a commit ended so: what its last step found. A success that transitioned is this program's
      own finalize, another one the reload of what somebody else activated. */
  ghost predicate CommitExplained(c: Config, me: nat, chosen: seq<Part>, r: CommitReply, s: State, x: Action) {
    match r
    case Committed(etag, transitioned) =>
      if transitioned
      then x == Action.Finalize(me, Done) && ProcOf(s, me) == Assembled(etag) && Finalizable(c, s, etag)
      else x == Reload(me) && s.file == Active && etag == s.etag
    case OwnershipLost => x == Action.RenewCompletion(me, Done) && Lost(s)
    case NotCommittable =>
      (x == Reload(me) && s.file != Active) ||
      (c.s3 && x == Action.Finalize(me, Done) && ProcOf(s, me).Assembled? && !Finalizable(c, s, ProcOf(s, me).etag))
    case OperationFailed =>
      PrepareRefused(c, me, chosen, s, x) || (x.CompleteReturns? && !Completes(c, s, chosen, x.fate)) ||
      (x.Finalize? && x.fate != Done)
  }

  /** The calls after a completion was prepared: the renewals, the provider's answer, the finalize and
      the reload. It may stop at a renewal and at every later call. */
  ghost predicate ConcludingCalls(calls: seq<Action>, me: nat, beats: nat) {
    var answer := Repeat(Action.RenewCompletion(me, Done), beats) + [CompleteReturns(me, Done)];
    (exists k: nat :: k <= beats && calls == Repeat(Action.RenewCompletion(me, Done), k)) || calls == answer ||
    calls == answer + [Action.Finalize(me, Done)] || calls == answer + [Action.Finalize(me, Done), Reload(me)]
  }

  /** The calls of a commit: it prepares, and only then completes; overtaken, it only reloads. */
  ghost predicate CommitCalls(c: Config, calls: seq<Action>, me: nat, chosen: seq<Part>, beats: nat) {
    (Direct(c) && calls == [Action.ListParts(me, chosen)]) || calls == PrepareCalls(c, me, chosen) ||
    calls == PrepareCalls(c, me, chosen) + [Reload(me)] ||
    exists rest :: ConcludingCalls(rest, me, beats) && calls == PrepareCalls(c, me, chosen) + rest
  }

  /** A commit: prepare, complete under a heartbeat, finalize. It answers a success exactly if it has
      an ETag to answer, and says it made the transition exactly if it did. A success names the ETag
      that activated the file; while the file is active the provider's object has that ETag and the
      stored size. Every refusal has its reason. While the lease holds the provider never has to
      refuse its Complete. */
  method CommitMultipart(w: World, me: nat, chosen: seq<Part>, beats: nat)
    returns (r: CommitReply, ghost calls: seq<Action>)
    requires w.Valid() && ProcOf(w.s, me) == Idle
    modifies w
    ensures w.Valid() && Safe(w.s)
    ensures r.Committed? <==> ProcOf(w.s, me).Answered?
    ensures r.Committed? ==> ProcOf(w.s, me) == Answered(r.etag)
    ensures r.Committed? ==> |w.s.activations| == 1 && EqIgnoreCase(w.s.activations[0], r.etag)
    ensures r.Committed? && w.s.file == Active ==>
              w.s.blob.Some? && w.s.blob.value.size == w.s.size && EqIgnoreCase(w.s.blob.value.etag, r.etag)
    ensures r.Committed? && r.transitioned ==> r.etag == w.c.composite(Tags(chosen))
    ensures r.Committed? && r.transitioned <==> Activated(w.c, w.trace, |old(w.trace)|, me)
    ensures r.OwnershipLost? ==> Lost(w.s)
    ensures w.trace != [] && CommitExplained(w.c, me, chosen, r, Previous(w.c, w.trace), w.Last())
    ensures Made(w.c, old(w.trace), w.trace, me, calls, r.Committed? && r.transitioned)
    ensures CommitCalls(w.c, calls, me, chosen, beats)
    ensures old(w.trace) <= w.trace
    ensures Conforming(w.c) && Leased(w.c, w.trace, |old(w.trace)|, me) ==> w.suppressed == old(w.suppressed)
  {
    ghost var was := w.trace;
    var prepared;
    prepared, calls := PrepareCompletion(w, me, chosen);
    ghost var claimed, first, rest := w.trace, calls, [];
    r, rest := ConcludePrepared(w, me, chosen, beats, prepared);
    calls := first + rest;
    CommitIsMade(w.c, was, claimed, w.trace, me, chosen, beats, prepared, r, first, rest);
    w.Reached();
    InvIsSafe(w.c, w.s);
    if r.Committed? {
      AnswerNamesTheObject(w.c, w.s, me);
    }
  }

  /** What may follow the preparation: nothing, a reload, or the completion. */
  ghost predicate FollowingCalls(rest: seq<Action>, me: nat, beats: nat, prepared: Prepared) {
    match prepared
    case Ready => ConcludingCalls(rest, me, beats)
    case TakenOver => rest == [Reload(me)]
    case PrepareFailed => rest == []
  }

  lemma CommitIsMade(c: Config, was: seq<Action>, claimed: seq<Action>, trace: seq<Action>, me: nat, chosen: seq<Part>,
                     beats: nat, prepared: Prepared, r: CommitReply, first: seq<Action>, rest: seq<Action>)
    requires Made(c, was, claimed, me, first, false)
    requires Made(c, claimed, trace, me, rest, r.Committed? && r.transitioned)
    requires first == PrepareCalls(c, me, chosen) ||
             (Direct(c) && prepared.PrepareFailed? && first == [Action.ListParts(me, chosen)])
    requires FollowingCalls(rest, me, beats, prepared)
    ensures was <= trace && Made(c, was, trace, me, first + rest, r.Committed? && r.transitioned)
    ensures CommitCalls(c, first + rest, me, chosen, beats)
    ensures Leased(c, trace, |was|, me) ==> Leased(c, trace, |claimed|, me)
  {
    MadeMore(c, was, claimed, trace, me, first, rest, false, r.Committed? && r.transitioned);
    assert first + [] == first;
    if Leased(c, trace, |was|, me) {
      LeasedEarlier(c, trace, |claimed|, |was|, me);
    }
  }

  /** Completes what was prepared, or answers for what was not. */
  method ConcludePrepared(w: World, me: nat, chosen: seq<Part>, beats: nat, prepared: Prepared)
    returns (r: CommitReply, ghost rest: seq<Action>)
    requires w.Valid() && PreparedAs(w.c, me, chosen, prepared, w.trace)
    modifies w
    ensures w.Valid() && FollowingCalls(rest, me, beats, prepared)
    ensures r.Committed? <==> ProcOf(w.s, me).Answered?
    ensures r.Committed? ==> ProcOf(w.s, me) == Answered(r.etag)
    ensures r.Committed? && r.transitioned ==> r.etag == w.c.composite(Tags(chosen))
    ensures r.OwnershipLost? ==> Lost(w.s)
    ensures w.trace != [] && CommitExplained(w.c, me, chosen, r, Previous(w.c, w.trace), w.Last())
    ensures Made(w.c, old(w.trace), w.trace, me, rest, r.Committed? && r.transitioned)
    ensures Conforming(w.c) && Leased(w.c, w.trace, |old(w.trace)|, me) ==> w.suppressed == old(w.suppressed)
  {
    match prepared {
      case Ready =>
        r, rest := CompleteAndFinalize(w, me, beats);
      case TakenOver =>
        ghost var was := w.trace;
        r := ReloadWinner(w, me);
        TookIsMade(w.c, was, w.trace, me, Reload(me));
        rest := [Reload(me)];
      case PrepareFailed =>
        MadeNothing(w.c, w.trace, me);
        r, rest := OperationFailed, [];
    }
  }

  lemma AnswerNamesTheObject(c: Config, s: State, a: nat)
    requires Inv(c, s) && ProcOf(s, a).Answered?
    ensures |s.activations| == 1 && EqIgnoreCase(s.activations[0], ProcOf(s, a).etag)
    ensures s.file == Active ==>
              s.blob.Some? && s.blob.value.size == s.size && EqIgnoreCase(s.blob.value.etag, ProcOf(s, a).etag)
  {
    BystanderInv(c, s, a);
    if s.file == Active {
      EqIgnoreCaseIsEquivalence(s.blob.value.etag, s.etag, ProcOf(s, a).etag);
    }
  }

  /** Renews until the provider answers. */
  method CompleteUnderLease(w: World, me: nat, beats: nat)
    returns (r: CommitReply, etag: Option<string>, ghost calls: seq<Action>)
    requires w.Valid() && ProcOf(w.s, me).InFlight?
    modifies w
    ensures w.Valid() && Made(w.c, old(w.trace), w.trace, me, calls, false)
    ensures r.OperationFailed? || (r.OwnershipLost? && Lost(w.s) && etag == None)
    ensures var x := Action.RenewCompletion(me, Done);
            if r.OwnershipLost? then exists k: nat :: k <= beats && calls == Repeat(x, k)
            else calls == Repeat(x, beats) + [CompleteReturns(me, Done)]
    ensures var s, parts := Previous(w.c, w.trace), old(ProcOf(w.s, me)).parts;
            w.trace != [] &&
            if r.OwnershipLost? then w.Last() == Action.RenewCompletion(me, Done) && Lost(s)
            else w.Last().CompleteReturns? && (etag.Some? <==> Completes(w.c, s, parts, Ending(w.Last())))
    ensures etag.Some? ==> etag.value == w.c.composite(Tags(old(ProcOf(w.s, me).parts)))
    ensures ProcOf(w.s, me) == if etag.Some? then Assembled(etag.value) else Idle
    ensures Conforming(w.c) && Owns(w.c, old(w.s), me, old(ProcOf(w.s, me).parts)) ==>
              Leased(w.c, w.trace, |old(w.trace)|, me) ==> w.suppressed == old(w.suppressed)
  {
    ghost var was, parts, n := w.trace, ProcOf(w.s, me).parts, 0;
    var owned;
    owned, n := RenewWhileCompleting(w, me, beats);
    calls := Repeat(Action.RenewCompletion(me, Done), n);
    if !owned {
      return OwnershipLost, None, calls;
    }
    ghost var renewed := w.trace;
    etag := AwaitComplete(w, me);
    TookIsMade(w.c, renewed, w.trace, me, w.Last());
    MadeMore(w.c, was, renewed, w.trace, me, calls, [CompleteReturns(me, Done)], false, false);
    calls := calls + [CompleteReturns(me, Done)];
    r := OperationFailed;
    if Owns(w.c, old(w.s), me, parts) && Leased(w.c, w.trace, |was|, me) {
      assert w.trace[..|renewed|] == renewed;
      LeasedEarlier(w.c, w.trace, |renewed|, |was|, me);
      StillOwned(w.c, was, renewed, me, parts);
    }
  }

  method CompleteAndFinalize(w: World, me: nat, beats: nat) returns (r: CommitReply, ghost calls: seq<Action>)
    requires w.Valid() && ProcOf(w.s, me).InFlight?
    modifies w
    ensures w.Valid() && (r.OwnershipLost? ==> Lost(w.s))
    ensures r.Committed? <==> ProcOf(w.s, me).Answered?
    ensures r.Committed? ==> ProcOf(w.s, me) == Answered(r.etag)
    ensures r.Committed? && r.transitioned ==> r.etag == w.c.composite(Tags(old(ProcOf(w.s, me).parts)))
    ensures w.trace != [] &&
            CommitExplained(w.c, me, old(ProcOf(w.s, me)).parts, r, Previous(w.c, w.trace), w.Last())
    ensures Made(w.c, old(w.trace), w.trace, me, calls, r.Committed? && r.transitioned)
    ensures ConcludingCalls(calls, me, beats)
    ensures Conforming(w.c) && Owns(w.c, old(w.s), me, old(ProcOf(w.s, me).parts)) ==>
              Leased(w.c, w.trace, |old(w.trace)|, me) ==> w.suppressed == old(w.suppressed)
  {
    ghost var was, parts := w.trace, ProcOf(w.s, me).parts;
    var etag;
    r, etag, calls := CompleteUnderLease(w, me, beats);
    ghost var answered := w.trace;
    if etag.Some? {
      ghost var rest;
      r, rest := ConcludeCommit(w, me, parts);
      MadeMore(w.c, was, answered, w.trace, me, calls, rest, false, r.Committed? && r.transitioned);
      calls := calls + rest;
    }
    if Leased(w.c, w.trace, |was|, me) {
      assert w.trace[..|answered|] == answered;
      LeasedEarlier(w.c, w.trace, |answered|, |was|, me);
    }
  }

  /** Activates the assembled object, or answers with what the winner activated. */
  method ConcludeCommit(w: World, me: nat, ghost chosen: seq<Part>) returns (r: CommitReply, ghost calls: seq<Action>)
    requires w.Valid() && ProcOf(w.s, me).Assembled?
    modifies w
    ensures w.Valid() && w.suppressed == old(w.suppressed) && !r.OwnershipLost?
    ensures r.Committed? <==> ProcOf(w.s, me).Answered?
    ensures r.Committed? ==> ProcOf(w.s, me) == Answered(r.etag)
    ensures r.Committed? && r.transitioned ==> r.etag == old(ProcOf(w.s, me).etag)
    ensures w.trace != [] && CommitExplained(w.c, me, chosen, r, Previous(w.c, w.trace), w.Last())
    ensures Made(w.c, old(w.trace), w.trace, me, calls, r.Committed? && r.transitioned)
    ensures calls == [Action.Finalize(me, Done)] || calls == [Action.Finalize(me, Done), Reload(me)]
  {
    var etag := ProcOf(w.s, me).etag;
    var won := FinalizeCompletion(w, me);
    ghost var finalized := w.trace;
    FinalizeIsMade(w.c, old(w.trace), w.trace, me, won == Some(true));
    calls := [Action.Finalize(me, Done)];
    if won == Some(false) && ProcOf(w.s, me) == Outrun {
      r := ReloadWinner(w, me);
      ReloadIsMade(w.c, old(w.trace), finalized, w.trace, me, calls);
      calls := calls + [Reload(me)];
    } else {
      r := if won == None then OperationFailed
           else if won.value then CommitReply.Committed(etag, true) else NotCommittable;
    }
  }

  lemma FinalizeIsMade(c: Config, was: seq<Action>, trace: seq<Action>, me: nat, won: bool)
    requires trace != [] && Took(was, trace, me, Action.Finalize(me, Ending(trace[|trace| - 1])))
    requires won ==> Ending(trace[|trace| - 1]) == Done
    requires Ending(trace[|trace| - 1]) == Done ==>
               (won <==> |Previous(c, trace).activations| < |Run(c, Begin(c), trace).activations|)
    ensures Made(c, was, trace, me, [Action.Finalize(me, Done)], won)
  {
    TookIsMade(c, was, trace, me, trace[|trace| - 1]);
  }

  lemma ReloadIsMade(c: Config, was: seq<Action>, finalized: seq<Action>, trace: seq<Action>, me: nat, calls: seq<Action>)
    requires Made(c, was, finalized, me, calls, false) && Took(finalized, trace, me, Reload(me))
    ensures Made(c, was, trace, me, calls + [Reload(me)], false)
  {
    TookIsMade(c, finalized, trace, me, Reload(me));
    MadeMore(c, was, finalized, trace, me, calls, [Reload(me)], false, false);
  }

  // ---- recovery and cleanup ----

  datatype Recovery =
    | Skipped | ObservationFailed
    | RecoveredActive | ReopenedRow | GivenToCleanup | NothingDone | DecisionFailed

  predicate OnlyLooks(xs: seq<Action>, me: nat) {
    forall x | x in xs :: Mine(x) == Some(me) ==> x.Scan? || x.ClaimRecovery? || x.Look?
  }

  lemma LookAppended(was: seq<Action>, before: seq<Action>, x: Action, me: nat)
    requires was <= before && OthersOnly(before[|was|..], Some(me)) && OnlyLooks([x], me)
    ensures OnlyLooks((before + [x])[|was|..], me)
  {
    assert x in [x];
    assert (before + [x])[|was|..] == before[|was|..] + [x];
  }

  predicate EndsWithFailedLook(was: seq<Action>, trace: seq<Action>, me: nat) {
    |was| < |trace| && trace[|trace| - 1].Look? && trace[|trace| - 1].a == me && trace[|trace| - 1].fate != Done
  }

  method ScanRow(w: World, me: nat) returns (found: bool)
    requires w.Valid() && ProcOf(w.s, me) == Idle
    modifies w
    ensures w.Valid() && if found then ProcOf(w.s, me).Scanned? else ProcOf(w.s, me) == Idle
    ensures !found ==> !(Abandoned(w.s) && w.s.location)
    ensures old(w.trace) <= w.trace && OnlyLooks(w.trace[|old(w.trace)|..], me)
  {
    w.Yield(Some(me));
    LookAppended(old(w.trace), w.trace, Scan(me), me);
    w.Act(Scan(me));
    found := ProcOf(w.s, me).Scanned?;
  }

  method BeginRecovery(w: World, me: nat) returns (claimed: bool)
    requires w.Valid() && ProcOf(w.s, me).Scanned?
    modifies w
    ensures w.Valid() && if claimed then ProcOf(w.s, me).Inspecting? else ProcOf(w.s, me) == Idle
    ensures !claimed ==> !Abandoned(w.s)
    ensures old(w.trace) <= w.trace && OnlyLooks(w.trace[|old(w.trace)|..], me)
  {
    w.Yield(Some(me));
    LookAppended(old(w.trace), w.trace, ClaimRecovery(me), me);
    w.Act(ClaimRecovery(me));
    claimed := ProcOf(w.s, me).Inspecting?;
  }

  method Inspect(w: World, me: nat) returns (seen: bool)
    requires w.Valid() && ProcOf(w.s, me).Inspecting?
    modifies w
    ensures w.Valid() && if seen then ProcOf(w.s, me).Judging? else ProcOf(w.s, me) == Idle
    ensures !seen ==> EndsWithFailedLook(old(w.trace), w.trace, me)
    ensures old(w.trace) <= w.trace && OnlyLooks(w.trace[|old(w.trace)|..], me)
  {
    w.Yield(Some(me));
    LookAppended(old(w.trace), w.trace, Look(me, w.fates(w.clock)), me);
    w.Act(Look(me, w.fates(w.clock)));
    seen := ProcOf(w.s, me).Judging?;
  }

  lemma OthersLookNowhere(xs: seq<Action>, me: nat)
    requires OthersOnly(xs, Some(me))
    ensures OnlyLooks(xs, me)
  {
  }

  lemma LooksOn(was: seq<Action>, before: seq<Action>, trace: seq<Action>, me: nat)
    requires was <= before <= trace && OnlyLooks(before[|was|..], me) && OnlyLooks(trace[|before|..], me)
    ensures OnlyLooks(trace[|was|..], me)
  {
    assert trace[|was|..] == before[|was|..] + trace[|before|..];
  }

  /** Picks the row up, claims the retry and looks at the provider. */
  method Observe(w: World, me: nat) returns (r: Recovery, seen: bool)
    requires w.Valid() && ProcOf(w.s, me) == Idle
    modifies w
    ensures w.Valid() && (seen ==> ProcOf(w.s, me).Judging?) && (r.Skipped? || r.ObservationFailed?)
    ensures r.Skipped? ==> !seen && !(Abandoned(w.s) && w.s.location)
    ensures r.ObservationFailed? && !seen ==> EndsWithFailedLook(old(w.trace), w.trace, me)
    ensures old(w.trace) <= w.trace && OnlyLooks(w.trace[|old(w.trace)|..], me)
  {
    r, seen := Skipped, false;
    var found := ScanRow(w, me);
    if found {
      ghost var scanned := w.trace;
      var claimed := BeginRecovery(w, me);
      LooksOn(old(w.trace), scanned, w.trace, me);
      if claimed {
        ghost var begun := w.trace;
        seen := Inspect(w, me);
        LooksOn(old(w.trace), begun, w.trace, me);
        r := ObservationFailed;
      }
    }
  }

  /** What the statements of a decision reported about the row. */
  function Reported(s: State, t: State, fate: Fate): Recovery {
    if fate != Done then DecisionFailed
    else if s.file == Pending && t.file == Active then RecoveredActive
    else if s.phase.Completing? && t.phase == Free then ReopenedRow
    else if s.phase.Completing? && t.phase == Cleaning then GivenToCleanup
    else NothingDone
  }

  /** What the reply of a pass says about the row it found and the row it left behind. */
  ghost predicate Tells(r: Recovery, s: State, t: State) {
    match r
    case RecoveredActive =>
      s.file == Pending && t.file == Active && s.phase.Completing? && t.size == s.phase.size &&
      EqIgnoreCase(t.etag, s.phase.etag) && s.blob.Some? && MatchesExpectation(t.size, t.etag, s.blob.value)
    case ReopenedRow =>
      Abandoned(s) && t.file == Pending && t.phase == Free && t.session.Open? && t.blob == None
    case NothingDone => t.file == s.file && t.phase == s.phase && t.lease == s.lease && t.expires == s.expires
    case GivenToCleanup => false
    case _ => true
  }

  lemma RightDecisionTells(c: Config, s: State, t: State, fate: Fate)
    requires RowsInv(c, s) && RowsInv(c, t) && RightlyDecided(s, t)
    ensures Tells(Reported(s, t, fate), s, t)
  {
  }

  /** The pass is on time and its transaction goes through, on a row that is abandoned. */
  predicate GetsThrough(c: Config, s: State, me: nat, fate: Fate) {
    fate == Done && Abandoned(s) && ProcOf(s, me).Judging? && s.now <= ProcOf(s, me).seen.at + c.passTimeout
  }

  lemma DecisionReported(c: Config, s: State, me: nat, fate: Fate)
    requires Inv(c, s)
    ensures var t := Next(c, s, Decide(me, fate));
            RightlyDecided(s, t) && Tells(Reported(s, t, fate), s, t) &&
            (GetsThrough(c, s, me, fate) && c.ttl > 0 ==>
               Reported(s, t, fate) == if s.blob.Some? then RecoveredActive else ReopenedRow)
  {
    var x := Decide(me, fate);
    DecidesRight(c, s, me, fate);
    assert Admissible(c, s, x);
    NextKeepsInv(c, s, x);
    RightDecisionTells(c, s, Next(c, s, x), fate);
    if GetsThrough(c, s, me, fate) && c.ttl > 0 {
      RecoverySettles(c, s, me);
    }
  }

  method DecideNow(w: World, me: nat) returns (r: Recovery)
    requires w.Valid() && ProcOf(w.s, me).Judging?
    modifies w
    ensures w.Valid() && w.s == Next(w.c, old(w.s), Decide(me, w.fates(old(w.clock))))
    ensures r == Reported(old(w.s), w.s, w.fates(old(w.clock)))
    ensures w.trace == old(w.trace) + [Decide(me, w.fates(old(w.clock)))]
  {
    var s, fate := w.s, w.fates(w.clock);
    w.Act(Decide(me, fate));
    r := Reported(s, w.s, fate);
  }

  /** The last step of the trace is a decision of `me`, which has only looked since `was`. */
  predicate EndsWithDecision(was: seq<Action>, trace: seq<Action>, me: nat) {
    |was| < |trace| && was <= trace && trace[|trace| - 1].Decide? && trace[|trace| - 1].a == me &&
    OnlyLooks(trace[|was|..|trace| - 1], me)
  }

  /** One recovery attempt: pick the row up, claim the retry, look at the provider, decide. Without
      a decision the pass has only looked, either because there was nothing to take over or because
      the observation failed. The decision is its last step, right for the row as it
      is at that moment, and the reply tells what became of that row. */
  method Recover(w: World, me: nat) returns (r: Recovery)
    requires w.Valid() && ProcOf(w.s, me) == Idle
    modifies w
    ensures w.Valid() && Safe(w.s) && old(w.trace) <= w.trace
    ensures r.Skipped? || r.ObservationFailed? ==> OnlyLooks(w.trace[|old(w.trace)|..], me)
    ensures r.Skipped? ==> !(Abandoned(w.s) && w.s.location)
    ensures r.ObservationFailed? ==> EndsWithFailedLook(old(w.trace), w.trace, me)
    ensures !r.Skipped? && !r.ObservationFailed? ==>
              EndsWithDecision(old(w.trace), w.trace, me) &&
              var s, x := Run(w.c, Begin(w.c), w.trace[..|w.trace| - 1]), w.trace[|w.trace| - 1];
              w.s == Next(w.c, s, x) && RightlyDecided(s, w.s) && Tells(r, s, w.s) &&
              (GetsThrough(w.c, s, me, x.fate) && w.c.ttl > 0 ==>
                 r == if s.blob.Some? then RecoveredActive else ReopenedRow)
  {
    var seen;
    r, seen := Observe(w, me);
    if seen {
      ghost var looked := w.trace;
      w.Yield(Some(me));
      ghost var before := w.trace;
      OthersLookNowhere(before[|looked|..], me);
      LooksOn(old(w.trace), looked, before, me);
      w.Reached();
      DecisionReported(w.c, w.s, me, w.fates(w.clock));
      r := DecideNow(w, me);
      assert w.trace[..|w.trace| - 1] == before;
      assert w.trace[|old(w.trace)|..|w.trace| - 1] == before[|old(w.trace)|..];
    }
    w.Reached();
    InvIsSafe(w.c, w.s);
  }

  /** Both physical steps are taken, whether or not the first one worked. */
  method SweepProvider(w: World, me: nat) returns (clean: bool, ghost calls: seq<Action>)
    requires w.Valid() && (ProcOf(w.s, me) == Sweeping || ProcOf(w.s, me) == AbortTried(true))
    modifies w
    ensures w.Valid() && ProcOf(w.s, me) == if clean then Swept else Idle
    ensures Made(w.c, old(w.trace), w.trace, me, calls, false)
    ensures calls == (if old(ProcOf(w.s, me)) == Sweeping then [SweepAbort(me, Done)] else []) + [SweepDelete(me, Done)]
    ensures w.trace != [] && w.Last().SweepDelete? && ProcOf(Previous(w.c, w.trace), me).AbortTried? &&
            (clean <==> w.Last().fate == Done && ProcOf(Previous(w.c, w.trace), me).ok)
  {
    ghost var was := w.trace;
    calls := SweepSessions(w, me);
    ghost var aborted := w.trace;
    clean := DeleteObject(w, me);
    DeleteIsMade(w.c, was, aborted, w.trace, me, calls);
    calls := calls + [SweepDelete(me, Done)];
  }

  /** A deleted file has no sessions any more to abort. */
  method SweepSessions(w: World, me: nat) returns (ghost calls: seq<Action>)
    requires w.Valid() && (ProcOf(w.s, me) == Sweeping || ProcOf(w.s, me) == AbortTried(true))
    modifies w
    ensures w.Valid() && ProcOf(w.s, me).AbortTried?
    ensures Made(w.c, old(w.trace), w.trace, me, calls, false)
    ensures calls == if old(ProcOf(w.s, me)) == Sweeping then [SweepAbort(me, Done)] else []
  {
    calls := [];
    if ProcOf(w.s, me) == Sweeping {
      AbortSessions(w, me);
      TookIsMade(w.c, old(w.trace), w.trace, me, w.Last());
      calls := [SweepAbort(me, Done)];
    } else {
      MadeNothing(w.c, w.trace, me);
    }
  }

  lemma DeleteIsMade(c: Config, was: seq<Action>, aborted: seq<Action>, trace: seq<Action>, me: nat, calls: seq<Action>)
    requires Made(c, was, aborted, me, calls, false)
    requires trace != [] && Took(aborted, trace, me, SweepDelete(me, Ending(trace[|trace| - 1])))
    ensures Made(c, was, trace, me, calls + [SweepDelete(me, Done)], false)
  {
    TookIsMade(c, aborted, trace, me, trace[|trace| - 1]);
    MadeMore(c, was, aborted, trace, me, calls, [SweepDelete(me, Done)], false, false);
  }

  method AbortSessions(w: World, me: nat)
    requires w.Valid() && ProcOf(w.s, me) == Sweeping
    modifies w
    ensures w.Valid() && w.trace != [] && Took(old(w.trace), w.trace, me, SweepAbort(me, Ending(w.Last())))
    ensures ProcOf(w.s, me) == AbortTried(Ending(w.Last()) == Done)
  {
    w.Yield(Some(me));
    WaitedAndTook(old(w.trace), w.trace, me, SweepAbort(me, w.fates(w.clock)));
    w.Act(SweepAbort(me, w.fates(w.clock)));
  }

  lemma DeleteEnds(c: Config, s: State, a: nat, fate: Fate)
    requires ProcOf(s, a).AbortTried?
    ensures ProcOf(Next(c, s, SweepDelete(a, fate)), a) == if ProcOf(s, a).ok && fate == Done then Swept else Idle
  {
  }

  method DeleteObject(w: World, me: nat) returns (clean: bool)
    requires w.Valid() && ProcOf(w.s, me).AbortTried?
    modifies w
    ensures w.Valid() && ProcOf(w.s, me) == if clean then Swept else Idle
    ensures w.trace != [] && Took(old(w.trace), w.trace, me, SweepDelete(me, Ending(w.Last())))
    ensures ProcOf(Previous(w.c, w.trace), me) == old(ProcOf(w.s, me))
    ensures clean <==> Ending(w.Last()) == Done && old(ProcOf(w.s, me)).ok
  {
    w.Yield(Some(me));
    DeleteEnds(w.c, w.s, me, w.fates(w.clock));
    WaitedAndTook(old(w.trace), w.trace, me, SweepDelete(me, w.fates(w.clock)));
    w.Act(SweepDelete(me, w.fates(w.clock)));
    clean := ProcOf(w.s, me) == Swept;
  }

  lemma ReleaseLeavesNothing(c: Config, s: State, a: nat)
    requires ProcInv(c, s, a, ProcOf(s, a)) && ProcOf(s, a) == Swept
    ensures var t := Next(c, s, SweepRelease(a, Done)); !t.location && !t.session.Open? && t.blob == None
  {
  }

  method ReleaseMetadata(w: World, me: nat) returns (r: CleanupReply)
    requires w.Valid() && ProcOf(w.s, me) == Swept
    modifies w
    ensures w.Valid() && w.trace != [] && Took(old(w.trace), w.trace, me, SweepRelease(me, Ending(w.Last())))
    ensures r == if Ending(w.Last()) == Done then Released(Previous(w.c, w.trace).location) else MetadataError
    ensures r.Released? ==> !w.s.location && !w.s.session.Open? && w.s.blob == None
  {
    w.Yield(Some(me));
    w.Own(me);
    var had, fate := w.s.location, w.fates(w.clock);
    ReleaseLeavesNothing(w.c, w.s, me);
    WaitedAndTook(old(w.trace), w.trace, me, SweepRelease(me, fate));
    w.Act(SweepRelease(me, fate));
    r := if fate == Done then Released(had) else MetadataError;
  }

  /** Why a cleanup ended so: a physical error is the provider's, in either step; a metadata error is
      the database's; and a release says whether there was a location. */
  ghost predicate CleanupExplained(r: CleanupReply, me: nat, s: State, x: Action) {
    match r
    case PhysicalError => x.SweepDelete? && ProcOf(s, me).AbortTried? && !(x.fate == Done && ProcOf(s, me).ok)
    case MetadataError => x.SweepRelease? && x.fate != Done
    case Released(had) => x.SweepRelease? && x.fate == Done && had == s.location
  }

  /** Physical cleanup, then metadata. When the metadata is released the provider has neither a
      session nor an object of this upload. In a run whose effects are all harmless nothing brings one
      back; a create call that was given up on still could. */
  method CleanupThenFinalize(w: World, me: nat) returns (r: CleanupReply, ghost calls: seq<Action>)
    requires w.Valid() && (ProcOf(w.s, me) == Sweeping || ProcOf(w.s, me) == AbortTried(true))
    modifies w
    ensures w.Valid() && Safe(w.s)
    ensures r.Released? ==> !w.s.location && !w.s.session.Open? && w.s.blob == None
    ensures w.trace != [] && CleanupExplained(r, me, Previous(w.c, w.trace), w.Last())
    ensures Made(w.c, old(w.trace), w.trace, me, calls, false)
    ensures calls == (if old(ProcOf(w.s, me)) == Sweeping then [SweepAbort(me, Done)] else []) + [SweepDelete(me, Done)] +
                     if r.PhysicalError? then [] else [SweepRelease(me, Done)]
  {
    ghost var was := w.trace;
    var clean;
    clean, calls := SweepProvider(w, me);
    r := PhysicalError;
    if clean {
      ghost var swept := w.trace;
      r := ReleaseMetadata(w, me);
      TookIsMade(w.c, swept, w.trace, me, w.Last());
      MadeMore(w.c, was, swept, w.trace, me, calls, [SweepRelease(me, Done)], false, false);
      calls := calls + [SweepRelease(me, Done)];
    }
    w.Reached();
    InvIsSafe(w.c, w.s);
  }
}
