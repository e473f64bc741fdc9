/** The request handlers and reconciler jobs of a single upload, as programs over the shared
    world. Before every call the environment runs an arbitrary batch of other actors' steps,
    and every call may fail with or without its effect. */
module SingleService {
  import opened Wrappers
  import opened Text
  import opened Lifecycle
  import opened SingleUpload

  /** The scheduled steps that can happen while `me` waits: other actors' steps, and late PUTs
      that land harmlessly. */
  function Admitted(c: Config, s: State, me: nat, xs: seq<Action>): seq<Action>
    decreases |xs|
  {
    if xs == [] then []
    else
      var before, x := Admitted(c, s, me, xs[..|xs| - 1]), xs[|xs| - 1];
      var t := Run(c, s, before);
      if Mine(x) != Some(me) && Admissible(c, t, x)
      then before + [x] else before
  }

  lemma {:induction false} AdmittedAreOthersAndPunctual(c: Config, s: State, me: nat, xs: seq<Action>)
    ensures Punctual(c, s, Admitted(c, s, me, xs))
    ensures forall x | x in Admitted(c, s, me, xs) :: Mine(x) != Some(me)
    decreases |xs|
  {
    if xs != [] {
      AdmittedAreOthersAndPunctual(c, s, me, xs[..|xs| - 1]);
      RunExtends(c, s, Admitted(c, s, me, xs[..|xs| - 1]), xs[|xs| - 1]);
    }
  }

  /** The program waits while others act, and then takes step x. */
  predicate Took(was: seq<Action>, trace: seq<Action>, me: nat, x: Action) {
    was <= trace && |was| < |trace| && trace[|trace| - 1] == x && Mine(x) == Some(me) &&
    Silent(trace[|was|..|trace| - 1], me)
  }

  /** The state in which the last step was taken. */
  function Previous(c: Config, trace: seq<Action>): State
    requires trace != []
  {
    Run(c, Start(c), trace[..|trace| - 1])
  }

  lemma WaitedAndTook(was: seq<Action>, waited: seq<Action>, me: nat, x: Action)
    requires was <= waited && Silent(waited[|was|..], me) && Mine(x) == Some(me)
    ensures Took(was, waited + [x], me, x) && (waited + [x])[..|waited + [x]| - 1] == waited
  {
    assert (waited + [x])[|was|..|waited|] == waited[|was|..];
  }

  /** How a call ended. */
  function Ending(x: Action): Fate {
    match x
    case PutReturns(_, fate) => fate
    case RecordReturns(_, fate) => fate
    case Finalize(_, fate) => fate
    case SweepDelete(_, fate) => fate
    case SweepRelease(_, fate) => fate
    case _ => Done
  }

  /** The database and the provider, the schedule of everybody else, and the fate of each call. */
  class World {
    const c: Config
    const others: nat -> seq<Action>
    const fates: nat -> Fate
    var clock: nat
    var s: State
    ghost var trace: seq<Action>

    constructor (c: Config, others: nat -> seq<Action>, fates: nat -> Fate)
      ensures Valid() && this.c == c && s == Start(c)
    {
      this.c, this.others, this.fates := c, others, fates;
      clock, s, trace := 0, Start(c), [];
    }

    ghost predicate Valid()
      reads this
    {
      Punctual(c, Start(c), trace) && s == Run(c, Start(c), trace)
    }

    ghost function Last(): Action
      reads this
      requires trace != []
    {
      trace[|trace| - 1]
    }

    lemma Own(me: nat)
      requires Valid()
      ensures RowsInv(c, s) && ProcInv(c, s, me, ProcOf(s, me))
    {
      Reached();
    }

    lemma Reached()
      requires Valid()
      ensures Inv(c, s)
    {
      StartInv(c);
      RunKeepsInv(c, Start(c), trace);
    }

    method Yield(me: nat)
      requires Valid()
      modifies this
      ensures Valid() && Settled(old(s), s)
      ensures ProcOf(s, me) == old(ProcOf(s, me)) && Guarded(old(s), s, me)
      ensures old(trace) <= trace && Silent(trace[|old(trace)|..], me) && clock == old(clock) + 1
    {
      var batch := Admitted(c, s, me, others(clock));
      clock := clock + 1;
      AdmittedAreOthersAndPunctual(c, s, me, others(old(clock)));
      Reached();
      PunctualSplits(c, Start(c), trace, batch);
      RunSettles(c, s, batch);
      ClaimExcludesOthers(c, s, batch, me);
      s, trace := Run(c, s, batch), trace + batch;
    }

    method Act(x: Action)
      requires Valid() && Mine(x).Some?
      modifies this
      ensures Valid() && s == Next(c, old(s), x) && Settled(old(s), s)
      ensures trace == old(trace) + [x] && clock == old(clock)
    {
      Reached();
      NextSettles(c, s, x);
      RunExtends(c, Start(c), trace, x);
      s, trace := Next(c, s, x), trace + [x];
    }
  }

  datatype PutReply =
    | Accepted(etag: string)
    | Busy | StreamFailed | Incomplete | Md5Mismatch | DifferentContent | StorageError | DatabaseError

  /** The row can be claimed for a relay PUT. */
  predicate Claimable(s: State) {
    s.holder == None && s.file == Pending && s.lease == Issued && s.now < s.expires
  }

  method ClaimRow(w: World, me: nat) returns (claimed: Option<Option<Measure>>)
    requires w.Valid() && w.c.relay && ProcOf(w.s, me) == Idle
    modifies w
    ensures w.Valid() && Settled(old(w.s), w.s)
    ensures claimed.Some? <==> ProcOf(w.s, me) == Claimed
    ensures claimed.Some? ==> claimed.value == w.s.recorded
    ensures claimed.None? ==> ProcOf(w.s, me) == Idle
    ensures Took(old(w.trace), w.trace, me, ClaimRelay(me))
    ensures claimed.Some? <==> Claimable(Previous(w.c, w.trace))
  {
    w.Yield(me);
    WaitedAndTook(old(w.trace), w.trace, me, ClaimRelay(me));
    w.Act(ClaimRelay(me));
    claimed := if ProcOf(w.s, me) == Claimed then Some(w.s.recorded) else None;
  }

  /** The measured body either becomes the upload's candidate or ends the claim. */
  method Judge(w: World, me: nat, m: Measure, recorded: Option<Measure>) returns (r: Option<PutReply>)
    requires w.Valid() && ProcOf(w.s, me) == Claimed && w.s.recorded == recorded
    modifies w
    ensures w.Valid() && Settled(old(w.s), w.s) && w.s.recorded == recorded
    ensures r == if m.size != w.c.declaredSize then Some(Incomplete)
                 else if !Accepts(w.c, m) then Some(Md5Mismatch)
                 else if recorded.Some? && recorded.value != m then Some(DifferentContent)
                 else None
    ensures ProcOf(w.s, me) == if r.Some? then Idle else if recorded.Some? then Recording(m) else Sending(m)
    ensures w.trace == old(w.trace) + [Receive(me, m)]
  {
    w.Act(Receive(me, m));
    if m.size != w.c.declaredSize {
      return Some(Incomplete);
    }
    if w.c.declaredMd5.Some? && !EqIgnoreCase(w.c.declaredMd5.value, m.etag) {
      return Some(Md5Mismatch);
    }
    r := if recorded.Some? && recorded.value != m then Some(DifferentContent) else None;
  }

  method Publish(w: World, me: nat, m: Measure) returns (ok: bool)
    requires w.Valid() && ProcOf(w.s, me) == Sending(m)
    modifies w
    ensures w.Valid() && Settled(old(w.s), w.s)
    ensures ProcOf(w.s, me) == if ok then Recording(m) else Idle
    ensures ok && w.c.relay ==> w.s.blob == Some(m)
    ensures w.trace != [] && Took(old(w.trace), w.trace, me, PutReturns(me, Ending(w.Last())))
    ensures ok <==> Ending(w.Last()) == Done
  {
    w.Yield(me);
    WaitedAndTook(old(w.trace), w.trace, me, PutReturns(me, w.fates(w.clock)));
    w.Act(PutReturns(me, w.fates(w.clock)));
    ok := ProcOf(w.s, me) == Recording(m);
  }

  method Record(w: World, me: nat, m: Measure) returns (ok: bool)
    requires w.Valid() && ProcOf(w.s, me) == Recording(m)
    modifies w
    ensures w.Valid() && Settled(old(w.s), w.s)
    ensures ok ==> w.s.recorded == Some(m)
    ensures ProcOf(w.s, me) == if ok then Stored(m) else Idle
    ensures w.trace != [] && Took(old(w.trace), w.trace, me, RecordReturns(me, Ending(w.Last())))
    ensures ok <==> Ending(w.Last()) == Done
  {
    w.Yield(me);
    WaitedAndTook(old(w.trace), w.trace, me, RecordReturns(me, w.fates(w.clock)));
    w.Act(RecordReturns(me, w.fates(w.clock)));
    ok := ProcOf(w.s, me).Stored?;
  }

  /** Why a relay PUT ended so: what its last step found, and how the provider or the database
      answered it. */
  ghost predicate UploadExplained(c: Config, received: Option<Measure>, r: PutReply, s: State, x: Action) {
    match r
    case Busy => x.ClaimRelay? && !Claimable(s)
    case StreamFailed => x.Crash? && received == None
    case Incomplete => x.Receive? && received.Some? && received.value.size != c.declaredSize
    case Md5Mismatch =>
      x.Receive? && received.Some? && received.value.size == c.declaredSize && c.declaredMd5.Some? &&
      !EqIgnoreCase(c.declaredMd5.value, received.value.etag)
    case DifferentContent =>
      x.Receive? && received.Some? && Accepts(c, received.value) && s.recorded.Some? && s.recorded != received
    case StorageError => x.PutReturns? && x.fate != Done
    case DatabaseError => x.RecordReturns? && x.fate != Done
    case Accepted(etag) => x.RecordReturns? && x.fate == Done && received.Some? && etag == received.value.etag
  }

  /** A relay PUT: claim the file row, measure the body, publish it unless it already is, record
      the measurement and release the claim. Returns `Accepted` only for bytes that are the
      recorded ones, and nothing it does can change an earlier measurement. */
  method Upload(w: World, me: nat, received: Option<Measure>) returns (r: PutReply)
    requires w.Valid() && w.c.relay && ProcOf(w.s, me) == Idle
    modifies w
    ensures w.Valid() && Settled(old(w.s), w.s)
    ensures r.Accepted? ==>
              received.Some? && Accepts(w.c, received.value) && r.etag == received.value.etag &&
              w.s.recorded == received && (Live(w.s) ==> w.s.blob == received)
    ensures r.DifferentContent? ==> received.Some? && w.s.recorded.Some? && w.s.recorded != received
    ensures r.Incomplete? ==> received.Some? && received.value.size != w.c.declaredSize
    ensures r.Md5Mismatch? ==> received.Some? && !Accepts(w.c, received.value)
    ensures w.s.holder != Some(me)
    ensures r.Accepted? <==> ProcOf(w.s, me).Stored?
    ensures old(w.trace) <= w.trace && |old(w.trace)| < |w.trace| && Mine(w.Last()) == Some(me)
    ensures UploadExplained(w.c, received, r, Previous(w.c, w.trace), w.Last())
  {
    var claimed := ClaimRow(w, me);
    w.Own(me);
    if claimed == None {
      return Busy;
    }
    w.Yield(me);
    if received == None {
      w.Act(Crash(me));
      return StreamFailed;
    }
    var m := received.value;
    var verdict := Judge(w, me, m, claimed.value);
    w.Own(me);
    if verdict.Some? {
      return verdict.value;
    }
    if claimed.value == None {
      var published := Publish(w, me, m);
      w.Own(me);
      if !published {
        return StorageError;
      }
    }
    var recorded := Record(w, me, m);
    w.Own(me);
    r := if recorded then Accepted(m.etag) else DatabaseError;
  }

  datatype CommitReply =
    | Committed(etag: string, transitioned: bool)
    | OperationFailed | MissingUpload | SizeMismatch | WrongMd5 | NotCommittable

  /** What a commit reads: the recorded measurement on the relay, otherwise the provider's object. */
  function Seen(c: Config, s: State): Option<Measure> {
    if c.relay then s.recorded else s.blob
  }

  /** Why the gate refuses. */
  function Refusal(c: Config, s: State, fate: Fate): Option<CommitReply> {
    if fate != Done then Some(OperationFailed)
    else if Seen(c, s).None? then Some(MissingUpload)
    else if Seen(c, s).value.size != c.declaredSize then Some(SizeMismatch)
    else if c.declaredMd5.Some? && !EqIgnoreCase(c.declaredMd5.value, Seen(c, s).value.etag) then Some(WrongMd5)
    else None
  }

  /** Reads the recorded measurement (relay) or the provider's metadata (direct) and applies the
      gate to it. */
  method ObserveUpload(w: World, me: nat) returns (r: Option<CommitReply>)
    requires w.Valid() && ProcOf(w.s, me) == Idle
    modifies w
    ensures w.Valid() && Settled(old(w.s), w.s)
    ensures r.None? <==> ProcOf(w.s, me).Observed?
    ensures r.Some? ==> ProcOf(w.s, me) == Idle && !r.value.Committed? && !r.value.NotCommittable?
    ensures w.c.relay && r.Some? ==> r.value.OperationFailed? || r.value.MissingUpload?
    ensures r == Refusal(w.c, w.s, w.fates(w.clock))
    ensures r.None? ==> ProcOf(w.s, me) == Observed(Seen(w.c, w.s).value)
    ensures old(w.trace) <= w.trace && w.clock == old(w.clock) + 1
  {
    w.Yield(me);
    w.Own(me);
    if !w.fates(w.clock).Done? {
      return Some(OperationFailed);
    }
    var seen := if w.c.relay then w.s.recorded else w.s.blob;
    if seen == None {
      return Some(MissingUpload);
    }
    if seen.value.size != w.c.declaredSize {
      return Some(SizeMismatch);
    }
    if w.c.declaredMd5.Some? && !EqIgnoreCase(w.c.declaredMd5.value, seen.value.etag) {
      return Some(WrongMd5);
    }
    w.Act(Observe(me));
    r := None;
  }

  datatype Finalized = Won | Overtaken | Unknown

  /** The transition goes through exactly on a pending file. */
  function FinalizedBy(s: State, fate: Fate): Finalized {
    if fate != Done then Unknown else if s.file == Pending then Won else Overtaken
  }

  lemma SilentLonger(was: seq<Action>, before: seq<Action>, trace: seq<Action>, me: nat)
    requires was <= before <= trace && Silent(before[|was|..], me) && Silent(trace[|before|..], me)
    ensures Silent(trace[|was|..], me)
  {
    assert trace[|was|..] == before[|was|..] + trace[|before|..];
  }

  /** Waits while the row is held; it is still held at the end only after `patience` more turns. */
  method WaitForLock(w: World, me: nat, patience: nat)
    requires w.Valid()
    modifies w
    ensures w.Valid() && Settled(old(w.s), w.s) && ProcOf(w.s, me) == old(ProcOf(w.s, me))
    ensures old(w.trace) <= w.trace && Silent(w.trace[|old(w.trace)|..], me)
    ensures w.s.holder.Some? ==> w.clock == old(w.clock) + 1 + patience
  {
    w.Yield(me);
    var waited := 0;
    while w.s.holder.Some? && waited < patience
      invariant w.Valid() && Settled(old(w.s), w.s) && ProcOf(w.s, me) == old(ProcOf(w.s, me))
      invariant waited <= patience && w.clock == old(w.clock) + 1 + waited
      invariant old(w.trace) <= w.trace && Silent(w.trace[|old(w.trace)|..], me)
    {
      ghost var before := w.trace;
      w.Yield(me);
      SilentLonger(old(w.trace), before, w.trace, me);
      waited := waited + 1;
    }
  }

  /** The conditional transition. It waits while a relay claim holds the row, but gives up after
      `patience` turns of the others. */
  method FinalizeCommit(w: World, me: nat, patience: nat) returns (r: Finalized)
    requires w.Valid() && ProcOf(w.s, me).Observed?
    modifies w
    ensures w.Valid() && Settled(old(w.s), w.s)
    ensures r.Won? ==> ProcOf(w.s, me) == Answered(old(ProcOf(w.s, me).m.etag)) && old(w.s.activations) == []
    ensures r.Overtaken? ==> ProcOf(w.s, me) == Outrun
    ensures r.Unknown? ==> !ProcOf(w.s, me).Answered?
    ensures w.s.holder.Some? ==> r.Unknown?
    ensures old(w.trace) <= w.trace
    ensures if w.s.holder.Some? then w.clock == old(w.clock) + 1 + patience
            else w.trace != [] && Took(old(w.trace), w.trace, me, Finalize(me, Ending(w.Last()))) &&
                 r == FinalizedBy(Previous(w.c, w.trace), Ending(w.Last()))
  {
    WaitForLock(w, me, patience);
    w.Own(me);
    if w.s.holder.Some? {
      return Unknown;
    }
    WaitedAndTook(old(w.trace), w.trace, me, Finalize(me, w.fates(w.clock)));
    w.Act(Finalize(me, w.fates(w.clock)));
    r := if ProcOf(w.s, me).Answered? then Won else if ProcOf(w.s, me).Outrun? then Overtaken else Unknown;
  }

  /** Why a commit ended so. A refusal of the gate is the gate's; after it, a success that
      transitioned is this program's own finalize of a pending file and another one the reload of an
      active file; an operation error is an observation that failed, a lock that was held for as long
      as its caller waits, or a finalize that failed. */
  ghost predicate CommitExplained(c: Config, me: nat, patience: nat, fates: nat -> Fate, began: nat, r: CommitReply,
                                  trace: seq<Action>, s: State, clock: nat)
  {
    match r
    case Committed(etag, transitioned) =>
      trace != [] && var before, x := Previous(c, trace), trace[|trace| - 1];
      if transitioned then x == Finalize(me, Done) && before.file == Pending && ProcOf(before, me).Observed? &&
                           ProcOf(before, me).m.etag == etag
      else x == Reload(me) && before.file == Active && before.etag == etag
    case NotCommittable => trace != [] && trace[|trace| - 1] == Reload(me) && Previous(c, trace).file != Active
    case OperationFailed =>
      (clock == began + 1 && fates(clock) != Done) || (s.holder.Some? && clock == began + 2 + patience) ||
      (trace != [] && trace[|trace| - 1].Finalize? && trace[|trace| - 1].a == me && trace[|trace| - 1].fate != Done)
    case _ => Refusal(c, s, fates(clock)) == Some(r)
  }

  /** An API commit. A success carries the ETag that activated the file, whichever commit that
      was, and the file was activated by an observation that met the declaration. A relay upload
      can fail this gate only by not being there. It answers a success exactly if it has one. */
  method Commit(w: World, me: nat, patience: nat) returns (r: CommitReply)
    requires w.Valid() && ProcOf(w.s, me) == Idle
    modifies w
    ensures w.Valid() && Settled(old(w.s), w.s)
    ensures r.Committed? ==>
              |w.s.activations| == 1 && Accepts(w.c, w.s.activations[0]) &&
              r.etag == w.s.activations[0].etag == w.s.etag
    ensures r.Committed? && r.transitioned ==> old(w.s.activations) == []
    ensures w.c.relay ==> !r.SizeMismatch? && !r.WrongMd5?
    ensures w.c.relay && r.Committed? && Live(w.s) ==> w.s.blob == Some(w.s.activations[0])
    ensures r.Committed? <==> ProcOf(w.s, me).Answered?
    ensures CommitExplained(w.c, me, patience, w.fates, old(w.clock), r, w.trace, w.s, w.clock)
  {
    var refused := ObserveUpload(w, me);
    if refused.Some? {
      return refused.value;
    }
    var etag := ProcOf(w.s, me).m.etag;
    var outcome := FinalizeCommit(w, me, patience);
    w.Own(me);
    if outcome.Unknown? {
      return OperationFailed;
    }
    if outcome.Won? {
      return CommitReply.Committed(etag, true);
    }
    r := ReloadWinner(w, me);
  }

  method ReloadWinner(w: World, me: nat) returns (r: CommitReply)
    requires w.Valid() && ProcOf(w.s, me) == Outrun
    modifies w
    ensures w.Valid() && Settled(old(w.s), w.s) && Took(old(w.trace), w.trace, me, Reload(me))
    ensures var s := Previous(w.c, w.trace);
            r == (if s.file == Active then CommitReply.Committed(s.etag, false) else NotCommittable) &&
            ProcOf(w.s, me) == (if s.file == Active then Answered(s.etag) else Idle)
    ensures RowsInv(w.c, w.s) && ProcInv(w.c, w.s, me, ProcOf(w.s, me))
  {
    w.Yield(me);
    WaitedAndTook(old(w.trace), w.trace, me, Reload(me));
    w.Act(Reload(me));
    w.Own(me);
    r := if ProcOf(w.s, me).Answered? then CommitReply.Committed(ProcOf(w.s, me).etag, false) else NotCommittable;
  }

  /** The reconciler's commit without a request: same gate, no reload. True exactly if it activated
      the file, false if the gate refused or the file was no longer pending. */
  method ObserveCommit(w: World, me: nat, patience: nat) returns (r: Option<bool>)
    requires w.Valid() && ProcOf(w.s, me) == Idle
    modifies w
    ensures w.Valid() && Settled(old(w.s), w.s)
    ensures r == Some(true) ==>
              old(w.s.activations) == [] && |w.s.activations| == 1 && Accepts(w.c, w.s.activations[0])
    ensures r == Some(true) <==> ProcOf(w.s, me).Answered?
    ensures r == Some(false) ==>
              (w.clock == old(w.clock) + 1 && Refusal(w.c, w.s, w.fates(w.clock)).Some? && w.fates(w.clock) == Done) ||
              (w.trace != [] && w.Last() == Finalize(me, Done) && Previous(w.c, w.trace).file != Pending)
    ensures r == None ==> CommitExplained(w.c, me, patience, w.fates, old(w.clock), OperationFailed, w.trace, w.s, w.clock)
  {
    var refused := ObserveUpload(w, me);
    if refused.Some? {
      return if refused.value.OperationFailed? then None else Some(false);
    }
    var outcome := FinalizeCommit(w, me, patience);
    w.Own(me);
    r := match outcome
         case Won => Some(true)
         case Overtaken => Some(false)
         case Unknown => None;
  }

  /** Physical cleanup, then metadata. A release leaves neither object nor location behind, and
      a physical failure never reaches the metadata. Every error is the provider's or the database's. */
  method CleanupThenFinalize(w: World, me: nat) returns (r: CleanupReply)
    requires w.Valid() && ProcOf(w.s, me) == Sweeping
    modifies w
    ensures w.Valid() && Settled(old(w.s), w.s)
    ensures r.Released? ==> !w.s.location && (w.c.relay ==> w.s.blob == None)
    ensures |old(w.trace)| < |w.trace| && Mine(w.Last()) == Some(me)
    ensures var s, x := Previous(w.c, w.trace), w.Last();
            match r
            case PhysicalError => x.SweepDelete? && x.fate != Done
            case MetadataError => x.SweepRelease? && x.fate != Done
            case Released(had) => x == SweepRelease(me, Done) && had == s.location
  {
    w.Yield(me);
    WaitedAndTook(old(w.trace), w.trace, me, SweepDelete(me, w.fates(w.clock)));
    w.Act(SweepDelete(me, w.fates(w.clock)));
    if ProcOf(w.s, me) != Swept {
      return PhysicalError;
    }
    r := ReleaseMetadata(w, me);
  }

  method ReleaseMetadata(w: World, me: nat) returns (r: CleanupReply)
    requires w.Valid() && ProcOf(w.s, me) == Swept
    modifies w
    ensures w.Valid() && Settled(old(w.s), w.s)
    ensures r.Released? ==> !w.s.location && (w.c.relay ==> w.s.blob == None)
    ensures w.trace != [] && Took(old(w.trace), w.trace, me, SweepRelease(me, Ending(w.Last())))
    ensures r == if Ending(w.Last()) == Done then Released(Previous(w.c, w.trace).location) else MetadataError
  {
    w.Yield(me);
    w.Own(me);
    var had, fate := w.s.location, w.fates(w.clock);
    WaitedAndTook(old(w.trace), w.trace, me, SweepRelease(me, fate));
    w.Act(SweepRelease(me, fate));
    w.Own(me);
    r := if fate == Done then Released(had) else MetadataError;
  }
}
