/** One single-PUT file from reservation to release: relay PUTs under a row claim, API commits,
    the reconciler's observed commit, reclaim, delete and physical sweep, in any interleaving.
    Every request is an actor with its own program counter; `Next` is one atomic database
    transaction or provider call, and a disabled action leaves the state as it is. */
module SingleUpload {
  import opened Wrappers
  import opened Text
  import opened Lifecycle

  /** What identifies a body: its length and its hex MD5 (the provider's single-PUT ETag). */
  datatype Measure = Measure(size: nat, etag: string)

  /** The declaration of the upload. `relay` selects server-side bytes over presigned URLs. */
  datatype Config = Config(declaredSize: nat, declaredMd5: Option<string>, relay: bool, ttl: nat)

  datatype Proc =
    | Idle
    | Claimed                 // holds the file row lock, body not measured yet
    | Sending(m: Measure)     // provider PUT in flight under the row lock
    | Recording(m: Measure)   // bytes published, measurement not committed yet
    | Stored(m: Measure)      // PUT answered 200
    | Observed(m: Measure)    // commit passed its gate, finalize not run yet
    | Outrun                  // finalize found the file already decided
    | Answered(etag: string)  // commit answered 200
    | Sweeping
    | Swept                   // object deleted, metadata not released yet

  datatype State = State(
    file: FileState, etag: string, lease: LeaseState, expires: nat,
    recorded: Option<Measure>, location: bool, blob: Option<Measure>, now: nat,
    holder: Option<nat>, procs: map<nat, Proc>, stragglers: multiset<Measure>,
    activations: seq<Measure>)

  datatype Action =
    | ClaimRelay(a: nat)
    | Receive(a: nat, m: Measure)
    | PutReturns(a: nat, fate: Fate)
    | RecordReturns(a: nat, fate: Fate)
    | Crash(a: nat)
    | Observe(a: nat)
    | Finalize(a: nat, fate: Fate)
    | Reload(a: nat)
    | AnswerActive(a: nat)
    | SweepStart(a: nat)
    | SweepDelete(a: nat, fate: Fate)
    | SweepRelease(a: nat, fate: Fate)
    | ClientPut(body: Measure)
    | Reclaim
    | MarkDeleted
    | Tick(d: nat)
    | Land(late: Measure)

  /** The commit gate: size equals the declaration, and the MD5 does when one was declared. */
  predicate Accepts(c: Config, m: Measure) {
    m.size == c.declaredSize &&
    (c.declaredMd5.Some? ==> EqIgnoreCase(c.declaredMd5.value, m.etag))
  }

  function ProcOf(s: State, a: nat): Proc {
    if a in s.procs then s.procs[a] else Idle
  }

  function With(s: State, a: nat, p: Proc): State {
    s.(procs := s.procs[a := p])
  }

  /** Ends the claim transaction: the row lock is gone and the actor goes on as `p`. */
  function Unlock(s: State, a: nat, p: Proc): State {
    With(s.(holder := None), a, p)
  }

  function Start(c: Config): State {
    State(Pending, "", Issued, c.ttl, None, true, None, 0, None, map[], multiset{}, [])
  }

  predicate Live(s: State) {
    s.file == Pending || s.file == Active
  }

  predicate Gone(s: State) {
    s.file == Deleted || s.file == Reclaimed
  }

  predicate Uploading(x: Action) {
    x.ClaimRelay? || x.Receive? || x.PutReturns? || x.RecordReturns? || x.Crash?
  }

  predicate Committing(x: Action) {
    x.Observe? || x.Finalize? || x.Reload? || x.AnswerActive?
  }

  predicate Releasing(x: Action) {
    x.SweepStart? || x.SweepDelete? || x.SweepRelease?
  }

  /** The request that takes the step; None for the outside client, the scans and the clock. */
  function Mine(x: Action): Option<nat> {
    if Uploading(x) || Committing(x) || Releasing(x) then Some(x.a) else None
  }

  function NextUpload(c: Config, s: State, x: Action): State {
    match x
    case ClaimRelay(a) =>
      if c.relay && ProcOf(s, a) == Idle && s.holder == None && s.file == Pending
         && s.lease == Issued && s.expires > s.now
      then With(s.(holder := Some(a)), a, Claimed) else s
    case Receive(a, m) =>
      if ProcOf(s, a) != Claimed then s
      else if !Accepts(c, m) then Unlock(s, a, Idle)
      else if s.recorded == None then With(s, a, Sending(m))
      else if s.recorded.value != m then Unlock(s, a, Idle)
      else With(s, a, Recording(m))
    case PutReturns(a, fate) =>
      (match ProcOf(s, a)
       case Sending(m) =>
         (match fate
          case Done => With(s.(blob := Some(m)), a, Recording(m))
          case AppliedButLost => Unlock(s.(blob := Some(m)), a, Idle)
          case NotApplied => Unlock(s, a, Idle)
          case Straggling => Unlock(s.(stragglers := s.stragglers + multiset{m}), a, Idle))
       case _ => s)
    case RecordReturns(a, fate) =>
      (match ProcOf(s, a)
       case Recording(m) =>
         var t := s.(recorded := Some(m), expires := Max(s.expires, s.now + c.ttl));
         (match fate
          case Done => Unlock(t, a, Stored(m))
          case AppliedButLost => Unlock(t, a, Idle)
          case _ => Unlock(s, a, Idle))
       case _ => s)
    case Crash(a) =>
      if a !in s.procs then s
      else if s.holder == Some(a) then Unlock(s, a, Idle) else With(s, a, Idle)
    case _ => s
  }

  function NextCommit(c: Config, s: State, x: Action): State {
    match x
    case Observe(a) =>
      var seen := if c.relay then s.recorded else s.blob;
      if ProcOf(s, a) == Idle && seen.Some? && Accepts(c, seen.value)
      then With(s, a, Observed(seen.value)) else s
    case Finalize(a, fate) =>
      (match ProcOf(s, a)
       case Observed(m) =>
         if s.holder.Some? then s  // waits for the row lock
         else if fate.NotApplied? || fate.Straggling? then With(s, a, Idle)
         else if s.file != Pending then With(s, a, if fate.Done? then Outrun else Idle)
         else With(s.(file := Active, etag := m.etag, lease := Committed,
                      activations := s.activations + [m]),
                   a, if fate.Done? then Answered(m.etag) else Idle)
       case _ => s)
    case Reload(a) =>
      if ProcOf(s, a) != Outrun then s
      else With(s, a, if s.file == Active then Answered(s.etag) else Idle)
    case AnswerActive(a) =>
      if ProcOf(s, a) == Idle && s.file == Active then With(s, a, Answered(s.etag)) else s
    case _ => s
  }

  function NextRelease(c: Config, s: State, x: Action): State {
    match x
    case SweepStart(a) =>
      if ProcOf(s, a) == Idle && Gone(s) && s.location then With(s, a, Sweeping) else s
    case SweepDelete(a, fate) =>
      if ProcOf(s, a) != Sweeping then s
      else (match fate
            case Done => With(s.(blob := None), a, Swept)
            case AppliedButLost => With(s.(blob := None), a, Idle)
            case _ => With(s, a, Idle))
    case SweepRelease(a, fate) =>
      if ProcOf(s, a) != Swept then s
      else if fate.Done? || fate.AppliedButLost? then With(s.(location := false), a, Idle)
      else With(s, a, Idle)
    case _ => s
  }

  function NextWorld(c: Config, s: State, x: Action): State {
    match x
    case ClientPut(body) => if c.relay then s else s.(blob := Some(body))
    case Reclaim =>
      if s.holder == None && s.file == Pending && s.lease == Issued && s.expires < s.now
      then s.(file := Reclaimed, lease := Expired) else s
    case MarkDeleted => if s.file == Active then s.(file := Deleted) else s
    case Tick(d) => s.(now := s.now + d)
    case Land(late) =>
      if late in s.stragglers
      then s.(blob := Some(late), stragglers := s.stragglers - multiset{late}) else s
    case _ => s
  }

  function Next(c: Config, s: State, x: Action): State {
    if Uploading(x) then NextUpload(c, s, x)
    else if Committing(x) then NextCommit(c, s, x)
    else if Releasing(x) then NextRelease(c, s, x)
    else NextWorld(c, s, x)
  }

  function Run(c: Config, s: State, xs: seq<Action>): State
    decreases |xs|
  {
    if xs == [] then s else Next(c, Run(c, s, xs[..|xs| - 1]), xs[|xs| - 1])
  }

  /** When a late PUT may still arrive without harm: the location row is there, no different
      measurement is recorded or about to be, and no sweep has already deleted the object. */
  predicate Harmless(c: Config, s: State, m: Measure) {
    s.location &&
    (Live(s) && s.recorded.Some? ==> s.recorded.value == m) &&
    (forall a | a in s.procs :: s.procs[a] != Swept) &&
    (forall a | a in s.procs :: s.procs[a].Recording? ==> s.procs[a].m == m)
  }

  predicate Admissible(c: Config, s: State, x: Action) {
    x.Land? && x.late in s.stragglers ==> Harmless(c, s, x.late)
  }

  /** The runs in which every PUT that outlives its claim lands harmlessly. A provider whose
      calls are over by the time their claim is released produces only such runs. */
  ghost predicate Punctual(c: Config, s: State, xs: seq<Action>)
    decreases |xs|
  {
    xs != [] ==>
      var before := xs[..|xs| - 1];
      Punctual(c, s, before) && Admissible(c, Run(c, s, before), xs[|xs| - 1])
  }

  // ---- what every run keeps ----

  ghost predicate ProcInv(c: Config, s: State, a: nat, p: Proc) {
    (s.holder == Some(a) <==> p.Claimed? || p.Sending? || p.Recording?) &&
    match p
    case Sending(m) => s.recorded == None && Accepts(c, m)
    case Recording(m) =>
      (c.relay ==> s.blob == Some(m)) && Accepts(c, m) && (s.recorded.Some? ==> s.recorded.value == m)
    case Stored(m) => s.recorded == Some(m)
    case Observed(m) => Accepts(c, m) && (c.relay ==> s.recorded == Some(m))
    case Outrun => s.file != Pending
    case Answered(etag) => |s.activations| == 1 && s.activations[0].etag == etag
    case Sweeping => Gone(s)
    case Swept => Gone(s) && (c.relay ==> s.blob == None)
    case _ => true
  }

  ghost predicate RowsInv(c: Config, s: State) {
    (s.holder.Some? ==> c.relay && s.holder.value in s.procs && s.file == Pending) &&
    (s.file == Pending ==> s.lease == Issued) &&
    (s.recorded.Some? ==> Accepts(c, s.recorded.value)) &&
    (c.relay && Live(s) && s.recorded.Some? ==> s.blob == s.recorded) &&
    (s.file == Active || s.file == Deleted <==> |s.activations| == 1) && |s.activations| <= 1 &&
    (|s.activations| == 1 ==>
       s.etag == s.activations[0].etag && Accepts(c, s.activations[0]) &&
       (c.relay ==> s.recorded == Some(s.activations[0]))) &&
    (c.relay && s.blob.Some? ==> s.location && Accepts(c, s.blob.value)) &&
    (!s.location ==> Gone(s)) &&
    (!c.relay ==> s.stragglers == multiset{} && s.recorded == None)
  }

  ghost predicate Inv(c: Config, s: State) {
    RowsInv(c, s) && LateInv(c, s) && forall a | a in s.procs :: ProcInv(c, s, a, s.procs[a])
  }

  ghost predicate LateInv(c: Config, s: State) {
    forall m | m in s.stragglers :: Accepts(c, m)
  }

  lemma StepKeepsLate(c: Config, s: State, x: Action)
    requires LateInv(c, s) && Mine(x).Some? && ProcInv(c, s, x.a, ProcOf(s, x.a))
    ensures LateInv(c, Next(c, s, x))
  {
  }

  lemma UploadKeepsOwn(c: Config, s: State, x: Action)
    requires Uploading(x) && RowsInv(c, s) && ProcInv(c, s, x.a, ProcOf(s, x.a))
    ensures RowsInv(c, Next(c, s, x)) && ProcInv(c, Next(c, s, x), x.a, ProcOf(Next(c, s, x), x.a))
  {
  }

  lemma UploadKeepsOther(c: Config, s: State, x: Action, b: nat)
    requires Uploading(x) && RowsInv(c, s) && ProcInv(c, s, x.a, ProcOf(s, x.a))
    requires b != x.a && ProcInv(c, s, b, ProcOf(s, b))
    ensures ProcInv(c, Next(c, s, x), b, ProcOf(Next(c, s, x), b))
  {
  }

  lemma CommitKeepsOwn(c: Config, s: State, x: Action)
    requires Committing(x) && RowsInv(c, s) && ProcInv(c, s, x.a, ProcOf(s, x.a))
    ensures RowsInv(c, Next(c, s, x)) && ProcInv(c, Next(c, s, x), x.a, ProcOf(Next(c, s, x), x.a))
  {
  }

  lemma CommitKeepsOther(c: Config, s: State, x: Action, b: nat)
    requires Committing(x) && RowsInv(c, s) && ProcInv(c, s, x.a, ProcOf(s, x.a))
    requires b != x.a && ProcInv(c, s, b, ProcOf(s, b))
    ensures ProcInv(c, Next(c, s, x), b, ProcOf(Next(c, s, x), b))
  {
  }

  lemma ReleaseKeepsOwn(c: Config, s: State, x: Action)
    requires Releasing(x) && RowsInv(c, s) && ProcInv(c, s, x.a, ProcOf(s, x.a))
    ensures RowsInv(c, Next(c, s, x)) && ProcInv(c, Next(c, s, x), x.a, ProcOf(Next(c, s, x), x.a))
  {
  }

  lemma ReleaseKeepsOther(c: Config, s: State, x: Action, b: nat)
    requires Releasing(x) && RowsInv(c, s) && ProcInv(c, s, x.a, ProcOf(s, x.a))
    requires b != x.a && ProcInv(c, s, b, ProcOf(s, b))
    ensures ProcInv(c, Next(c, s, x), b, ProcOf(Next(c, s, x), b))
  {
  }

  lemma WorldKeepsInv(c: Config, s: State, x: Action)
    requires Inv(c, s)
    requires Admissible(c, s, x)
    ensures Inv(c, NextWorld(c, s, x))
  {
  }

  lemma NextKeepsInv(c: Config, s: State, x: Action)
    requires Inv(c, s)
    requires Admissible(c, s, x)
    ensures Inv(c, Next(c, s, x))
  {
    if Uploading(x) || Committing(x) || Releasing(x) {
      var t := Next(c, s, x);
      StepKeepsLate(c, s, x);
      if Uploading(x) { UploadKeepsOwn(c, s, x); }
      else if Committing(x) { CommitKeepsOwn(c, s, x); }
      else { ReleaseKeepsOwn(c, s, x); }
      forall b | b in t.procs ensures ProcInv(c, t, b, t.procs[b]) {
        if b == x.a {
        } else if Uploading(x) { UploadKeepsOther(c, s, x, b); }
        else if Committing(x) { CommitKeepsOther(c, s, x, b); }
        else { ReleaseKeepsOther(c, s, x, b); }
      }
    } else {
      WorldKeepsInv(c, s, x);
    }
  }

  lemma {:induction false} RunKeepsInv(c: Config, s: State, xs: seq<Action>)
    requires Inv(c, s) && Punctual(c, s, xs)
    ensures Inv(c, Run(c, s, xs))
    decreases |xs|
  {
    if xs != [] {
      var before := xs[..|xs| - 1];
      RunKeepsInv(c, s, before);
      NextKeepsInv(c, Run(c, s, before), xs[|xs| - 1]);
    }
  }

  lemma {:induction false} RunAppends(c: Config, s: State, xs: seq<Action>, ys: seq<Action>)
    ensures Run(c, s, xs + ys) == Run(c, Run(c, s, xs), ys)
    decreases |ys|
  {
    if ys == [] {
      assert xs + ys == xs;
    } else {
      assert (xs + ys)[..|xs + ys| - 1] == xs + ys[..|ys| - 1];
      RunAppends(c, s, xs, ys[..|ys| - 1]);
    }
  }

  lemma {:induction false} PunctualAppends(c: Config, s: State, xs: seq<Action>, ys: seq<Action>)
    ensures Punctual(c, s, xs + ys) <==> Punctual(c, s, xs) && Punctual(c, Run(c, s, xs), ys)
    decreases |ys|
  {
    if ys == [] {
      assert xs + ys == xs;
    } else {
      var most, y, t := ys[..|ys| - 1], ys[|ys| - 1], Run(c, s, xs);
      PunctualAppends(c, s, xs, most);
      RunAppends(c, s, xs, most);
      var zs := xs + ys;
      assert zs[..|zs| - 1] == xs + most && zs[|zs| - 1] == y;
      assert Punctual(c, s, zs) <==> Punctual(c, s, xs + most) && Admissible(c, Run(c, s, xs + most), y);
      assert Punctual(c, t, ys) <==> Punctual(c, t, most) && Admissible(c, Run(c, t, most), y);
    }
  }

  lemma PunctualSplits(c: Config, s: State, xs: seq<Action>, ys: seq<Action>)
    ensures Run(c, s, xs + ys) == Run(c, Run(c, s, xs), ys)
    ensures Punctual(c, s, xs + ys) <==> Punctual(c, s, xs) && Punctual(c, Run(c, s, xs), ys)
  {
    RunAppends(c, s, xs, ys);
    PunctualAppends(c, s, xs, ys);
  }

  lemma RunExtends(c: Config, s: State, xs: seq<Action>, x: Action)
    ensures Run(c, s, xs + [x]) == Next(c, Run(c, s, xs), x)
    ensures Punctual(c, s, xs + [x]) <==> Punctual(c, s, xs) && Admissible(c, Run(c, s, xs), x)
  {
    assert (xs + [x])[..|xs|] == xs;
  }

  /** What a reachable state can never take back, whoever moves next. */
  ghost predicate Settled(s: State, t: State) {
    (s.recorded.Some? ==> t.recorded == s.recorded) &&
    s.activations <= t.activations && (Gone(s) ==> t.file == s.file)
  }

  lemma StepSettles(c: Config, s: State, x: Action)
    requires RowsInv(c, s) && Mine(x).Some? && ProcInv(c, s, x.a, ProcOf(s, x.a))
    ensures Settled(s, Next(c, s, x))
  {
  }

  lemma StepLeavesOthers(c: Config, s: State, x: Action, b: nat)
    requires Mine(x) != Some(b)
    ensures ProcOf(Next(c, s, x), b) == ProcOf(s, b)
  {
  }

  lemma NextSettles(c: Config, s: State, x: Action)
    requires Inv(c, s)
    ensures Settled(s, Next(c, s, x))
    ensures forall b: nat | Mine(x) != Some(b) :: ProcOf(Next(c, s, x), b) == ProcOf(s, b)
  {
    if Mine(x).Some? {
      StepSettles(c, s, x);
    }
    forall b: nat | Mine(x) != Some(b) ensures ProcOf(Next(c, s, x), b) == ProcOf(s, b) {
      StepLeavesOthers(c, s, x, b);
    }
  }

  predicate Silent(xs: seq<Action>, a: nat) {
    forall x | x in xs :: Mine(x) != Some(a)
  }

  lemma SilentBefore(xs: seq<Action>, a: nat)
    requires xs != [] && Silent(xs, a)
    ensures Silent(xs[..|xs| - 1], a) && Mine(xs[|xs| - 1]) != Some(a)
  {
    assert xs[|xs| - 1] in xs;
  }

  /** Along every punctual run, measurements and activations are never revised, and an actor
      that takes no step keeps its place. */
  lemma {:induction false} RunSettles(c: Config, s: State, xs: seq<Action>)
    requires Inv(c, s) && Punctual(c, s, xs)
    ensures Settled(s, Run(c, s, xs))
    ensures forall b: nat | Silent(xs, b) :: ProcOf(Run(c, s, xs), b) == ProcOf(s, b)
    decreases |xs|
  {
    if xs != [] {
      var before := xs[..|xs| - 1];
      RunSettles(c, s, before);
      RunKeepsInv(c, s, before);
      NextSettles(c, Run(c, s, before), xs[|xs| - 1]);
      forall b: nat | Silent(xs, b) ensures ProcOf(Run(c, s, xs), b) == ProcOf(s, b) {
        SilentBefore(xs, b);
      }
    }
  }

  lemma StartInv(c: Config)
    ensures Inv(c, Start(c))
  {
  }

  /** While an actor holds the row claim, nobody else can take it, finalize or reclaim the file,
      record a measurement or delete the object. */
  ghost predicate Guarded(s: State, t: State, me: nat) {
    s.holder == Some(me) ==>
      t.holder == Some(me) && t.recorded == s.recorded && t.file == s.file && ProcOf(t, me) == ProcOf(s, me)
  }

  lemma StepIsGuarded(c: Config, s: State, x: Action, me: nat)
    requires RowsInv(c, s) && Mine(x).Some? && x.a != me && ProcInv(c, s, x.a, ProcOf(s, x.a))
    ensures Guarded(s, Next(c, s, x), me)
  {
  }

  lemma {:induction false} ClaimExcludesOthers(c: Config, s: State, xs: seq<Action>, me: nat)
    requires Inv(c, s) && Punctual(c, s, xs) && Silent(xs, me)
    ensures Guarded(s, Run(c, s, xs), me)
    decreases |xs|
  {
    if xs != [] {
      var before, x := xs[..|xs| - 1], xs[|xs| - 1];
      ClaimExcludesOthers(c, s, before, me);
      RunKeepsInv(c, s, before);
      if Mine(x).Some? {
        StepIsGuarded(c, Run(c, s, before), x, me);
      }
    }
  }

  // ---- main results ----

  lemma StepAddsNoStragglers(c: Config, s: State, x: Action)
    requires s.stragglers == multiset{} && !(x.PutReturns? && x.fate == Straggling)
    ensures Next(c, s, x).stragglers == multiset{}
  {
  }

  /** If every provider call is over when its caller is - nothing is left straggling - every run is
      punctual, and the results below hold without further condition. */
  lemma {:induction false} SettledCallsArePunctual(c: Config, s: State, xs: seq<Action>)
    requires s.stragglers == multiset{} && LeavesNoneStraggling(xs)
    ensures Punctual(c, s, xs) && Run(c, s, xs).stragglers == multiset{}
    decreases |xs|
  {
    if xs != [] {
      var before := xs[..|xs| - 1];
      SettledCallsArePunctual(c, s, before);
      StepAddsNoStragglers(c, Run(c, s, before), xs[|xs| - 1]);
    }
  }

  /** Once a relay measurement is recorded, the provider object has exactly that size and MD5
      while the file is pending or active; an active file's object matches the stored ETag and
      the declaration; and no object exists without its location row. */
  lemma RelayPublishIsSafe(c: Config, xs: seq<Action>)
    requires c.relay && Punctual(c, Start(c), xs)
    ensures var s := Run(c, Start(c), xs);
            (Live(s) && s.recorded.Some? ==> s.blob == s.recorded) &&
            (s.file == Active ==> s.blob.Some? && Accepts(c, s.blob.value) && s.blob.value.etag == s.etag) &&
            (s.blob.Some? ==> s.location && Accepts(c, s.blob.value))
  {
    StartInv(c);
    RunKeepsInv(c, Start(c), xs);
  }

  /** A commit that has passed its gate can be overtaken by anything except a change of bytes:
      however long it waits, finalizing still activates what it saw, and the provider has it. */
  lemma ObservationNeverGoesStale(c: Config, xs: seq<Action>, ys: seq<Action>, a: nat, m: Measure)
    requires c.relay && Punctual(c, Start(c), xs + ys)
    requires ProcOf(Run(c, Start(c), xs), a) == Observed(m)
    requires Silent(ys, a)
    ensures var t := Run(c, Start(c), xs + ys);
            ProcOf(t, a) == Observed(m) && t.recorded == Some(m) &&
            (Live(t) ==> t.blob == Some(m) && t.holder == None ==>
               var u := Next(c, t, Finalize(a, Done));
               t.file == Pending ==> u.file == Active && u.etag == m.etag && u.blob == Some(m))
  {
    StartInv(c);
    PunctualSplits(c, Start(c), xs, ys);
    RunKeepsInv(c, Start(c), xs);
    RunSettles(c, Run(c, Start(c), xs), ys);
    RunKeepsInv(c, Start(c), xs + ys);
  }

  /** In any interleaving of commits, observed commits, reclaim and delete, the file becomes
      active at most once, whatever it was activated with passed the gate, and two successful
      answers - at any two moments of the run - carry that same ETag. */
  lemma RacingCommitsAgree(c: Config, xs: seq<Action>, ys: seq<Action>, a: nat, b: nat)
    requires Punctual(c, Start(c), xs + ys)
    ensures var s, t := Run(c, Start(c), xs), Run(c, Start(c), xs + ys);
            AtMostOnce(c, t) && s.activations <= t.activations &&
            (ProcOf(s, a).Answered? ==> ProcOf(s, a).etag == t.etag) &&
            (ProcOf(t, b).Answered? ==> ProcOf(t, b).etag == t.etag)
  {
    StartInv(c);
    PunctualSplits(c, Start(c), xs, ys);
    RunKeepsInv(c, Start(c), xs);
    var s := Run(c, Start(c), xs);
    RunSettles(c, s, ys);
    RunKeepsInv(c, s, ys);
    AnswersCarryTheStoredEtag(c, s, a);
    AnswersCarryTheStoredEtag(c, Run(c, s, ys), b);
  }

  /** Activated exactly when active or deleted, never twice, only by measurements that passed. */
  ghost predicate AtMostOnce(c: Config, s: State) {
    |s.activations| <= 1 &&
    (s.file == Active || s.file == Deleted <==> |s.activations| == 1) &&
    forall m | m in s.activations :: Accepts(c, m) && m.etag == s.etag
  }

  lemma AnswersCarryTheStoredEtag(c: Config, s: State, a: nat)
    requires Inv(c, s)
    ensures AtMostOnce(c, s)
    ensures ProcOf(s, a).Answered? ==> |s.activations| == 1 && ProcOf(s, a).etag == s.etag
  {
  }

  /** Safety of one state: recorded bytes are the provider's bytes, and no object is unowned. */
  ghost predicate Safe(s: State) {
    (Live(s) && s.recorded.Some? ==> s.blob == s.recorded) && (s.blob.Some? ==> s.location)
  }

  /** Every punctual continuation is safe. */
  ghost predicate SafeFrom(c: Config, t: State) {
    forall xs | Punctual(c, t, xs) :: Safe(Run(c, t, xs))
  }

  lemma InvIsSafeFromHere(c: Config, t: State)
    requires c.relay && Inv(c, t)
    ensures SafeFrom(c, t)
  {
    forall xs | Punctual(c, t, xs) ensures Safe(Run(c, t, xs)) {
      RunKeepsInv(c, t, xs);
    }
  }

  lemma UnsafeAfter(c: Config, t: State, x: Action)
    requires !x.Land? && !Safe(Next(c, t, x))
    ensures !SafeFrom(c, t)
  {
    RunOne(c, t, x);
    assert Punctual(c, t, [x]);
  }

  lemma HarmfulLandingIsUnsafe(c: Config, s: State, late: Measure)
    requires c.relay && Inv(c, s) && late in s.stragglers && !Harmless(c, s, late)
    ensures !SafeFrom(c, Next(c, s, Land(late)))
  {
    var t := Next(c, s, Land(late));
    if s.location && !(Live(s) && s.recorded.Some? && s.recorded.value != late) {
      var a :| a in s.procs && (s.procs[a] == Swept || (s.procs[a].Recording? && s.procs[a].m != late));
      assert ProcInv(c, s, a, s.procs[a]);
      UnsafeAfter(c, t, if s.procs[a] == Swept then SweepRelease(a, Done) else RecordReturns(a, Done));
    } else {
      assert Punctual(c, t, []) && !Safe(Run(c, t, []));
    }
  }

  /** Exactly when a PUT that outlived its claim may land: a harmless landing leaves every
      continuation safe, and any other makes some continuation unsafe. */
  lemma LandingIsSafeExactlyWhenHarmless(c: Config, s: State, late: Measure)
    requires c.relay && Inv(c, s) && late in s.stragglers
    ensures Harmless(c, s, late) <==> SafeFrom(c, Next(c, s, Land(late)))
  {
    if Harmless(c, s, late) {
      NextKeepsInv(c, s, Land(late));
      InvIsSafeFromHere(c, Next(c, s, Land(late)));
    } else {
      HarmfulLandingIsUnsafe(c, s, late);
    }
  }

  // ---- lost replies ----

  /** The same rows and the same object, whatever the callers know. */
  predicate SameRows(s: State, t: State) {
    t.(procs := s.procs) == s
  }

  /** A call takes effect whether or not its caller hears of it, and one without effect changes no
      row and no object; at most it gives a claim back. Here for a relay PUT. */
  lemma LostUploadRepliesTakeEffect(c: Config, s: State, a: nat)
    ensures SameRows(Next(c, s, PutReturns(a, Done)).(holder := s.holder),
                     Next(c, s, PutReturns(a, AppliedButLost)).(holder := s.holder))
    ensures SameRows(Next(c, s, RecordReturns(a, Done)), Next(c, s, RecordReturns(a, AppliedButLost)))
    ensures SameRows(s, Next(c, s, PutReturns(a, NotApplied)).(holder := s.holder))
    ensures SameRows(s, Next(c, s, RecordReturns(a, NotApplied)).(holder := s.holder))
  {
  }

  /** The same for commits and cleanup. */
  lemma LostCommitRepliesTakeEffect(c: Config, s: State, a: nat)
    ensures SameRows(Next(c, s, Finalize(a, Done)), Next(c, s, Finalize(a, AppliedButLost)))
    ensures SameRows(s, Next(c, s, Finalize(a, NotApplied)))
  {
  }

  lemma LostDeletesTakeEffect(c: Config, s: State, a: nat)
    ensures SameRows(Next(c, s, SweepDelete(a, Done)), Next(c, s, SweepDelete(a, AppliedButLost)))
    ensures SameRows(s, Next(c, s, SweepDelete(a, NotApplied)))
  {
  }

  lemma LostReleasesTakeEffect(c: Config, s: State, a: nat)
    ensures SameRows(Next(c, s, SweepRelease(a, Done)), Next(c, s, SweepRelease(a, AppliedButLost)))
    ensures SameRows(s, Next(c, s, SweepRelease(a, NotApplied)))
  {
  }

  /** A recorded measurement fills the lease and gives the claim back, and touches nothing else. */
  lemma RecordingFillsTheLease(c: Config, s: State, a: nat, m: Measure)
    requires ProcOf(s, a) == Recording(m)
    ensures Next(c, s, RecordReturns(a, Done)) ==
            s.(recorded := Some(m), expires := Max(s.expires, s.now + c.ttl), holder := None,
               procs := s.procs[a := Stored(m)])
  {
  }

  /** An activation writes the file, its lease and the caller's answer, and touches nothing else. */
  lemma ActivationTouchesOnlyTheFile(c: Config, s: State, a: nat, m: Measure)
    requires ProcOf(s, a) == Observed(m) && s.holder == None && s.file == Pending
    ensures Next(c, s, Finalize(a, Done)) ==
            s.(file := Active, etag := m.etag, lease := Committed, activations := s.activations + [m],
               procs := s.procs[a := Answered(m.etag)])
  {
  }

  /** A direct upload is committed from what its client put: bytes that meet the declaration become the
      active file. */
  lemma DirectUploadActivates(c: Config, s: State, a: nat, body: Measure)
    requires !c.relay && s.holder == None && s.file == Pending && ProcOf(s, a) == Idle && Accepts(c, body)
    ensures var t := Run(c, s, [ClientPut(body), Observe(a), Finalize(a, Done)]);
            t.file == Active && t.etag == body.etag && t.blob == Some(body) && ProcOf(t, a) == Answered(body.etag)
  {
    RunThree(c, s, ClientPut(body), Observe(a), Finalize(a, Done));
    var s1 := s.(blob := Some(body));
    assert Next(c, s, ClientPut(body)) == s1;
    var s2 := Next(c, s1, Observe(a));
    assert ProcOf(s2, a) == Observed(body) && s2.holder == None && s2.file == Pending;
    ActivationTouchesOnlyTheFile(c, s2, a, body);
  }

  // ---- what a PUT left straggling costs ----

  predicate LeavesNoneStraggling(xs: seq<Action>) {
    forall x | x in xs :: !(x.PutReturns? && x.fate == Straggling)
  }

  /** Whatever happens next, as long as no further call is left straggling, is safe. */
  ghost predicate SafeFromNowOn(c: Config, s: State) {
    forall xs | LeavesNoneStraggling(xs) :: Safe(Run(c, s, xs))
  }

  /** The holder stops, the lease runs out, and the file is reclaimed or deleted. */
  function GiveUpSteps(s: State): seq<Action> {
    [Crash(if s.holder.Some? then s.holder.value else 0), Tick(s.expires + 1), Reclaim, MarkDeleted]
  }

  function SweepSteps(a: nat): seq<Action> {
    [SweepStart(a), SweepDelete(a, Done), SweepRelease(a, Done)]
  }

  /** The same row, location and late PUTs, and actor `a` still idle. */
  predicate SameRow(s: State, t: State, a: nat) {
    t.file == s.file && t.lease == s.lease && t.location == s.location && t.stragglers == s.stragglers &&
    ProcOf(t, a) == ProcOf(s, a)
  }

  lemma HolderStops(c: Config, s: State, a: nat)
    requires RowsInv(c, s) && a !in s.procs
    ensures var h := if s.holder.Some? then s.holder.value else 0;
            var t := Run(c, s, [Crash(h), Tick(s.expires + 1)]);
            t.holder == None && t.expires < t.now && SameRow(s, t, a)
  {
    RunTwo(c, s, Crash(if s.holder.Some? then s.holder.value else 0), Tick(s.expires + 1));
  }

  lemma RowGoes(c: Config, s: State, a: nat)
    requires s.file == Pending ==> s.lease == Issued && s.holder == None && s.expires < s.now
    ensures var t := Run(c, s, [Reclaim, MarkDeleted]);
            Gone(t) && ProcOf(t, a) == ProcOf(s, a) && t.location == s.location && t.stragglers == s.stragglers
  {
    RunTwo(c, s, Reclaim, MarkDeleted);
  }

  lemma GivenUp(c: Config, s: State, a: nat)
    requires Inv(c, s) && a !in s.procs
    ensures var t := Run(c, s, GiveUpSteps(s));
            Gone(t) && ProcOf(t, a) == Idle && t.location == s.location && t.stragglers == s.stragglers
  {
    var h := if s.holder.Some? then s.holder.value else 0;
    HolderStops(c, s, a);
    RowGoes(c, Run(c, s, [Crash(h), Tick(s.expires + 1)]), a);
    RunAppends(c, s, [Crash(h), Tick(s.expires + 1)], [Reclaim, MarkDeleted]);
    assert GiveUpSteps(s) == [Crash(h), Tick(s.expires + 1)] + [Reclaim, MarkDeleted];
  }

  lemma SweptAway(c: Config, s: State, a: nat)
    requires Gone(s) && ProcOf(s, a) == Idle
    ensures var t := Run(c, s, SweepSteps(a)); !t.location && t.stragglers == s.stragglers
  {
    RunThree(c, s, SweepStart(a), SweepDelete(a, Done), SweepRelease(a, Done));
  }

  lemma StragglerSurvivesItsRow(c: Config, s: State, late: Measure, a: nat)
    requires Inv(c, s) && late in s.stragglers && a !in s.procs
    ensures !Safe(Run(c, s, GiveUpSteps(s) + SweepSteps(a) + [Land(late)]))
  {
    GivenUp(c, s, a);
    SweptAway(c, Run(c, s, GiveUpSteps(s)), a);
    RunAppends(c, s, GiveUpSteps(s), SweepSteps(a));
    RunAppends(c, s, GiveUpSteps(s) + SweepSteps(a), [Land(late)]);
    RunOne(c, Run(c, s, GiveUpSteps(s) + SweepSteps(a)), Land(late));
  }

  /** The condition a caller can check: from a reachable state everything that can happen next is
      safe exactly when no PUT has been left straggling. A straggling one can always outlive the
      cleanup of its file and leave an object that nothing knows of. */
  lemma SafeFromNowOnExactlyWhenNoneStraggles(c: Config, s: State)
    requires c.relay && Inv(c, s)
    ensures SafeFromNowOn(c, s) <==> s.stragglers == multiset{}
  {
    if s.stragglers == multiset{} {
      forall xs | LeavesNoneStraggling(xs) ensures Safe(Run(c, s, xs)) {
        SettledCallsArePunctual(c, s, xs);
        RunKeepsInv(c, s, xs);
      }
    } else {
      var late :| late in s.stragglers;
      var a := FreshActor(s.procs);
      StragglerSurvivesItsRow(c, s, late, a);
      assert LeavesNoneStraggling(GiveUpSteps(s) + SweepSteps(a) + [Land(late)]);
    }
  }

  lemma RunOne(c: Config, s: State, x: Action)
    ensures Run(c, s, [x]) == Next(c, s, x)
  {
    assert [x][..0] == [];
  }

  lemma RunTwo(c: Config, s: State, x: Action, y: Action)
    ensures Run(c, s, [x, y]) == Next(c, Next(c, s, x), y)
  {
    RunOne(c, s, x);
    RunOne(c, Next(c, s, x), y);
    RunAppends(c, s, [x], [y]);
    assert [x, y] == [x] + [y];
  }

  lemma RunThree(c: Config, s: State, x: Action, y: Action, z: Action)
    ensures Run(c, s, [x, y, z]) == Next(c, Next(c, Next(c, s, x), y), z)
  {
    RunOne(c, s, x);
    RunOne(c, Next(c, s, x), y);
    RunOne(c, Next(c, Next(c, s, x), y), z);
    RunAppends(c, s, [x], [y]);
    RunAppends(c, s, [x] + [y], [z]);
    assert [x, y, z] == [x] + [y] + [z];
  }

  /** A file still open to relay PUTs, at which actor `b` has not acted yet. */
  predicate Open(c: Config, s: State, b: nat) {
    c.relay && s.holder == None && s.file == Pending && s.lease == Issued && s.expires > s.now &&
    s.recorded == None && ProcOf(s, b) == Idle
  }

  function PutSteps(a: nat, m: Measure, fate: Fate): seq<Action> {
    [ClaimRelay(a), Receive(a, m), PutReturns(a, fate)]
  }

  function CommitSteps(a: nat, b: nat): seq<Action> {
    [RecordReturns(a, Done), Observe(b), Finalize(b, Done)]
  }

  lemma SendPut(c: Config, s: State, a: nat, m: Measure, fate: Fate) returns (t: State)
    requires Open(c, s, a) && Accepts(c, m) && (fate == Done || fate == Straggling)
    ensures t == Run(c, s, PutSteps(a, m, fate))
    ensures fate == Straggling ==> forall b | b != a && Open(c, s, b) :: Open(c, t, b)
    ensures fate == Straggling ==> t.stragglers == s.stragglers + multiset{m}
    ensures fate == Done ==> ProcOf(t, a) == Recording(m) && t.holder == Some(a) && t.file == Pending
    ensures fate == Done ==> t.stragglers == s.stragglers
    ensures fate == Done ==> forall b: nat | b != a :: ProcOf(t, b) == ProcOf(s, b)
  {
    RunThree(c, s, ClaimRelay(a), Receive(a, m), PutReturns(a, fate));
    var s1 := Next(c, s, ClaimRelay(a));
    assert ProcOf(s1, a) == Claimed;
    var s2 := Next(c, s1, Receive(a, m));
    assert ProcOf(s2, a) == Sending(m);
    t := Next(c, s2, PutReturns(a, fate));
  }

  lemma RecordAndCommit(c: Config, s: State, a: nat, b: nat, m: Measure) returns (t: State)
    requires c.relay && Accepts(c, m) && a != b && s.file == Pending
    requires ProcOf(s, a) == Recording(m) && s.holder == Some(a) && ProcOf(s, b) == Idle
    ensures t == Run(c, s, CommitSteps(a, b))
    ensures t.file == Active && t.etag == m.etag && t.stragglers == s.stragglers
  {
    RunThree(c, s, RecordReturns(a, Done), Observe(b), Finalize(b, Done));
    var s1 := Next(c, s, RecordReturns(a, Done));
    assert s1.recorded == Some(m) && s1.holder == None && ProcOf(s1, b) == Idle;
    var s2 := Next(c, s1, Observe(b));
    assert ProcOf(s2, b) == Observed(m) && s2.holder == None && s2.file == Pending;
    t := Next(c, s2, Finalize(b, Done));
  }

  lemma FourParts(c: Config, s: State, ws: seq<Action>, xs: seq<Action>, ys: seq<Action>, zs: seq<Action>)
    ensures Run(c, s, ws + xs + ys + zs) == Run(c, Run(c, Run(c, Run(c, s, ws), xs), ys), zs)
  {
    RunAppends(c, s, ws, xs);
    RunAppends(c, s, ws + xs, ys);
    RunAppends(c, s, ws + xs + ys, zs);
  }

  lemma LandAfterCommit(c: Config, s: State, late: Measure)
    requires late in s.stragglers && s.file == Active
    ensures var t := Run(c, s, [Land(late)]); t.file == Active && t.etag == s.etag && t.blob == Some(late)
  {
    RunOne(c, s, Land(late));
  }

  /** The condition is needed: one PUT abandoned in flight, one retry recorded and committed,
      and the abandoned bytes replace the committed ones. */
  lemma AbandonedPutCanReplaceCommittedBytes(c: Config, lost: Measure, kept: Measure)
    requires c.relay && c.ttl > 0 && Accepts(c, lost) && Accepts(c, kept)
    ensures var s := Run(c, Start(c),
                         PutSteps(0, lost, Straggling) + PutSteps(1, kept, Done) + CommitSteps(1, 2) + [Land(lost)]);
            s.file == Active && s.etag == kept.etag && s.blob == Some(lost)
  {
    var s3 := SendPut(c, Start(c), 0, lost, Straggling);
    assert Open(c, Start(c), 1) && Open(c, Start(c), 2);
    var s6 := SendPut(c, s3, 1, kept, Done);
    var s9 := RecordAndCommit(c, s6, 1, 2, kept);
    FourParts(c, Start(c), PutSteps(0, lost, Straggling), PutSteps(1, kept, Done), CommitSteps(1, 2), [Land(lost)]);
    LandAfterCommit(c, s9, lost);
  }
}
