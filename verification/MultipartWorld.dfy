/** The world that the programs of a multipart upload share: the database, the provider, everybody
    else's steps before every call, and the trace of what happened. */
module MultipartWorld {
  import opened Wrappers
  import opened Text
  import opened Lifecycle
  import opened Completion
  import opened Multipart
  import opened MultipartInvariant
  import opened MultipartSafety

  /** Steps the environment may take while this program waits: not its own. */
  predicate Theirs(x: Action, me: Option<nat>) {
    if me.Some? then Mine(x) != me else Creates(x) ==> x.LandCreate?
  }

  /** The scheduled steps that can happen meanwhile: other actors' steps, with provider effects
      only where they are harmless. */
  function Admitted(c: Config, s: State, me: Option<nat>, xs: seq<Action>): seq<Action>
    decreases |xs|
  {
    if xs == [] then []
    else
      var before, x := Admitted(c, s, me, xs[..|xs| - 1]), xs[|xs| - 1];
      if Theirs(x, me) && Admissible(c, Run(c, s, before), x) then before + [x] else before
  }

  lemma {:induction false} AdmittedAreTheirsAndPunctual(c: Config, s: State, me: Option<nat>, xs: seq<Action>)
    ensures Punctual(c, s, Admitted(c, s, me, xs))
    ensures forall x | x in Admitted(c, s, me, xs) :: Theirs(x, me)
    decreases |xs|
  {
    if xs != [] {
      AdmittedAreTheirsAndPunctual(c, s, me, xs[..|xs| - 1]);
      RunExtends(c, s, Admitted(c, s, me, xs[..|xs| - 1]), xs[|xs| - 1]);
    }
  }

  /** Other actors leave this program's place alone. */
  predicate SamePlace(s: State, t: State, me: Option<nat>) {
    if me.Some? then ProcOf(t, me.value) == ProcOf(s, me.value)
    else SameRequest(s, t)
  }

  lemma StepKeepsPlace(c: Config, s: State, x: Action, me: Option<nat>)
    requires Theirs(x, me)
    ensures SamePlace(s, Next(c, s, x), me)
  {
    if me.Some? { StepLeavesOthers(c, s, x, me.value); } else { StepLeavesCreation(c, s, x); }
  }

  lemma StepLeavesCreation(c: Config, s: State, x: Action)
    requires Creates(x) ==> x.LandCreate?
    ensures SamePlace(s, Next(c, s, x), None)
  {
  }

  lemma {:induction false} RunKeepsPlace(c: Config, s: State, me: Option<nat>, xs: seq<Action>)
    requires forall x | x in xs :: Theirs(x, me)
    ensures SamePlace(s, Run(c, s, xs), me)
    decreases |xs|
  {
    if xs != [] {
      RunKeepsPlace(c, s, me, xs[..|xs| - 1]);
      StepKeepsPlace(c, Run(c, s, xs[..|xs| - 1]), xs[|xs| - 1], me);
    }
  }

  /** At no point of the trace from step i on does the row say that `me` holds it under a lease that
      has run out. */
  ghost predicate Leased(c: Config, trace: seq<Action>, i: nat, me: nat) {
    forall k | i <= k <= |trace| :: LeaseHolds(Run(c, Begin(c), trace[..k]), me)
  }

  lemma LeasedEarlier(c: Config, trace: seq<Action>, j: nat, i: nat, me: nat)
    requires j <= |trace| && Leased(c, trace, i, me)
    ensures Leased(c, trace[..j], i, me)
    ensures i <= j ==> Leased(c, trace, j, me)
  {
    forall k | i <= k <= j ensures LeaseHolds(Run(c, Begin(c), trace[..j][..k]), me) {
      assert trace[..j][..k] == trace[..k];
    }
  }

  lemma {:induction false} LeasedIsUnexpired(c: Config, xs: seq<Action>, ys: seq<Action>, me: nat)
    requires Leased(c, xs + ys, |xs|, me)
    ensures Unexpired(c, Run(c, Begin(c), xs), ys, me)
    decreases |ys|
  {
    PunctualSplits(c, Begin(c), xs, ys);
    assert (xs + ys)[..|xs + ys|] == xs + ys;
    if ys != [] {
      assert (xs + ys)[..|xs + ys| - 1] == xs + ys[..|ys| - 1];
      LeasedEarlier(c, xs + ys, |xs + ys| - 1, |xs|, me);
      LeasedIsUnexpired(c, xs, ys[..|ys| - 1], me);
    }
  }

  predicate OthersOnly(xs: seq<Action>, me: Option<nat>) {
    forall x | x in xs :: Theirs(x, me)
  }

  /** The steps that `me` takes while it only renews. */
  predicate OnlyRenews(xs: seq<Action>, me: nat) {
    forall x | x in xs :: Mine(x) == Some(me) ==> x.RenewCompletion?
  }

  lemma OthersRenewNothing(xs: seq<Action>, me: nat)
    requires OthersOnly(xs, Some(me))
    ensures OnlyRenews(xs, me)
  {
  }

  /** Between two moments of a trace the completion stays with an owner that renews in time. */
  lemma StillOwned(c: Config, was: seq<Action>, trace: seq<Action>, me: nat, parts: seq<Part>)
    requires Wellformed(c) && Punctual(c, Begin(c), trace) && was <= trace
    requires OwnsOrDone(c, Run(c, Begin(c), was), me, parts) && OnlyRenews(trace[|was|..], me)
    requires Leased(c, trace, |was|, me)
    ensures OwnsOrDone(c, Run(c, Begin(c), trace), me, parts)
  {
    var xs := trace[|was|..];
    assert was + xs == trace;
    PunctualSplits(c, Begin(c), was, xs);
    ReachableInv(c, was);
    LeasedIsUnexpired(c, was, xs, me);
    LeaseIsAFence(c, Run(c, Begin(c), was), xs, me, parts);
  }

  // ---- what a program did along a trace ----

  /** The program waits while others act, and then takes step x. */
  predicate Took(was: seq<Action>, trace: seq<Action>, me: nat, x: Action) {
    was <= trace && |was| < |trace| && trace[|trace| - 1] == x && Mine(x) == Some(me) &&
    OthersOnly(trace[|was|..|trace| - 1], Some(me))
  }

  /** The state in which the last step was taken. */
  function Previous(c: Config, trace: seq<Action>): State
    requires trace != []
  {
    Run(c, Begin(c), trace[..|trace| - 1])
  }

  lemma WaitedAndTook(was: seq<Action>, waited: seq<Action>, me: nat, x: Action)
    requires was <= waited && OthersOnly(waited[|was|..], Some(me)) && Mine(x) == Some(me)
    ensures Took(was, waited + [x], me, x) && (waited + [x])[..|waited + [x]| - 1] == waited
  {
    assert (waited + [x])[|was|..|waited|] == waited[|was|..];
  }

  /** A call without how it ended. */
  function Plain(x: Action): Action {
    match x
    case PartReturns(a, _) => PartReturns(a, Done)
    case FinishPart(a, _) => FinishPart(a, Done)
    case CancelPart(a, _) => CancelPart(a, Done)
    case Prepare(a, parts, _) => Prepare(a, parts, Done)
    case RenewCompletion(a, _) => RenewCompletion(a, Done)
    case CompleteReturns(a, _) => CompleteReturns(a, Done)
    case Finalize(a, _) => Finalize(a, Done)
    case Look(a, _) => Look(a, Done)
    case Decide(a, _) => Decide(a, Done)
    case SweepAbort(a, _) => SweepAbort(a, Done)
    case SweepDelete(a, _) => SweepDelete(a, Done)
    case SweepRelease(a, _) => SweepRelease(a, Done)
    case _ => x
  }

  /** How a call ended. */
  function Ending(x: Action): Fate {
    match x
    case PartReturns(_, fate) => fate
    case FinishPart(_, fate) => fate
    case CancelPart(_, fate) => fate
    case Prepare(_, _, fate) => fate
    case RenewCompletion(_, fate) => fate
    case CompleteReturns(_, fate) => fate
    case Finalize(_, fate) => fate
    case Look(_, fate) => fate
    case Decide(_, fate) => fate
    case SweepAbort(_, fate) => fate
    case SweepDelete(_, fate) => fate
    case SweepRelease(_, fate) => fate
    case _ => Done
  }

  /** The calls that `me` made, in order. */
  function Calls(xs: seq<Action>, me: nat): seq<Action>
    decreases |xs|
  {
    if xs == [] then []
    else
      var before, x := Calls(xs[..|xs| - 1], me), xs[|xs| - 1];
      if Mine(x) == Some(me) then before + [Plain(x)] else before
  }

  lemma {:induction false} OthersCallNothing(was: seq<Action>, ys: seq<Action>, me: nat)
    requires OthersOnly(ys, Some(me))
    ensures Calls(was + ys, me) == Calls(was, me)
    decreases |ys|
  {
    if ys == [] {
      assert was + ys == was;
    } else {
      assert ys[|ys| - 1] in ys;
      assert (was + ys)[..|was + ys| - 1] == was + ys[..|ys| - 1];
      OthersCallNothing(was, ys[..|ys| - 1], me);
    }
  }

  lemma TookIsOneCall(was: seq<Action>, trace: seq<Action>, me: nat, x: Action)
    requires Took(was, trace, me, x)
    ensures Calls(trace, me) == Calls(was, me) + [Plain(x)]
  {
    var ys := trace[|was|..|trace| - 1];
    assert trace[..|trace| - 1] == was + ys;
    OthersCallNothing(was, ys, me);
  }

  /** Step i of the trace is a finalize of `me` that activated the file. */
  ghost predicate Activates(c: Config, trace: seq<Action>, i: nat, me: nat)
    requires i < |trace|
  {
    trace[i] == Finalize(me, Done) &&
    |Run(c, Begin(c), trace[..i]).activations| < |Run(c, Begin(c), trace[..i + 1]).activations|
  }

  ghost predicate Activated(c: Config, trace: seq<Action>, from: nat, me: nat) {
    exists i: nat | from <= i < |trace| :: Activates(c, trace, i, me)
  }

  lemma ActivatedSplits(c: Config, trace: seq<Action>, from: nat, mid: nat, me: nat)
    requires from <= mid <= |trace|
    ensures Activated(c, trace, from, me) <==> Activated(c, trace[..mid], from, me) || Activated(c, trace, mid, me)
  {
    forall i: nat | i < mid ensures Activates(c, trace, i, me) <==> Activates(c, trace[..mid], i, me) {
      assert trace[..mid][..i] == trace[..i] && trace[..mid][..i + 1] == trace[..i + 1];
    }
    if Activated(c, trace, from, me) {
      var i: nat :| from <= i < |trace| && Activates(c, trace, i, me);
      if i < mid {
        assert Activates(c, trace[..mid], i, me);
      }
    }
    if Activated(c, trace[..mid], from, me) {
      var i: nat :| from <= i < mid && Activates(c, trace[..mid], i, me);
      assert Activates(c, trace, i, me);
    }
  }

  lemma OthersActivateNothing(c: Config, was: seq<Action>, trace: seq<Action>, me: nat, x: Action, i: nat)
    requires Took(was, trace, me, x) && |was| <= i < |trace| - 1
    ensures !Activates(c, trace, i, me)
  {
    var ys := trace[|was|..|trace| - 1];
    assert ys[i - |was|] == trace[i] && ys[i - |was|] in ys;
  }

  lemma LastActivates(c: Config, trace: seq<Action>, me: nat)
    requires trace != []
    ensures Activates(c, trace, |trace| - 1, me) <==>
            trace[|trace| - 1] == Finalize(me, Done) &&
            |Previous(c, trace).activations| < |Run(c, Begin(c), trace).activations|
  {
    assert trace[..|trace| - 1 + 1] == trace;
  }

  lemma TookActivates(c: Config, was: seq<Action>, trace: seq<Action>, me: nat, x: Action)
    requires Took(was, trace, me, x)
    ensures Activated(c, trace, |was|, me) <==>
            x == Finalize(me, Done) &&
            |Previous(c, trace).activations| < |Run(c, Begin(c), trace).activations|
  {
    LastActivates(c, trace, me);
    forall i: nat | |was| <= i < |trace| - 1 ensures !Activates(c, trace, i, me) {
      OthersActivateNothing(c, was, trace, me, x, i);
    }
    assert Activates(c, trace, |trace| - 1, me) ==> Activated(c, trace, |was|, me);
  }

  /** Since `was`, `me` made exactly these calls, and one of them activated the file or none did. */
  ghost predicate Made(c: Config, was: seq<Action>, trace: seq<Action>, me: nat, calls: seq<Action>, activated: bool) {
    was <= trace && Calls(trace, me) == Calls(was, me) + calls && (Activated(c, trace, |was|, me) <==> activated)
  }

  lemma MadeNothing(c: Config, was: seq<Action>, me: nat)
    ensures Made(c, was, was, me, [], false)
  {
  }

  lemma TookIsMade(c: Config, was: seq<Action>, trace: seq<Action>, me: nat, x: Action)
    requires Took(was, trace, me, x)
    ensures Made(c, was, trace, me, [Plain(x)],
                 x == Finalize(me, Done) && |Previous(c, trace).activations| < |Run(c, Begin(c), trace).activations|)
  {
    TookIsOneCall(was, trace, me, x);
    TookActivates(c, was, trace, me, x);
  }

  lemma MadeMore(c: Config, was: seq<Action>, mid: seq<Action>, trace: seq<Action>, me: nat,
                 first: seq<Action>, rest: seq<Action>, a: bool, b: bool)
    requires Made(c, was, mid, me, first, a) && Made(c, mid, trace, me, rest, b)
    ensures Made(c, was, trace, me, first + rest, a || b)
  {
    assert trace[..|mid|] == mid;
    ActivatedSplits(c, trace, |was|, |mid|, me);
  }

  function Repeat(x: Action, n: nat): seq<Action> {
    seq(n, i => x)
  }

  lemma RepeatMore(x: Action, n: nat)
    ensures Repeat(x, n) + [x] == Repeat(x, n + 1) && Repeat(x, 0) == []
  {
  }

  /** The database and the provider, the schedule of everybody else, and the fate of each call.
      `suppressed`: the provider has refused an effect of this program that would have been harmful. */
  class World {
    const c: Config
    const others: nat -> seq<Action>
    const fates: nat -> Fate
    var clock: nat
    var s: State
    ghost var trace: seq<Action>
    ghost var suppressed: bool

    constructor (c: Config, others: nat -> seq<Action>, fates: nat -> Fate)
      requires Wellformed(c)
      ensures Valid() && this.c == c && s == Begin(c) && !suppressed
    {
      this.c, this.others, this.fates := c, others, fates;
      clock, s, trace, suppressed := 0, Begin(c), [], false;
    }

    ghost predicate Valid()
      reads this
    {
      Wellformed(c) && Punctual(c, Begin(c), trace) && s == Run(c, Begin(c), trace)
    }

    ghost function Last(): Action
      reads this
      requires trace != []
    {
      trace[|trace| - 1]
    }

    lemma Reached()
      requires Valid()
      ensures Inv(c, s)
    {
      ReachableInv(c, trace);
    }

    lemma Own(me: nat)
      requires Valid()
      ensures RowsInv(c, s) && ProcInv(c, s, me, ProcOf(s, me))
    {
      Reached();
    }

    method Yield(me: Option<nat>)
      requires Valid()
      modifies this
      ensures Valid() && old(s.activations) <= s.activations && SamePlace(old(s), s, me)
      ensures old(trace) <= trace && suppressed == old(suppressed)
      ensures OthersOnly(trace[|old(trace)|..], me)
    {
      var batch := Admitted(c, s, me, others(clock));
      AdmittedAreTheirsAndPunctual(c, s, me, others(clock));
      clock := clock + 1;
      Reached();
      PunctualSplits(c, Begin(c), trace, batch);
      RunKeepsActivations(c, s, batch);
      RunKeepsPlace(c, s, me, batch);
      s, trace := Run(c, s, batch), trace + batch;
    }

    method Act(x: Action)
      requires Valid() && Admissible(c, s, x)
      modifies this
      ensures Valid() && s == Next(c, old(s), x) && old(s.activations) <= s.activations
      ensures trace == old(trace) + [x] && suppressed == old(suppressed)
    {
      Reached();
      StepKeepsActivations(c, s, x);
      RunExtends(c, Begin(c), trace, x);
      s, trace := Next(c, s, x), trace + [x];
    }

    /** How the provider answers a call: an effect that would arrive harmfully does not happen, and
        it is remembered that one was refused. */
    method Answer(x: Action) returns (fate: Fate)
      requires Valid() && (x.CreateReturns? || x.CompleteReturns?)
      modifies this`suppressed
      ensures Valid() && fate == if Admissible(c, s, x) then x.fate else NotApplied
      ensures suppressed == (old(suppressed) || !Admissible(c, s, x))
    {
      suppressed := suppressed || !Admissible(c, s, x);
      fate := if Admissible(c, s, x) then x.fate else NotApplied;
    }
  }
}
