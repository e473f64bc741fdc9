/** The durable claim by which recovery takes an upload row over, against every statement that writes
    the row or its write lease. All times are in milliseconds. */
module RecoveryClaims {
  import opened Lifecycle
  import opened Heartbeat

  const RECOVERY_RETRY: nat := 30 * 1_000
  const RECOVERY_IO_TIMEOUT: nat := 10 * 1_000

  datatype Protocol = Native | S3

  /** `Open`: no native row, or an S3 row that takes parts. `Gone`: the file is no longer pending. */
  datatype Stage = Open | Completing | Cleaning | Gone

  /** An upload row with its write lease. */
  datatype Row = Row(protocol: Protocol, stage: Stage, recoveryAfter: nat, issued: bool, leasedUntil: nat)

  datatype Job = Job(protocol: Protocol, cleanup: bool)

  /** A completing row can be claimed only once its lease has run out; any row only once its retry
      time has come. */
  predicate Claimable(row: Row, job: Job, now: nat) {
    row.protocol == job.protocol && row.recoveryAfter <= now &&
    if job.cleanup then row.stage == Cleaning
    else row.stage == Completing && row.issued && row.leasedUntil < now
  }

  /** A claim attempt at wall time `at`, or a transaction that started at `at`, in the order in which
      they take the file lock. */
  datatype Event =
    | Try(job: Job, at: nat)
    | Prepare(at: nat)          // a completion is claimed, with a full lease
    | Reopen(at: nat)           // recovery found no object: parts again, with a full lease
    | Discard(at: nat)          // recovery found another object
    | LoseKey(at: nat)          // S3: the key exists already
    | Abort(at: nat)            // S3: the client aborts
    | ExpireOpen(at: nat)       // S3: the lease of an open upload ran out
    | RenewCompletion(at: nat)
    | RenewPart(at: nat)
    | Extend(at: nat)
    | Finish(at: nat)           // finalized, or released after cleanup

  predicate Lapsed(row: Row, at: nat) {
    row.issued && row.leasedUntil < at
  }

  predicate Succeeds(row: Row, e: Event) {
    e.Try? && Claimable(row, e.job, e.at)
  }

  /** The row after one event. A claim writes the delay before any provider call is made; every
      other statement that writes it makes recovery due at once. */
  function Happens(row: Row, e: Event, ttl: nat): Row {
    match e
    case Try(job, at) => if Claimable(row, job, at) then row.(recoveryAfter := at + RECOVERY_RETRY) else row
    case Prepare(at) =>
      if row.stage == Open && row.issued
      then row.(stage := Completing, recoveryAfter := at, leasedUntil := at + ttl) else row
    case Reopen(at) =>
      if row.stage == Completing && Lapsed(row, at)
      then row.(stage := Open, recoveryAfter := at, leasedUntil := at + ttl) else row
    case Discard(at) =>
      if row.stage == Completing && Lapsed(row, at)
      then row.(stage := Cleaning, recoveryAfter := at, issued := row.protocol == S3) else row
    case LoseKey(at) =>
      if row.protocol == S3 && row.stage == Completing then row.(stage := Cleaning, recoveryAfter := at) else row
    case Abort(at) =>
      if row.protocol == S3 && row.stage == Open then row.(stage := Cleaning, recoveryAfter := at) else row
    case ExpireOpen(at) =>
      if row.protocol == S3 && row.stage == Open && Lapsed(row, at)
      then row.(stage := Cleaning, recoveryAfter := at, issued := false) else row
    case RenewCompletion(at) =>
      if row.stage == Completing && row.issued then row.(leasedUntil := at + ttl) else row
    case RenewPart(at) => if row.stage == Open && row.issued then row.(leasedUntil := at + ttl) else row
    case Extend(at) => if row.issued then row.(leasedUntil := Max(row.leasedUntil, at + ttl)) else row
    case Finish(_) => row.(stage := Gone)
  }

  function History(row: Row, es: seq<Event>, ttl: nat): Row
    decreases |es|
  {
    if es == [] then row else Happens(History(row, es[..|es| - 1], ttl), es[|es| - 1], ttl)
  }

  /** No transaction of the history had waited more than `wait` for the file lock at `from`. */
  predicate WaitsAtMost(es: seq<Event>, from: nat, wait: nat) {
    forall e | e in es && !e.Try? :: from <= e.at + wait
  }

  // ---- claims of one job ----

  /** A completing row cannot be claimed before `due`: its delay or its lease stands against it. */
  predicate Fended(row: Row, due: nat) {
    row.stage == Completing ==> due <= row.recoveryAfter || due <= row.leasedUntil + 1
  }

  lemma EventKeepsFended(row: Row, e: Event, ttl: nat, due: nat)
    requires Fended(row, due) && (!e.Try? ==> due <= e.at + ttl + 1)
    ensures Fended(Happens(row, e, ttl), due)
  {
  }

  lemma {:induction false} HistoryKeepsFended(row: Row, es: seq<Event>, ttl: nat, from: nat, wait: nat)
    requires Fended(row, from + RECOVERY_RETRY) && WaitsAtMost(es, from, wait) && RECOVERY_RETRY + wait <= ttl + 1
    ensures Fended(History(row, es, ttl), from + RECOVERY_RETRY)
    decreases |es|
  {
    if es != [] {
      HistoryKeepsFended(row, es[..|es| - 1], ttl, from, wait);
      assert es[|es| - 1] in es;
      EventKeepsFended(History(row, es[..|es| - 1], ttl), es[|es| - 1], ttl, from + RECOVERY_RETRY);
    }
  }

  /** A row in cleaning is never reset. */
  lemma {:induction false} CleaningKeepsItsDelay(row: Row, es: seq<Event>, ttl: nat)
    requires row.stage == Cleaning
    ensures var t := History(row, es, ttl);
            t.stage == Gone || (t.stage == Cleaning && row.recoveryAfter <= t.recoveryAfter)
    decreases |es|
  {
    if es != [] {
      CleaningKeepsItsDelay(row, es[..|es| - 1], ttl);
    }
  }

  lemma ClaimsOfOneJobAreSpaced(row: Row, first: Event, es: seq<Event>, second: Event, ttl: nat, wait: nat)
    requires Succeeds(row, first) && Succeeds(History(Happens(row, first, ttl), es, ttl), second)
    requires first.job == second.job && WaitsAtMost(es, first.at, wait) && RECOVERY_RETRY + wait <= ttl + 1
    ensures first.at + RECOVERY_RETRY <= second.at
  {
    var claimed := Happens(row, first, ttl);
    if first.job.cleanup {
      CleaningKeepsItsDelay(claimed, es, ttl);
    } else {
      HistoryKeepsFended(claimed, es, ttl, first.at, wait);
    }
  }

  /** At the production numbers: whatever happens between them, as long as no transaction has waited
      for the file lock for most of the lease, two successful claims of a row by the same job are at
      least the retry delay apart, and so the provider call of the first is over before the second. */
  lemma ClaimsAreSpaced(row: Row, first: Event, es: seq<Event>, second: Event)
    requires Succeeds(row, first) && Succeeds(History(Happens(row, first, WRITE_LEASE_TTL), es, WRITE_LEASE_TTL), second)
    requires first.job == second.job && WaitsAtMost(es, first.at, WRITE_LEASE_TTL - RECOVERY_RETRY)
    ensures first.at + RECOVERY_RETRY <= second.at && first.at + RECOVERY_IO_TIMEOUT < second.at
  {
    ClaimsOfOneJobAreSpaced(row, first, es, second, WRITE_LEASE_TTL, WRITE_LEASE_TTL - RECOVERY_RETRY);
  }

  /** Two successful claims of a row by the same job are always the retry delay apart. */
  ghost predicate AlwaysSpaced(ttl: nat, wait: nat) {
    forall row, first, es, second |
      Succeeds(row, first) && Succeeds(History(Happens(row, first, ttl), es, ttl), second) &&
      first.job == second.job && WaitsAtMost(es, first.at, wait) ::
      first.at + RECOVERY_RETRY <= second.at
  }

  /** A completion claimed, reopened and claimed again by transactions that started `wait` before:
      their leases run out before the delay does. */
  lemma LongWaitLetsAClaimThrough(ttl: nat, wait: nat)
    requires ttl + 1 < RECOVERY_RETRY + wait
    ensures !AlwaysSpaced(ttl, wait)
  {
    var row, job := Row(Native, Completing, 0, true, 0), Job(Native, false);
    var first, es, second := Try(job, wait + 1), [Reopen(1), Prepare(1)], Try(job, Max(wait + 1, ttl + 2));
    var claimed := Happens(row, first, ttl);
    assert es[..1] == [Reopen(1)] && es[..1][..0] == [];
    assert History(claimed, es[..1], ttl) == Happens(claimed, Reopen(1), ttl);
    assert History(claimed, es, ttl) == Row(Native, Completing, 1, true, ttl + 1);
    assert WaitsAtMost(es, first.at, wait) && Succeeds(History(claimed, es, ttl), second);
  }

  /** Claims of one job are the retry delay apart exactly when the delay and the longest wait for the
      file lock fit into the lease. */
  lemma ClaimsAreSpacedExactlyWhen(ttl: nat, wait: nat)
    ensures AlwaysSpaced(ttl, wait) <==> RECOVERY_RETRY + wait <= ttl + 1
  {
    if RECOVERY_RETRY + wait <= ttl + 1 {
      forall row, first, es, second |
        Succeeds(row, first) && Succeeds(History(Happens(row, first, ttl), es, ttl), second) &&
        first.job == second.job && WaitsAtMost(es, first.at, wait)
        ensures first.at + RECOVERY_RETRY <= second.at
      {
        ClaimsOfOneJobAreSpaced(row, first, es, second, ttl, wait);
      }
    } else {
      LongWaitLetsAClaimThrough(ttl, wait);
    }
  }

  // ---- claims of any job ----

  /** Time passes from event to event: no transaction waits for the file lock. */
  predicate InOrder(from: nat, es: seq<Event>) {
    (forall i | 0 <= i < |es| :: from <= es[i].at) && forall i, j | 0 <= i < j < |es| :: es[i].at <= es[j].at
  }

  /** At some point of the history a claim would succeed before `due`. */
  ghost predicate ClaimedBefore(row: Row, es: seq<Event>, ttl: nat, from: nat, due: nat) {
    exists k: nat, job, at: nat | k <= |es| && from <= at < due ::
      (k > 0 ==> es[k - 1].at <= at) && Claimable(History(row, es[..k], ttl), job, at)
  }

  /** Event i moves the row to cleaning. */
  predicate Moves(row: Row, es: seq<Event>, ttl: nat, i: nat)
    requires i < |es|
  {
    History(row, es[..i], ttl).stage != Cleaning && History(row, es[..i + 1], ttl).stage == Cleaning
  }

  ghost predicate MovedBefore(row: Row, es: seq<Event>, ttl: nat, due: nat) {
    exists i: nat | i < |es| :: Moves(row, es, ttl, i) && es[i].at < due
  }

  lemma HistoryExtends(row: Row, es: seq<Event>, ttl: nat, i: nat)
    requires i < |es|
    ensures History(row, es[..i + 1], ttl) == Happens(History(row, es[..i], ttl), es[i], ttl)
  {
    assert es[..i + 1][..i] == es[..i];
  }

  lemma {:induction false} CleaningWasMoved(row: Row, es: seq<Event>, ttl: nat, k: nat, due: nat)
    requires row.stage == Cleaning ==> due <= row.recoveryAfter
    requires k <= |es| && History(row, es[..k], ttl).stage == Cleaning && History(row, es[..k], ttl).recoveryAfter < due
    ensures MovedBefore(row, es, ttl, due)
  {
    if k > 0 {
      HistoryExtends(row, es, ttl, k - 1);
      if History(row, es[..k - 1], ttl).stage == Cleaning {
        CleaningWasMoved(row, es, ttl, k - 1, due);
      } else {
        assert Moves(row, es, ttl, k - 1);
      }
    }
  }

  lemma MoveLetsACleanupThrough(row: Row, es: seq<Event>, ttl: nat, from: nat, i: nat, due: nat)
    requires i < |es| && InOrder(from, es) && Moves(row, es, ttl, i) && es[i].at < due
    ensures ClaimedBefore(row, es, ttl, from, due)
  {
    HistoryExtends(row, es, ttl, i);
    var k := i + 1;
    assert Claimable(History(row, es[..k], ttl), Job(History(row, es[..k], ttl).protocol, true), es[i].at);
  }

  lemma EarlyClaimIsACleanup(row: Row, es: seq<Event>, ttl: nat, from: nat, k: nat, job: Job, at: nat)
    requires Fended(row, from + RECOVERY_RETRY) && InOrder(from, es) && RECOVERY_RETRY <= ttl + 1
    requires k <= |es| && at < from + RECOVERY_RETRY && Claimable(History(row, es[..k], ttl), job, at)
    ensures job.cleanup
  {
    forall e | e in es[..k] ensures from <= e.at {
      var i :| 0 <= i < k && es[..k][i] == e;
      assert es[i] == e;
    }
    HistoryKeepsFended(row, es[..k], ttl, from, 0);
  }

  /** After a successful claim by any job, and until the retry delay is over, another claim can
      succeed exactly if the row is moved to cleaning in that time; it is then a cleanup claim. */
  lemma EarlierClaimExactlyWhenMovedToCleaning(row: Row, first: Event, es: seq<Event>, ttl: nat)
    requires Succeeds(row, first) && InOrder(first.at, es) && RECOVERY_RETRY <= ttl + 1
    ensures var claimed, due := Happens(row, first, ttl), first.at + RECOVERY_RETRY;
            ClaimedBefore(claimed, es, ttl, first.at, due) <==> MovedBefore(claimed, es, ttl, due)
  {
    var claimed, due := Happens(row, first, ttl), first.at + RECOVERY_RETRY;
    if ClaimedBefore(claimed, es, ttl, first.at, due) {
      var k: nat, job, at: nat :| k <= |es| && first.at <= at < due && (k > 0 ==> es[k - 1].at <= at) &&
                                  Claimable(History(claimed, es[..k], ttl), job, at);
      EarlyClaimIsACleanup(claimed, es, ttl, first.at, k, job, at);
      CleaningWasMoved(claimed, es, ttl, k, due);
    }
    if MovedBefore(claimed, es, ttl, due) {
      var i: nat :| i < |es| && Moves(claimed, es, ttl, i) && es[i].at < due;
      MoveLetsACleanupThrough(claimed, es, ttl, first.at, i, due);
    }
  }

  /** An example: a completion pass that finds another object, and the cleanup right after it. */
  lemma DiscardedRowIsCleanedAtOnce(protocol: Protocol, at: nat, ttl: nat)
    requires at > 0
    ensures var row, first := Row(protocol, Completing, 0, true, 0), Try(Job(protocol, false), at);
            Succeeds(row, first) &&
            Succeeds(History(Happens(row, first, ttl), [Discard(at)], ttl), Try(Job(protocol, true), at))
  {
    assert [Discard(at)][..0] == [];
  }

  /** While a provider call runs under a steady heartbeat, no recovery pass can claim its row, which
      is not in cleaning. */
  lemma HeartbeatKeepsRecoveryOut(p: Pace, n: nat, row: Row, job: Job, now: nat)
    requires Steady(p) && Ran(p, n) && p.start <= now <= Beats(p, n + 1).now
    requires row.stage != Cleaning && row.leasedUntil == LeaseAt(Beats(p, n).grants, now)
    ensures !Claimable(row, job, now)
  {
    LeaseNeverLapses(p, n);
  }
}
