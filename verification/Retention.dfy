/** Batched retention deletes: the loop of small committed batches refines one deletion, and any
    interruption leaves an oldest-first part of it done. */
module Retention {
  import opened Wrappers
  import opened Lifecycle

  /** A row of a history table. `guarded` says that the stream's guard lets it go. */
  datatype Row = Row(time: int, key: nat, guarded: bool)

  const BATCH_LIMIT: nat := 1_000

  predicate Eligible(row: Row, cutoff: int) {
    row.time < cutoff && row.guarded
  }

  /** A table as the database lists it: by time, then key. */
  predicate Listed(table: seq<Row>) {
    forall i, j | 0 <= i < j < |table| :: table[i].time <= table[j].time
  }

  /** One batch: the first `limit` eligible rows in listing order go. */
  function DeleteBefore(table: seq<Row>, cutoff: int, limit: nat): seq<Row> {
    if table == [] || limit == 0 then table
    else if Eligible(table[0], cutoff) then DeleteBefore(table[1..], cutoff, limit - 1)
    else [table[0]] + DeleteBefore(table[1..], cutoff, limit)
  }

  function CountEligible(table: seq<Row>, cutoff: int): nat {
    if table == [] then 0 else (if Eligible(table[0], cutoff) then 1 else 0) + CountEligible(table[1..], cutoff)
  }

  /** The one deletion the batches stand for. */
  function WithoutOlder(table: seq<Row>, cutoff: int): seq<Row> {
    if table == [] then []
    else if Eligible(table[0], cutoff) then WithoutOlder(table[1..], cutoff)
    else [table[0]] + WithoutOlder(table[1..], cutoff)
  }

  /** The table without its n oldest rows that the guard lets go. */
  function WithoutOldest(table: seq<Row>, n: nat): seq<Row> {
    if table == [] || n == 0 then table
    else if table[0].guarded then WithoutOldest(table[1..], n - 1)
    else [table[0]] + WithoutOldest(table[1..], n)
  }

  lemma {:induction false} BatchDeletesTheOldest(table: seq<Row>, cutoff: int, limit: nat)
    requires Listed(table)
    ensures var n := Min(limit, CountEligible(table, cutoff));
            DeleteBefore(table, cutoff, limit) == WithoutOldest(table, n) &&
            |DeleteBefore(table, cutoff, limit)| == |table| - n
  {
    if table != [] && limit > 0 {
      if Eligible(table[0], cutoff) {
        BatchDeletesTheOldest(table[1..], cutoff, limit - 1);
      } else {
        BatchDeletesTheOldest(table[1..], cutoff, limit);
        if table[0].guarded { NoneEligible(table, cutoff); }
      }
    }
  }

  /** Past the cutoff nothing is eligible. */
  lemma {:induction false} NoneEligible(table: seq<Row>, cutoff: int)
    requires Listed(table) && table != [] && cutoff <= table[0].time
    ensures CountEligible(table, cutoff) == 0
  {
    if |table| > 1 {
      NoneEligible(table[1..], cutoff);
    }
  }

  lemma {:induction false} WithoutOldestComposes(table: seq<Row>, m: nat, n: nat)
    ensures WithoutOldest(WithoutOldest(table, m), n) == WithoutOldest(table, m + n)
  {
    if table != [] && m > 0 {
      if table[0].guarded {
        WithoutOldestComposes(table[1..], m - 1, n);
      } else {
        WithoutOldestComposes(table[1..], m, n);
        var rest := WithoutOldest(table[1..], m);
        assert ([table[0]] + rest)[1..] == rest;
      }
    }
  }

  lemma {:induction false} WithoutOldestIsListed(table: seq<Row>, n: nat)
    requires Listed(table)
    ensures Listed(WithoutOldest(table, n))
    ensures forall row | row in WithoutOldest(table, n) :: row in table
  {
    if table != [] && n > 0 {
      WithoutOldestIsListed(table[1..], if table[0].guarded then n - 1 else n);
      assert table == [table[0]] + table[1..];
      forall row | row in table[1..] ensures table[0].time <= row.time {
        var i :| 0 <= i < |table[1..]| && table[1..][i] == row;
        assert table[i + 1] == row;
      }
    }
  }

  /** A batch that found fewer rows than its limit, or none left after it, has done everything. */
  lemma {:induction false} EnoughIsEverything(table: seq<Row>, cutoff: int, limit: nat)
    requires CountEligible(table, cutoff) <= limit
    ensures DeleteBefore(table, cutoff, limit) == WithoutOlder(table, cutoff)
  {
    if table != [] {
      if limit == 0 {
        EnoughIsEverything(table[1..], cutoff, 0);
        NothingToDelete(table, cutoff);
      } else {
        EnoughIsEverything(table[1..], cutoff, if Eligible(table[0], cutoff) then limit - 1 else limit);
      }
    }
  }

  lemma {:induction false} NothingToDelete(table: seq<Row>, cutoff: int)
    requires CountEligible(table, cutoff) == 0
    ensures WithoutOlder(table, cutoff) == table
  {
    if table != [] {
      NothingToDelete(table[1..], cutoff);
      assert table == [table[0]] + table[1..];
    }
  }

  /** Deleting earlier with an older cutoff changes nothing in the end. */
  lemma {:induction false} EarlierBatchesDoNotMatter(table: seq<Row>, before: int, limit: nat, cutoff: int)
    requires before <= cutoff
    ensures WithoutOlder(DeleteBefore(table, before, limit), cutoff) == WithoutOlder(table, cutoff)
  {
    if table != [] && limit > 0 {
      if Eligible(table[0], before) {
        EarlierBatchesDoNotMatter(table[1..], before, limit - 1, cutoff);
      } else {
        EarlierBatchesDoNotMatter(table[1..], before, limit, cutoff);
        var rest := DeleteBefore(table[1..], before, limit);
        assert ([table[0]] + rest)[1..] == rest;
      }
    }
  }

  /** The oldest row still eligible, which the batch reports. */
  function OldestEligible(table: seq<Row>, cutoff: int): Option<int> {
    if table == [] then None
    else if Eligible(table[0], cutoff) then Some(table[0].time)
    else OldestEligible(table[1..], cutoff)
  }

  lemma {:induction false} BatchLeaves(table: seq<Row>, cutoff: int, limit: nat)
    ensures var next, n := DeleteBefore(table, cutoff, limit), CountEligible(table, cutoff);
            CountEligible(next, cutoff) == n - Min(limit, n) &&
            (OldestEligible(next, cutoff).None? <==> n <= limit)
  {
    if table == [] {
    } else if limit == 0 {
      BatchLeaves(table[1..], cutoff, 0);
      assert DeleteBefore(table[1..], cutoff, 0) == table[1..];
    } else if Eligible(table[0], cutoff) {
      BatchLeaves(table[1..], cutoff, limit - 1);
    } else {
      BatchLeaves(table[1..], cutoff, limit);
      assert DeleteBefore(table, cutoff, limit)[1..] == DeleteBefore(table[1..], cutoff, limit);
    }
  }

  datatype Pass = Pass(clean: bool, count: nat, cutoff: int)

  /** What a pass over a table leaves: without its oldest rows that the guard lets go, as many as
      the count says but for a batch whose reply was lost; at a clean end without exactly the
      eligible rows older than the last cutoff. */
  predicate Pruned(table: seq<Row>, left: seq<Row>, pass: Pass) {
    |left| <= |table| && left == WithoutOldest(table, |table| - |left|) &&
    pass.count <= |table| - |left| <= pass.count + BATCH_LIMIT &&
    (pass.clean ==> left == WithoutOlder(table, pass.cutoff) && pass.count == |table| - |left|)
  }

  /** The rows that had arrived before batch n. */
  function Arrived(arrivals: nat -> seq<Row>, n: nat): seq<Row> {
    if n == 0 then [] else Arrived(arrivals, n - 1) + arrivals(n - 1)
  }

  /** Rows that arrive during the pass are younger than its cutoffs. */
  ghost predicate Young(arrivals: nat -> seq<Row>, cutoffs: nat -> int) {
    forall n: nat, i: nat, row | row in arrivals(n) :: cutoffs(i) <= row.time
  }

  lemma {:induction false} ArrivedAreYoung(arrivals: nat -> seq<Row>, cutoffs: nat -> int, n: nat, i: nat)
    requires Young(arrivals, cutoffs)
    ensures forall row | row in Arrived(arrivals, n) :: cutoffs(i) <= row.time
  {
    if n > 0 {
      ArrivedAreYoung(arrivals, cutoffs, n - 1, i);
    }
  }

  /** Younger rows do not take part in a batch. */
  lemma {:induction false} BatchSkipsTheYoung(kept: seq<Row>, young: seq<Row>, cutoff: int, limit: nat)
    requires forall row | row in young :: cutoff <= row.time
    ensures DeleteBefore(kept + young, cutoff, limit) == DeleteBefore(kept, cutoff, limit) + young
    ensures CountEligible(kept + young, cutoff) == CountEligible(kept, cutoff)
    ensures OldestEligible(kept + young, cutoff) == OldestEligible(kept, cutoff)
    decreases |kept| + |young|
  {
    if kept != [] {
      BatchSkipsTheYoung(kept[1..], young, cutoff, if limit > 0 && Eligible(kept[0], cutoff) then limit - 1 else limit);
      assert (kept + young)[1..] == kept[1..] + young;
    } else if young != [] {
      BatchSkipsTheYoung([], young[1..], cutoff, limit);
      assert kept + young == young && [] + young[1..] == young[1..];
      assert young == [young[0]] + young[1..];
    }
  }

  lemma BatchOfBoth(kept: seq<Row>, arrivals: nat -> seq<Row>, cutoffs: nat -> int, n: nat, i: nat)
    requires Young(arrivals, cutoffs)
    ensures var both, young, cutoff := kept + Arrived(arrivals, n), Arrived(arrivals, n), cutoffs(i);
            var rest := DeleteBefore(kept, cutoff, BATCH_LIMIT);
            DeleteBefore(both, cutoff, BATCH_LIMIT) == rest + young &&
            CountEligible(both, cutoff) == CountEligible(kept, cutoff) &&
            OldestEligible(DeleteBefore(both, cutoff, BATCH_LIMIT), cutoff) == OldestEligible(rest, cutoff)
  {
    var young, cutoff := Arrived(arrivals, n), cutoffs(i);
    ArrivedAreYoung(arrivals, cutoffs, n, i);
    BatchSkipsTheYoung(kept, young, cutoff, BATCH_LIMIT);
    BatchSkipsTheYoung(DeleteBefore(kept, cutoff, BATCH_LIMIT), young, cutoff, BATCH_LIMIT);
  }

  /** Where a pass stands: `left` is what it kept of the table and the n batches of arrivals. */
  ghost predicate Keeps(left: seq<Row>, kept: seq<Row>, arrivals: nat -> seq<Row>, n: nat) {
    left == kept + Arrived(arrivals, n)
  }

  /** The table after n committed batches. */
  function Batches(table: seq<Row>, cutoffs: nat -> int, n: nat): seq<Row> {
    if n == 0 then table else DeleteBefore(Batches(table, cutoffs, n - 1), cutoffs(n - 1), BATCH_LIMIT)
  }

  predicate Applied(fate: Fate) {
    fate == Done || fate == AppliedButLost
  }

  /** Batch j went through and could not delete everything. */
  ghost predicate LeftMore(table: seq<Row>, cutoffs: nat -> int, fates: nat -> Fate, j: nat) {
    fates(j) == Done && CountEligible(Batches(table, cutoffs, j), cutoffs(j)) > BATCH_LIMIT
  }

  /** The pass started n batches: all but the last went through and left more to delete, and the last
      one either failed or finished the stream. */
  ghost predicate Ran(table: seq<Row>, cutoffs: nat -> int, fates: nat -> Fate, n: nat, kept: seq<Row>, pass: Pass) {
    n > 0 &&
    (forall j: nat | j < n - 1 :: LeftMore(table, cutoffs, fates, j)) &&
    kept == Batches(table, cutoffs, if Applied(fates(n - 1)) then n else n - 1) &&
    (pass.clean <==> fates(n - 1) == Done) &&
    (pass.clean ==> pass.cutoff == cutoffs(n - 1) &&
                    CountEligible(Batches(table, cutoffs, n - 1), cutoffs(n - 1)) <= BATCH_LIMIT) &&
    (fates(n - 1) != AppliedButLost ==> pass.count == |table| - |kept|)
  }

  /** The batch loop of one stream. Batch i runs with cutoff `cutoffs(i)` after `arrivals(i)` have
      been inserted; a batch can fail or time out before or after it committed. It terminates for
      every table, and what arrived meanwhile stays. */
  method PruneStream(table: seq<Row>, cutoffs: nat -> int, arrivals: nat -> seq<Row>, fates: nat -> Fate)
    returns (left: seq<Row>, pass: Pass, ghost kept: seq<Row>, ghost n: nat)
    requires Listed(table) && forall i: nat, j: nat | i <= j :: cutoffs(i) <= cutoffs(j)
    requires Young(arrivals, cutoffs)
    ensures Pruned(table, kept, pass) && Keeps(left, kept, arrivals, n)
    ensures pass.clean ==> exists i: nat :: pass.cutoff == cutoffs(i) && forall j: nat | j <= i :: fates(j) == Done
    ensures Ran(table, cutoffs, fates, n, kept, pass)
  {
    left, pass, kept, n := table, Pass(false, 0, cutoffs(0)), table, 0;
    var i := 0;
    while true
      invariant Underway(table, cutoffs, fates, i, kept, pass.count) && !pass.clean
      invariant Keeps(left, kept, arrivals, n) && n == i
      decreases |kept|
    {
      left, n := left + arrivals(i), n + 1;
      assert Keeps(left, kept, arrivals, n) by {
        assert kept + Arrived(arrivals, i) + arrivals(i) == kept + (Arrived(arrivals, i) + arrivals(i));
      }
      var next, deleted, oldest;
      ghost var rest;
      next, deleted, oldest, rest := RunBatch(left, cutoffs(i), kept, cutoffs, arrivals, n, i);
      if fates(i) != Done {
        BatchFailed(table, cutoffs, fates, i, kept, rest, pass, deleted);
        if fates(i) == AppliedButLost {
          left, kept := next, rest;
        }
        return;
      }
      if deleted < BATCH_LIMIT || oldest == None {
        pass := Pass(true, pass.count + deleted, cutoffs(i));
        BatchFinished(table, cutoffs, fates, i, kept, rest, pass, deleted);
        left, kept := next, rest;
        return;
      }
      BatchWent(table, cutoffs, fates, i, kept, rest, pass.count, deleted);
      left, kept, pass := next, rest, pass.(count := pass.count + deleted);
      i := i + 1;
    }
  }

  /** i batches went through and left more to delete each time. */
  ghost predicate Underway(table: seq<Row>, cutoffs: nat -> int, fates: nat -> Fate, i: nat, kept: seq<Row>, count: nat) {
    Listed(kept) && |kept| + count == |table| && kept == WithoutOldest(table, count) && kept == Batches(table, cutoffs, i) &&
    (forall j: nat | j < i :: LeftMore(table, cutoffs, fates, j)) &&
    forall j: nat | i <= j :: WithoutOlder(kept, cutoffs(j)) == WithoutOlder(table, cutoffs(j))
  }

  /** What batch i does to what was kept. */
  ghost predicate BatchOf(kept: seq<Row>, cutoff: int, rest: seq<Row>, deleted: nat) {
    rest == DeleteBefore(kept, cutoff, BATCH_LIMIT) && Listed(rest) && |rest| == |kept| - deleted &&
    deleted == Min(BATCH_LIMIT, CountEligible(kept, cutoff)) && rest == WithoutOldest(kept, deleted)
  }

  lemma BatchWent(table: seq<Row>, cutoffs: nat -> int, fates: nat -> Fate, i: nat, kept: seq<Row>, rest: seq<Row>,
                  count: nat, deleted: nat)
    requires forall i: nat, j: nat | i <= j :: cutoffs(i) <= cutoffs(j)
    requires Underway(table, cutoffs, fates, i, kept, count) && BatchOf(kept, cutoffs(i), rest, deleted)
    requires fates(i) == Done && CountEligible(kept, cutoffs(i)) > BATCH_LIMIT
    ensures Underway(table, cutoffs, fates, i + 1, rest, count + deleted)
  {
    WithoutOldestComposes(table, count, deleted);
    forall j: nat | i + 1 <= j ensures WithoutOlder(rest, cutoffs(j)) == WithoutOlder(table, cutoffs(j)) {
      EarlierBatchesDoNotMatter(kept, cutoffs(i), BATCH_LIMIT, cutoffs(j));
    }
  }

  lemma BatchFinished(table: seq<Row>, cutoffs: nat -> int, fates: nat -> Fate, i: nat, kept: seq<Row>, rest: seq<Row>,
                      pass: Pass, deleted: nat)
    requires pass.clean && pass.count >= deleted && pass.cutoff == cutoffs(i)
    requires Underway(table, cutoffs, fates, i, kept, pass.count - deleted) && BatchOf(kept, cutoffs(i), rest, deleted)
    requires fates(i) == Done && CountEligible(kept, cutoffs(i)) <= BATCH_LIMIT
    ensures Ran(table, cutoffs, fates, i + 1, rest, pass) && Pruned(table, rest, pass)
    ensures forall j: nat | j <= i :: fates(j) == Done
  {
    WithoutOldestComposes(table, pass.count - deleted, deleted);
    EnoughIsEverything(kept, cutoffs(i), BATCH_LIMIT);
    forall j: nat | j <= i ensures fates(j) == Done {
      assert j < i ==> LeftMore(table, cutoffs, fates, j);
    }
  }

  lemma BatchFailed(table: seq<Row>, cutoffs: nat -> int, fates: nat -> Fate, i: nat, kept: seq<Row>, rest: seq<Row>,
                    pass: Pass, deleted: nat)
    requires !pass.clean && Underway(table, cutoffs, fates, i, kept, pass.count) && BatchOf(kept, cutoffs(i), rest, deleted)
    requires fates(i) != Done
    ensures var left := if fates(i) == AppliedButLost then rest else kept;
            Ran(table, cutoffs, fates, i + 1, left, pass) && Pruned(table, left, pass)
  {
    WithoutOldestComposes(table, pass.count, deleted);
  }

  /** One committed batch: the deletion, its count, and the oldest row still to delete. */
  method RunBatch(left: seq<Row>, cutoff: int, ghost kept: seq<Row>, ghost cutoffs: nat -> int,
                  ghost arrivals: nat -> seq<Row>, ghost n: nat, ghost i: nat)
    returns (next: seq<Row>, deleted: nat, oldest: Option<int>, ghost rest: seq<Row>)
    requires Keeps(left, kept, arrivals, n) && Young(arrivals, cutoffs) && cutoff == cutoffs(i) && Listed(kept)
    ensures Keeps(next, rest, arrivals, n) && rest == DeleteBefore(kept, cutoff, BATCH_LIMIT) && Listed(rest)
    ensures deleted == Min(BATCH_LIMIT, CountEligible(kept, cutoff)) && |rest| == |kept| - deleted
    ensures BatchOf(kept, cutoff, rest, deleted)
    ensures oldest == None <==> CountEligible(kept, cutoff) <= BATCH_LIMIT
  {
    deleted := Min(BATCH_LIMIT, CountEligible(left, cutoff));
    next := DeleteBefore(left, cutoff, BATCH_LIMIT);
    oldest := OldestEligible(next, cutoff);
    rest := DeleteBefore(kept, cutoff, BATCH_LIMIT);
    BatchOfBoth(kept, arrivals, cutoffs, n, i);
    BatchLeaves(kept, cutoff, BATCH_LIMIT);
    BatchDeletesTheOldest(kept, cutoff, BATCH_LIMIT);
    WithoutOldestIsListed(kept, deleted);
  }

  function Counted(passes: seq<Pass>): nat {
    if passes == [] then 0 else Counted(passes[..|passes| - 1]) + passes[|passes| - 1].count
  }

  function Failures(passes: seq<Pass>): nat {
    if passes == [] then 0 else Failures(passes[..|passes| - 1]) + if passes[|passes| - 1].clean then 0 else 1
  }

  /** A stream after its pass: a pruned part of what it was, and whatever arrived. */
  ghost predicate PrunedMeanwhile(table: seq<Row>, left: seq<Row>, pass: Pass, cutoffs: nat -> int,
                                  arrivals: nat -> seq<Row>, fates: nat -> Fate)
  {
    exists n: nat, kept ::
      Keeps(left, kept, arrivals, n) && Pruned(table, kept, pass) && Ran(table, cutoffs, fates, n, kept, pass)
  }

  lemma OneMorePass(passes: seq<Pass>, pass: Pass)
    ensures Counted(passes + [pass]) == Counted(passes) + pass.count
    ensures Failures(passes + [pass]) == Failures(passes) + if pass.clean then 0 else 1
  {
    assert (passes + [pass])[..|passes|] == passes;
  }

  lemma {:induction false} CleanWithoutFailures(passes: seq<Pass>)
    ensures Failures(passes) <= |passes|
    ensures Failures(passes) == 0 ==> forall k | 0 <= k < |passes| :: passes[k].clean
    decreases |passes|
  {
    if passes != [] {
      CleanWithoutFailures(passes[..|passes| - 1]);
    }
  }

  /** The whole pass: every stream is pruned on its own, whether or not an earlier one failed. */
  method Run(tables: array<seq<Row>>, cutoffs: nat -> nat -> int, arrivals: nat -> nat -> seq<Row>,
             fates: nat -> nat -> Fate)
    returns (deleted: nat, failed: nat, passes: seq<Pass>)
    requires forall k | 0 <= k < tables.Length :: Listed(tables[k])
    requires forall k: nat, i: nat, j: nat | i <= j :: cutoffs(k)(i) <= cutoffs(k)(j)
    requires forall k: nat, n: nat, i: nat, row | row in arrivals(k)(n) :: cutoffs(k)(i) <= row.time
    modifies tables
    ensures |passes| == tables.Length && failed <= |passes| && deleted == Counted(passes)
    ensures forall k | 0 <= k < tables.Length ::
              PrunedMeanwhile(old(tables[k]), tables[k], passes[k], cutoffs(k), arrivals(k), fates(k))
    ensures failed == Failures(passes)
    ensures failed == 0 ==> forall k | 0 <= k < |passes| :: passes[k].clean
  {
    deleted, failed, passes := 0, 0, [];
    for k := 0 to tables.Length
      invariant |passes| == k && deleted == Counted(passes)
      invariant forall m | k <= m < tables.Length :: tables[m] == old(tables[m])
      invariant forall m | 0 <= m < k ::
                  PrunedMeanwhile(old(tables[m]), tables[m], passes[m], cutoffs(m), arrivals(m), fates(m))
      invariant failed == Failures(passes)
    {
      var left, pass, _, _ := PruneStream(tables[k], cutoffs(k), arrivals(k), fates(k));
      assert PrunedMeanwhile(tables[k], left, pass, cutoffs(k), arrivals(k), fates(k));
      OneMorePass(passes, pass);
      tables[k], passes := left, passes + [pass];
      deleted, failed := deleted + pass.count, if pass.clean then failed else failed + 1;
    }
    CleanWithoutFailures(passes);
  }
}
