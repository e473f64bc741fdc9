/** Receiving a body into a local spool under an idle limit, a minimum rate and a total deadline,
    and the budget that admits spools. Times are in nanoseconds; a timer fires when it is due. */
module Spool {
  import opened Wrappers
  import opened Lifecycle

  const NANOS: nat := 1_000_000_000
  const TICK_TOLERANCE: nat := 5_000_000

  datatype Limits = Limits(idle: nat, window: nat, rate: nat)

  /** The production limits: 30 s idle, 64 KiB/s measured over 30 s windows. */
  const PRODUCTION := Limits(30 * NANOS, 30 * NANOS, 64 * 1024)

  /** The next thing the body stream yields, ready at `at`; a stream that yields nothing more
      after its last item just stays pending. `takes` is how long writing a chunk takes. */
  datatype Item = Chunk(at: nat, len: nat, takes: nat, writes: bool) | End(at: nat) | Broken(at: nat)

  datatype Outcome = Received(written: nat) | Idle | TooSlow | Deadline | Aborted | TooLarge | WriteFailed

  function CeilDiv(n: nat, d: nat): nat
    requires d > 0
  {
    (n + d - 1) / d
  }

  function TotalDeadline(limits: Limits, start: nat, declaredSize: int): nat
    requires limits.rate > 0
  {
    start + limits.window + CeilDiv(if declaredSize < 0 then 0 else declaredSize, limits.rate) * NANOS
  }

  /** The next tick of an interval that skips the ticks it missed. */
  function NextTick(due: nat, now: nat, period: nat): nat
    requires period > 0 && due <= now
  {
    if now > due + TICK_TOLERANCE then now + period - (now - due) % period else due + period
  }

  function Bytes(items: seq<Item>): nat {
    if items == [] then 0
    else Bytes(items[..|items| - 1]) + if items[|items| - 1].Chunk? then items[|items| - 1].len else 0
  }

  lemma MulOrder(a: int, b: int, d: int)
    ensures d > 0 && a * d <= b * d ==> a <= b
    ensures d >= 0 && a <= b ==> a * d <= b * d
  {
  }

  lemma CeilDivCovers(n: nat, d: nat)
    requires d > 0
    ensures n <= CeilDiv(n, d) * d
  {
  }

  /** A stream that averaged the minimum rate since the start still has a whole window left. */
  lemma AverageLeavesAWindow(limits: Limits, start: nat, at: nat, written: nat, declaredSize: nat)
    requires limits.rate > 0 && start <= at && written <= declaredSize
    requires (at - start) * limits.rate <= written * NANOS
    ensures at + limits.window <= TotalDeadline(limits, start, declaredSize)
  {
    var c := CeilDiv(declaredSize, limits.rate);
    CeilDivCovers(declaredSize, limits.rate);
    MulOrder(written, c * limits.rate, NANOS);
    assert c * limits.rate * NANOS == (c * NANOS) * limits.rate;
    MulOrder(at - start, c * NANOS, limits.rate);
  }

  /** A passed progress check: when, and how many bytes had been written by then. The start of the
      transfer counts as the first. */
  datatype Check = Check(at: nat, bytes: nat)

  /** n times the rate, as a sum, so that the receive loop needs no products. */
  function Times(n: nat, rate: nat): nat {
    if n == 0 then 0 else Times(n - 1, rate) + rate
  }

  lemma {:induction false} TimesIsProduct(n: nat, rate: nat)
    ensures Times(n, rate) == n * rate
  {
    if n > 0 {
      TimesIsProduct(n - 1, rate);
      assert n * rate == (n - 1) * rate + rate;
    }
  }

  lemma {:induction false} TimesAdds(m: nat, n: nat, rate: nat)
    ensures Times(m + n, rate) == Times(m, rate) + Times(n, rate)
  {
    if n > 0 {
      TimesAdds(m, n - 1, rate);
    }
  }

  predicate KeptPace(limits: Limits, earlier: Check, later: Check) {
    earlier.at <= later.at && earlier.bytes <= later.bytes &&
    Times(later.at - earlier.at, limits.rate) <= (later.bytes - earlier.bytes) * NANOS
  }

  lemma NextTickIsWithinAPeriod(due: nat, now: nat, period: nat)
    requires period > 0 && due <= now
    ensures now < NextTick(due, now, period) + TICK_TOLERANCE && due < NextTick(due, now, period) <= now + period
  {
  }

  /** A tick is due a whole number of windows after the start. */
  ghost predicate OnGrid(limits: Limits, start: nat, due: nat) {
    exists k: nat :: k > 0 && due == start + k * limits.window
  }

  lemma GridProduct(q: nat, period: nat, distance: nat)
    requires period > 0 && q == distance / period
    ensures distance == q * period + distance % period && (q + 1) * period == q * period + period
  {
  }

  /** The next tick is due one period later; after a late one it is the first multiple of the period
      that is still to come. */
  lemma NextTickExactly(due: nat, now: nat, period: nat)
    requires period > 0 && due <= now
    ensures now <= due + TICK_TOLERANCE ==> NextTick(due, now, period) == due + period
    ensures now > due + TICK_TOLERANCE ==>
              exists k: nat :: k > 0 && NextTick(due, now, period) == due + k * period &&
                               NextTick(due, now, period) <= now + period && now < NextTick(due, now, period)
  {
    if now > due + TICK_TOLERANCE {
      var q: nat := (now - due) / period;
      GridProduct(q, period, now - due);
      assert NextTick(due, now, period) == due + (q + 1) * period;
    }
  }

  lemma NextTickIsOnGrid(limits: Limits, start: nat, due: nat, now: nat)
    requires limits.window > 0 && due <= now && OnGrid(limits, start, due)
    ensures OnGrid(limits, start, NextTick(due, now, limits.window))
  {
    NextTickExactly(due, now, limits.window);
    var k: nat :| k > 0 && due == start + k * limits.window;
    if now <= due + TICK_TOLERANCE {
      assert NextTick(due, now, limits.window) == start + (k + 1) * limits.window;
    } else {
      var m: nat :| m > 0 && NextTick(due, now, limits.window) == due + m * limits.window;
      assert (k + m) * limits.window == k * limits.window + m * limits.window;
    }
  }

  lemma FirstTickIsOnGrid(limits: Limits, start: nat)
    ensures OnGrid(limits, start, start + limits.window)
  {
    var k: nat := 1;
    assert start + limits.window == start + k * limits.window;
  }

  /** The next check after `earlier` is made by a tick that was due by now, and not before. */
  ghost predicate Ticked(limits: Limits, start: nat, earlier: Check, at: nat) {
    exists due: nat :: OnGrid(limits, start, due) && earlier.at < due + TICK_TOLERANCE && due <= at
  }

  ghost predicate ChecksHold(limits: Limits, start: nat, deadline: nat, checks: seq<Check>) {
    checks != [] && checks[0] == Check(start, 0) &&
    (forall i | 0 <= i < |checks| :: checks[i].at + limits.window <= deadline) &&
    (forall i | 0 < i < |checks| ::
       KeptPace(limits, checks[i - 1], checks[i]) && Ticked(limits, start, checks[i - 1], checks[i].at))
  }

  function Last(checks: seq<Check>): Check
    requires checks != []
  {
    checks[|checks| - 1]
  }

  /** The progress checks passed so far hold, and with them the average since the start. */
  ghost predicate OnPace(limits: Limits, start: nat, deadline: nat, checks: seq<Check>) {
    ChecksHold(limits, start, deadline, checks) && Averaged(limits, start, Last(checks))
  }

  /** The deadline leaves a whole window to any transfer that averaged the minimum rate so far. */
  ghost predicate Generous(limits: Limits, start: nat, deadline: nat, declaredSize: int) {
    start + limits.window <= deadline &&
    forall c: Check | start <= c.at && (c.bytes == 0 || c.bytes <= declaredSize) && Averaged(limits, start, c) ::
      c.at + limits.window <= deadline
  }

  /** The minimum rate held on average since the start. */
  predicate Averaged(limits: Limits, start: nat, c: Check) {
    start <= c.at && Times(c.at - start, limits.rate) <= c.bytes * NANOS
  }

  lemma TotalDeadlineIsGenerous(limits: Limits, start: nat, declaredSize: int)
    requires limits.rate > 0
    ensures Generous(limits, start, TotalDeadline(limits, start, declaredSize), declaredSize)
  {
    forall c: Check | start <= c.at && (c.bytes == 0 || c.bytes <= declaredSize) && Averaged(limits, start, c)
      ensures c.at + limits.window <= TotalDeadline(limits, start, declaredSize)
    {
      TimesIsProduct(c.at - start, limits.rate);
      AverageLeavesAWindow(limits, start, c.at, c.bytes, if declaredSize < 0 then 0 else declaredSize);
    }
  }

  lemma PaceAverages(limits: Limits, start: nat, last: Check, now: Check)
    requires Averaged(limits, start, last) && KeptPace(limits, last, now)
    ensures Averaged(limits, start, now)
  {
    TimesAdds(last.at - start, now.at - last.at, limits.rate);
    assert now.at - start == (last.at - start) + (now.at - last.at);
  }

  lemma PassedCheckHolds(limits: Limits, start: nat, deadline: nat, declaredSize: int, checks: seq<Check>, now: Check)
    requires Generous(limits, start, deadline, declaredSize) && OnPace(limits, start, deadline, checks)
    requires KeptPace(limits, Last(checks), now) && (now.bytes == 0 || now.bytes <= declaredSize)
    requires Ticked(limits, start, Last(checks), now.at)
    ensures OnPace(limits, start, deadline, checks + [now])
  {
    PaceAverages(limits, start, Last(checks), now);
  }

  /** The progress check compares bytes with rate times elapsed time, scaled to nanoseconds. */
  method CheckProgress(limits: Limits, last: Check, now: Check) returns (ok: bool)
    requires last.at <= now.at && last.bytes <= now.bytes
    ensures ok <==> KeptPace(limits, last, now)
  {
    var required := limits.rate * (now.at - last.at);
    var received := (now.bytes - last.bytes) * NANOS;
    TimesIsProduct(now.at - last.at, limits.rate);
    ok := received >= required;
  }

  /** Everything taken so far was written, and the idle limit counts from the last chunk that had
      any bytes. */
  ghost predicate AllWritten(limits: Limits, start: nat, items: seq<Item>, now: nat, written: nat, idleAt: nat) {
    written == Bytes(items) && start + limits.idle <= idleAt <= now + limits.idle &&
    forall i | 0 <= i < |items| ::
      items[i].Chunk? && items[i].writes && (items[i].len > 0 ==> items[i].at + limits.idle <= idleAt)
  }

  lemma OneMoreWritten(limits: Limits, start: nat, items: seq<Item>, now: nat, written: nat, idleAt: nat,
                       item: Item, later: nat)
    requires AllWritten(limits, start, items, now, written, idleAt)
    requires item.Chunk? && item.writes && item.at <= later && now <= later
    ensures AllWritten(limits, start, items + [item], later, written + item.len,
                       if item.len > 0 then later + limits.idle else idleAt)
  {
  }

  /** When the last of these items is taken from the stream: as soon as it is ready and the one
      before it is written. */
  function TakenAt(start: nat, items: seq<Item>): nat
    requires items != []
    decreases |items|, 0
  {
    Max(FreeAt(start, items[..|items| - 1]), items[|items| - 1].at)
  }

  /** When these items are written and the stream is polled again. */
  function FreeAt(start: nat, items: seq<Item>): nat
    decreases |items|, 1
  {
    if items == [] then start
    else TakenAt(start, items) + if items[|items| - 1].Chunk? then items[|items| - 1].takes else 0
  }

  /** The idle limit counts from the moment the last chunk with any bytes was taken, not from the
      moment it was written. */
  function IdleDeadline(limits: Limits, start: nat, items: seq<Item>): nat
    decreases |items|
  {
    if items == [] then start + limits.idle
    else if items[|items| - 1].Chunk? && items[|items| - 1].len > 0 then TakenAt(start, items) + limits.idle
    else IdleDeadline(limits, start, items[..|items| - 1])
  }

  /** Every one of these items was taken before the idle deadline then in force and before the
      total deadline. */
  ghost predicate InTime(limits: Limits, start: nat, deadline: nat, items: seq<Item>)
    decreases |items|
  {
    items != [] ==>
      InTime(limits, start, deadline, items[..|items| - 1]) &&
      TakenAt(start, items) < IdleDeadline(limits, start, items[..|items| - 1]) && TakenAt(start, items) < deadline
  }

  /** By `end` the next item could not have been taken yet. */
  ghost predicate NextNotBefore(start: nat, items: seq<Item>, taken: nat, end: nat)
    requires taken <= |items|
  {
    taken < |items| ==> end <= Max(FreeAt(start, items[..taken]), items[taken].at)
  }

  /** These items are chunks that were written, and within the declaration. */
  predicate Stored(items: seq<Item>, declaredSize: int) {
    (forall i | 0 <= i < |items| :: items[i].Chunk? && items[i].writes) && (items == [] || Bytes(items) <= declaredSize)
  }

  /** When each of these items was taken, a progress check made within the last window had passed. */
  ghost predicate Watched(limits: Limits, start: nat, items: seq<Item>, checks: seq<Check>)
    decreases |items|
  {
    items != [] ==>
      var before := items[..|items| - 1];
      Watched(limits, start, before, checks) &&
      exists c :: c in checks && c.at <= TakenAt(start, items) < c.at + limits.window && c.bytes <= Bytes(before)
  }

  /** A check counts exactly the items written by then. */
  ghost predicate Counts(start: nat, items: seq<Item>, c: Check) {
    exists n: nat :: n <= |items| && c.bytes == Bytes(items[..n]) && FreeAt(start, items[..n]) <= c.at &&
                     NextNotBefore(start, items, n, c.at)
  }

  /** The item last taken ends the transfer, after those before it were stored. */
  ghost predicate EndedByItem(start: nat, deadline: nat, declaredSize: int, before: seq<Item>, item: Item,
                              flushTakes: nat, flushes: bool, r: Outcome, end: nat)
  {
    var at := Max(FreeAt(start, before), item.at);
    Stored(before, declaredSize) &&
    match item
    case Broken(_) => r == Aborted && end == at
    case End(_) =>
      if at + flushTakes > deadline then r == Deadline && end == deadline
      else end == at + flushTakes && r == if flushes then Received(Bytes(before)) else WriteFailed
    case Chunk(_, len, takes, writes) =>
      if Bytes(before) + len > declaredSize then r == TooLarge && end == at
      else if at + takes > deadline then r == Deadline && end == deadline
      else !writes && r == WriteFailed && end == at + takes
  }

  /** A timer ends the transfer while it waits for the next item: no tick or item came before. */
  ghost predicate EndedByTimer(limits: Limits, start: nat, deadline: nat, declaredSize: int, items: seq<Item>, taken: nat,
                               last: Check, r: Outcome, end: nat)
    requires taken <= |items|
  {
    var before := items[..taken];
    var free, idle := FreeAt(start, before), IdleDeadline(limits, start, before);
    Stored(before, declaredSize) && free <= end <= Max(free, last.at + limits.window) &&
    NextNotBefore(start, items, taken, end) &&
    match r
    case Deadline => end == deadline
    case Idle =>
      end == Max(free, idle) && start + limits.idle <= end < deadline &&
      forall i | 0 <= i < taken && items[i].Chunk? && items[i].len > 0 :: items[i].at + limits.idle <= end
    case TooSlow =>
      end < idle && end < deadline && Ticked(limits, start, last, end) &&
      last.bytes <= Bytes(before) && !KeptPace(limits, last, Check(end, Bytes(before)))
    case _ => false
  }

  /** Every item was taken in time, under checks that passed, were made at their ticks and counted. */
  ghost predicate Kept(limits: Limits, start: nat, deadline: nat, items: seq<Item>, taken: nat, checks: seq<Check>, end: nat)
    requires taken <= |items|
  {
    start <= end <= deadline && InTime(limits, start, deadline, items[..taken]) &&
    ChecksHold(limits, start, deadline, checks) && Last(checks).at <= end &&
    (forall i | 0 <= i < |checks| :: Counts(start, items, checks[i])) && Watched(limits, start, items[..taken], checks)
  }

  /** What a finished transfer guarantees. */
  ghost predicate Finished(limits: Limits, start: nat, deadline: nat, declaredSize: int, items: seq<Item>,
                           flushTakes: nat, flushes: bool, r: Outcome, end: nat, taken: nat, checks: seq<Check>)
  {
    taken <= |items| && Kept(limits, start, deadline, items, taken, checks, end) &&
    ((taken > 0 && EndedByItem(start, deadline, declaredSize, items[..taken - 1], items[taken - 1],
                               flushTakes, flushes, r, end)) ||
     EndedByTimer(limits, start, deadline, declaredSize, items, taken, Last(checks), r, end))
  }

  /** Receives, writes and flushes a body. Whatever the chunks and their timing: the call is over
      by the total deadline; success means everything up to the end of the stream was written, and
      no more than declared; the minimum rate was kept from each passed progress check to the next
      and a whole window was left after each, so the deadline only cuts a stream a full window
      after its last passed check; no item is taken more than a window after a check that passed, and
      a slow stream broke the rate. Every item taken was taken before the idle deadline then in force,
      and an idle end means that the next one could not be, because it was not ready or because the
      last write took too long. */
  method Receive(limits: Limits, start: nat, declaredSize: int, items: seq<Item>, flushTakes: nat, flushes: bool)
    returns (r: Outcome, end: nat, taken: nat, checks: seq<Check>)
    requires limits.rate > 0 && limits.window > 0
    ensures Finished(limits, start, TotalDeadline(limits, start, declaredSize), declaredSize, items, flushTakes, flushes,
                     r, end, taken, checks)
  {
    TotalDeadlineIsGenerous(limits, start, declaredSize);
    r, end, taken, checks :=
      ReceiveUntil(limits, start, TotalDeadline(limits, start, declaredSize), declaredSize, items, flushTakes, flushes);
  }

  /** Where the receive loop stands. */
  datatype Loop = Loop(now: nat, taken: nat, written: nat, idleAt: nat, tickAt: nat, checks: seq<Check>)

  ghost predicate Underway(limits: Limits, start: nat, deadline: nat, declaredSize: int, items: seq<Item>, l: Loop) {
    start <= l.now <= deadline && l.taken <= |items| &&
    OnPace(limits, start, deadline, l.checks) && Last(l.checks).at <= l.now && Last(l.checks).bytes <= l.written &&
    (l.taken == 0 || l.written <= declaredSize) &&
    AllWritten(limits, start, items[..l.taken], l.now, l.written, l.idleAt) && Checking(limits, start, items, l) &&
    InTime(limits, start, deadline, items[..l.taken]) && Polling(limits, start, items, l)
  }

  /** The next tick is due within a window of the last check, and all checks so far count. */
  ghost predicate Checking(limits: Limits, start: nat, items: seq<Item>, l: Loop)
    requires l.taken <= |items|
  {
    l.checks != [] && OnGrid(limits, start, l.tickAt) &&
    l.now <= Max(FreeAt(start, items[..l.taken]), Last(l.checks).at) &&
    Last(l.checks).at < l.tickAt + TICK_TOLERANCE && l.tickAt <= Last(l.checks).at + limits.window &&
    (forall i | 0 <= i < |l.checks| :: Counts(start, items, l.checks[i])) &&
    Watched(limits, start, items[..l.taken], l.checks)
  }

  /** The loop waits for nothing but the next item and its timers. */
  ghost predicate Polling(limits: Limits, start: nat, items: seq<Item>, l: Loop)
    requires l.taken <= |items|
  {
    var free := FreeAt(start, items[..l.taken]);
    l.idleAt == IdleDeadline(limits, start, items[..l.taken]) && free <= l.now &&
    (l.now == free || (l.now < l.idleAt && NextNotBefore(start, items, l.taken, l.now)))
  }

  /** When the loop wakes up: the first of its timers or the next item, but not before it waits. */
  function WakeAt(deadline: nat, items: seq<Item>, l: Loop): nat {
    var ready := Min(deadline, Min(l.idleAt, l.tickAt));
    Max(l.now, if l.taken < |items| then Min(ready, items[l.taken].at) else ready)
  }

  lemma WakesByTheTick(limits: Limits, start: nat, deadline: nat, items: seq<Item>, l: Loop)
    requires l.taken <= |items| && Checking(limits, start, items, l)
    ensures WakeAt(deadline, items, l) <= Max(FreeAt(start, items[..l.taken]), Last(l.checks).at + limits.window)
  {
  }

  lemma WakesInTime(limits: Limits, start: nat, deadline: nat, items: seq<Item>, l: Loop)
    requires l.taken <= |items| && Polling(limits, start, items, l)
    ensures var wake, free := WakeAt(deadline, items, l), FreeAt(start, items[..l.taken]);
            free <= wake && NextNotBefore(start, items, l.taken, wake) &&
            (deadline <= wake ==> deadline <= Max(free, l.idleAt)) &&
            (l.idleAt <= wake ==> wake == Max(free, l.idleAt)) &&
            (wake < deadline && wake < l.idleAt && wake < l.tickAt ==>
               l.taken < |items| && wake == Max(free, items[l.taken].at))
  {
  }

  method ReceiveUntil(limits: Limits, start: nat, deadline: nat, declaredSize: int, items: seq<Item>,
                      flushTakes: nat, flushes: bool)
    returns (r: Outcome, end: nat, taken: nat, checks: seq<Check>)
    requires limits.window > 0 && Generous(limits, start, deadline, declaredSize)
    ensures Finished(limits, start, deadline, declaredSize, items, flushTakes, flushes, r, end, taken, checks)
  {
    FirstTickIsOnGrid(limits, start);
    var l := Loop(start, 0, 0, start + limits.idle, start + limits.window, [Check(start, 0)]);
    while true
      invariant Underway(limits, start, deadline, declaredSize, items, l)
      decreases |items| - l.taken, deadline - l.tickAt
    {
      var done;
      done, end, l := Poll(limits, start, deadline, declaredSize, items, l, flushTakes, flushes);
      if done.Some? {
        return done.value, end, l.taken, l.checks;
      }
    }
  }

  lemma UnderwayIsKept(limits: Limits, start: nat, deadline: nat, declaredSize: int, items: seq<Item>, l: Loop, end: nat)
    requires Underway(limits, start, deadline, declaredSize, items, l) && l.now <= end <= deadline
    ensures Kept(limits, start, deadline, items, l.taken, l.checks, end) && Stored(items[..l.taken], declaredSize)
  {
  }

  lemma TimerCuts(limits: Limits, start: nat, deadline: nat, declaredSize: int, items: seq<Item>, l: Loop)
    requires Underway(limits, start, deadline, declaredSize, items, l)
    ensures var wake, last := WakeAt(deadline, items, l), Last(l.checks);
            (deadline <= wake ==>
               wake == deadline &&
               EndedByTimer(limits, start, deadline, declaredSize, items, l.taken, last, Deadline, deadline)) &&
            (l.idleAt <= wake < deadline ==>
               EndedByTimer(limits, start, deadline, declaredSize, items, l.taken, last, Idle, wake)) &&
            l.now <= wake
  {
    WakesInTime(limits, start, deadline, items, l);
    WakesByTheTick(limits, start, deadline, items, l);
    UnderwayIsKept(limits, start, deadline, declaredSize, items, l, l.now);
  }

  /** One wait: for the total deadline, the idle limit, the progress tick and the next item, in this
      order of preference. */
  method Poll(limits: Limits, start: nat, deadline: nat, declaredSize: int, items: seq<Item>, l: Loop,
              flushTakes: nat, flushes: bool)
    returns (done: Option<Outcome>, end: nat, next: Loop)
    requires limits.window > 0 && Generous(limits, start, deadline, declaredSize)
    requires Underway(limits, start, deadline, declaredSize, items, l)
    ensures done.None? ==> Underway(limits, start, deadline, declaredSize, items, next)
    ensures done.None? ==> l.taken < next.taken || (l.taken == next.taken && l.tickAt < next.tickAt && l.tickAt < deadline)
    ensures done.Some? ==>
              Finished(limits, start, deadline, declaredSize, items, flushTakes, flushes, done.value, end, next.taken, next.checks)
  {
    var wake := WakeAt(deadline, items, l);
    WakesInTime(limits, start, deadline, items, l);
    TimerCuts(limits, start, deadline, declaredSize, items, l);
    WakesByTheTick(limits, start, deadline, items, l);
    if deadline <= wake {
      UnderwayIsKept(limits, start, deadline, declaredSize, items, l, deadline);
      return Some(Deadline), deadline, l;
    }
    if l.idleAt <= wake {
      UnderwayIsKept(limits, start, deadline, declaredSize, items, l, wake);
      return Some(Idle), wake, l;
    }
    if l.tickAt <= wake {
      var ok;
      ok, next := Tick(limits, start, deadline, declaredSize, items, l, wake);
      done, end := if ok then None else Some(TooSlow), wake;
    } else {
      done, end, next := TakeItem(limits, start, deadline, declaredSize, items, l, wake, flushTakes, flushes);
      if done.Some? {
        ItemIsKept(limits, start, deadline, declaredSize, items, l, wake, end);
      }
    }
  }

  lemma {:induction false} WatchedByMore(limits: Limits, start: nat, items: seq<Item>, checks: seq<Check>, c: Check)
    requires Watched(limits, start, items, checks)
    ensures Watched(limits, start, items, checks + [c])
    decreases |items|
  {
    if items != [] {
      WatchedByMore(limits, start, items[..|items| - 1], checks, c);
      var d :| d in checks && d.at <= TakenAt(start, items) < d.at + limits.window &&
               d.bytes <= Bytes(items[..|items| - 1]);
      assert d in checks + [c];
    }
  }

  lemma OneMoreCheck(limits: Limits, start: nat, items: seq<Item>, l: Loop, at: nat)
    requires l.taken <= |items| && Checking(limits, start, items, l) && NextNotBefore(start, items, l.taken, at)
    requires l.written == Bytes(items[..l.taken]) && FreeAt(start, items[..l.taken]) <= at
    ensures var checks := l.checks + [Check(at, l.written)];
            (forall i | 0 <= i < |checks| :: Counts(start, items, checks[i])) &&
            Watched(limits, start, items[..l.taken], checks)
  {
    WatchedByMore(limits, start, items[..l.taken], l.checks, Check(at, l.written));
    assert Counts(start, items, Check(at, l.written));
  }

  lemma OneMoreItem(limits: Limits, start: nat, items: seq<Item>, l: Loop)
    requires l.taken < |items| && Checking(limits, start, items, l) && l.written == Bytes(items[..l.taken])
    requires Last(l.checks).bytes <= l.written
    requires Last(l.checks).at <= Max(FreeAt(start, items[..l.taken]), items[l.taken].at) < l.tickAt
    ensures Watched(limits, start, items[..l.taken + 1], l.checks)
  {
    assert items[..l.taken + 1][..l.taken] == items[..l.taken];
    assert Last(l.checks) in l.checks;
  }

  lemma TickFails(limits: Limits, start: nat, deadline: nat, declaredSize: int, items: seq<Item>, l: Loop, wake: nat)
    requires Underway(limits, start, deadline, declaredSize, items, l) && Woken(limits, start, deadline, items, l, wake)
    requires !KeptPace(limits, Last(l.checks), Check(wake, l.written))
    ensures EndedByTimer(limits, start, deadline, declaredSize, items, l.taken, Last(l.checks), TooSlow, wake)
  {
    UnderwayIsKept(limits, start, deadline, declaredSize, items, l, wake);
  }

  /** The tick is what the loop wakes up for. */
  ghost predicate Woken(limits: Limits, start: nat, deadline: nat, items: seq<Item>, l: Loop, wake: nat)
    requires l.taken <= |items| && l.checks != []
  {
    l.now <= wake < deadline && l.tickAt <= wake < l.idleAt && NextNotBefore(start, items, l.taken, wake) &&
    wake <= Max(FreeAt(start, items[..l.taken]), Last(l.checks).at + limits.window)
  }

  lemma TickPasses(limits: Limits, start: nat, deadline: nat, declaredSize: int, items: seq<Item>, l: Loop, wake: nat)
    requires limits.window > 0 && Generous(limits, start, deadline, declaredSize)
    requires Underway(limits, start, deadline, declaredSize, items, l) && Woken(limits, start, deadline, items, l, wake)
    requires KeptPace(limits, Last(l.checks), Check(wake, l.written))
    ensures var tickAt := NextTick(l.tickAt, wake, limits.window);
            var next := l.(now := wake, tickAt := tickAt, checks := l.checks + [Check(wake, l.written)]);
            Underway(limits, start, deadline, declaredSize, items, next) && l.tickAt < tickAt
  {
    assert Ticked(limits, start, Last(l.checks), wake);
    PassedCheckHolds(limits, start, deadline, declaredSize, l.checks, Check(wake, l.written));
    NextTickIsWithinAPeriod(l.tickAt, wake, limits.window);
    NextTickIsOnGrid(limits, start, l.tickAt, wake);
    OneMoreCheck(limits, start, items, l, wake);
  }

  /** The progress tick. */
  method Tick(limits: Limits, start: nat, deadline: nat, declaredSize: int, items: seq<Item>, l: Loop, wake: nat)
    returns (ok: bool, next: Loop)
    requires limits.window > 0 && Generous(limits, start, deadline, declaredSize)
    requires Underway(limits, start, deadline, declaredSize, items, l) && Woken(limits, start, deadline, items, l, wake)
    ensures next.taken == l.taken
    ensures ok ==> Underway(limits, start, deadline, declaredSize, items, next) && l.tickAt < next.tickAt
    ensures !ok ==>
              next == l && Kept(limits, start, deadline, items, l.taken, l.checks, wake) &&
              EndedByTimer(limits, start, deadline, declaredSize, items, l.taken, Last(l.checks), TooSlow, wake)
  {
    ok := CheckProgress(limits, Last(l.checks), Check(wake, l.written));
    next := l;
    if ok {
      TickPasses(limits, start, deadline, declaredSize, items, l, wake);
      var tickAt := NextTick(l.tickAt, wake, limits.window);
      next := l.(now := wake, tickAt := tickAt, checks := l.checks + [Check(wake, l.written)]);
    } else {
      TickFails(limits, start, deadline, declaredSize, items, l, wake);
      UnderwayIsKept(limits, start, deadline, declaredSize, items, l, wake);
    }
  }

  lemma TakenInTime(limits: Limits, start: nat, deadline: nat, items: seq<Item>, item: Item)
    requires InTime(limits, start, deadline, items)
    requires var wake := Max(FreeAt(start, items), item.at); wake < deadline && wake < IdleDeadline(limits, start, items)
    ensures var wake := Max(FreeAt(start, items), item.at);
            InTime(limits, start, deadline, items + [item]) && TakenAt(start, items + [item]) == wake &&
            FreeAt(start, items + [item]) == wake + (if item.Chunk? then item.takes else 0) &&
            IdleDeadline(limits, start, items + [item]) ==
              if item.Chunk? && item.len > 0 then wake + limits.idle else IdleDeadline(limits, start, items)
  {
    assert (items + [item])[..|items + [item]| - 1] == items;
  }

  /** The next item is what the loop wakes up for. */
  predicate Offered(start: nat, deadline: nat, items: seq<Item>, l: Loop, wake: nat) {
    l.taken < |items| && l.now <= wake < deadline && wake < l.idleAt && wake < l.tickAt &&
    wake == Max(FreeAt(start, items[..l.taken]), items[l.taken].at)
  }

  lemma ItemIsKept(limits: Limits, start: nat, deadline: nat, declaredSize: int, items: seq<Item>, l: Loop, wake: nat, end: nat)
    requires Underway(limits, start, deadline, declaredSize, items, l) && Offered(start, deadline, items, l, wake)
    requires wake <= end <= deadline
    ensures Kept(limits, start, deadline, items, l.taken + 1, l.checks, end) && Stored(items[..l.taken], declaredSize)
    ensures TakenAt(start, items[..l.taken + 1]) == wake
  {
    assert items[..l.taken + 1] == items[..l.taken] + [items[l.taken]];
    TakenInTime(limits, start, deadline, items[..l.taken], items[l.taken]);
    OneMoreItem(limits, start, items, l);
    UnderwayIsKept(limits, start, deadline, declaredSize, items, l, wake);
  }

  lemma ItemIsUnderway(limits: Limits, start: nat, deadline: nat, declaredSize: int, items: seq<Item>, l: Loop, next: Loop, wake: nat)
    requires Underway(limits, start, deadline, declaredSize, items, l) && Offered(start, deadline, items, l, wake)
    requires next == l.(now := next.now, taken := l.taken + 1, written := next.written, idleAt := next.idleAt)
    requires items[l.taken].Chunk? && next.written == l.written + items[l.taken].len <= declaredSize
    requires next.now == wake + items[l.taken].takes <= deadline
    requires next.idleAt == if items[l.taken].len > 0 then wake + limits.idle else l.idleAt
    requires AllWritten(limits, start, items[..l.taken] + [items[l.taken]], next.now, next.written, next.idleAt)
    ensures Underway(limits, start, deadline, declaredSize, items, next)
  {
    assert items[..l.taken + 1] == items[..l.taken] + [items[l.taken]];
    TakenInTime(limits, start, deadline, items[..l.taken], items[l.taken]);
    OneMoreItem(limits, start, items, l);
  }

  /** The next thing the stream yielded: a chunk to write, its end, or an error. */
  method TakeItem(limits: Limits, start: nat, deadline: nat, declaredSize: int, items: seq<Item>, l: Loop, wake: nat,
                  flushTakes: nat, flushes: bool)
    returns (done: Option<Outcome>, end: nat, next: Loop)
    requires Underway(limits, start, deadline, declaredSize, items, l) && Offered(start, deadline, items, l, wake)
    ensures next.taken == l.taken + 1 && next.checks == l.checks
    ensures done.None? ==> Underway(limits, start, deadline, declaredSize, items, next)
    ensures done.Some? ==>
              wake <= end <= deadline &&
              EndedByItem(start, deadline, declaredSize, items[..l.taken], items[l.taken], flushTakes, flushes, done.value, end)
  {
    var item := items[l.taken];
    UnderwayIsKept(limits, start, deadline, declaredSize, items, l, wake);
    next, end, done := l.(now := wake, taken := l.taken + 1), wake, None;
    match item {
      case End(_) =>
        var r;
        r, end := Flush(deadline, wake, l.written, flushTakes, flushes);
        done := Some(r);
      case Broken(_) =>
        done := Some(Aborted);
      case Chunk(_, _, _, _) =>
        var later, idleAt;
        done, end, later, idleAt :=
          TakeChunk(limits, start, deadline, declaredSize, items[..l.taken], wake, l.written, l.idleAt, item);
        next := next.(now := end, written := later, idleAt := idleAt);
        if done.None? {
          ItemIsUnderway(limits, start, deadline, declaredSize, items, l, next, wake);
        }
    }
  }

  /** Counts one chunk, refuses what exceeds the declaration, and writes it before the deadline. */
  method TakeChunk(limits: Limits, start: nat, deadline: nat, declaredSize: int, ghost before: seq<Item>,
                   now: nat, written: nat, idleAt: nat, item: Item)
    returns (failure: Option<Outcome>, stop: nat, later: nat, next: nat)
    requires item.Chunk? && item.at <= now <= deadline && AllWritten(limits, start, before, now, written, idleAt)
    ensures now <= stop <= deadline && later == written + item.len
    ensures failure == if later > declaredSize then Some(TooLarge)
                       else if now + item.takes > deadline then Some(Deadline)
                       else if !item.writes then Some(WriteFailed) else None
    ensures stop == if later > declaredSize then now else Min(deadline, now + item.takes)
    ensures failure.None? ==> AllWritten(limits, start, before + [item], stop, later, next) && stop == now + item.takes
    ensures next == if item.len > 0 then now + limits.idle else idleAt
  {
    next := if item.len > 0 then now + limits.idle else idleAt;
    later, stop, failure := written + item.len, now, None;
    if later > declaredSize {
      failure := Some(TooLarge);
    } else if now + item.takes > deadline {
      failure, stop := Some(Deadline), deadline;
    } else {
      stop := now + item.takes;
      if !item.writes {
        failure := Some(WriteFailed);
      } else {
        OneMoreWritten(limits, start, before, now, written, idleAt, item, now);
      }
    }
  }

  method Flush(deadline: nat, now: nat, written: nat, takes: nat, ok: bool) returns (r: Outcome, end: nat)
    requires now <= deadline
    ensures end == Min(deadline, now + takes)
    ensures r == if now + takes > deadline then Deadline else if ok then Received(written) else WriteFailed
  {
    if now + takes > deadline {
      return Deadline, deadline;
    }
    r, end := if ok then Received(written) else WriteFailed, now + takes;
  }

  // ---- whom the rate cuts ----

  lemma {:induction false} ChecksAverage(limits: Limits, start: nat, deadline: nat, checks: seq<Check>, i: nat)
    requires ChecksHold(limits, start, deadline, checks) && i < |checks|
    ensures Averaged(limits, start, checks[i])
  {
    if i > 0 {
      ChecksAverage(limits, start, deadline, checks, i - 1);
      PaceAverages(limits, start, checks[i - 1], checks[i]);
    }
  }

  lemma {:induction false} WatchedAt(limits: Limits, start: nat, items: seq<Item>, checks: seq<Check>, k: nat)
    requires Watched(limits, start, items, checks) && k < |items|
    ensures exists c :: c in checks && c.at <= TakenAt(start, items[..k + 1]) < c.at + limits.window &&
                        c.bytes <= Bytes(items[..k])
    decreases |items|
  {
    assert items[..|items|] == items;
    if k < |items| - 1 {
      WatchedAt(limits, start, items[..|items| - 1], checks, k);
      assert items[..|items| - 1][..k + 1] == items[..k + 1] && items[..|items| - 1][..k] == items[..k];
    }
  }

  lemma CheckEnforcesRate(limits: Limits, start: nat, c: Check, at: int, bytes: int)
    requires Averaged(limits, start, c) && at < c.at + limits.window && c.bytes <= bytes
    ensures limits.rate * (at - start - limits.window) <= bytes * NANOS
  {
    TimesIsProduct(c.at - start, limits.rate);
    MulOrder(at - start - limits.window, c.at - start, limits.rate);
    MulOrder(c.bytes, bytes, NANOS);
  }

  lemma ChecksEnforceRate(limits: Limits, start: nat, deadline: nat, items: seq<Item>, checks: seq<Check>, k: nat)
    requires ChecksHold(limits, start, deadline, checks) && Watched(limits, start, items, checks) && k < |items|
    ensures limits.rate * (TakenAt(start, items[..k + 1]) - start - limits.window) <= Bytes(items[..k]) * NANOS
  {
    WatchedAt(limits, start, items, checks, k);
    var at, bytes := TakenAt(start, items[..k + 1]), Bytes(items[..k]);
    var c :| c in checks && c.at <= at < c.at + limits.window && c.bytes <= bytes;
    var i :| 0 <= i < |checks| && checks[i] == c;
    ChecksAverage(limits, start, deadline, checks, i);
    CheckEnforcesRate(limits, start, c, at, bytes);
  }

  /** Whatever item is taken, what had been sent before it averages the minimum rate up to a window
      before: no stream that falls further behind gets an item through. */
  lemma RateIsEnforced(limits: Limits, start: nat, deadline: nat, declaredSize: int, items: seq<Item>, flushTakes: nat,
                       flushes: bool, r: Outcome, end: nat, taken: nat, checks: seq<Check>, k: nat)
    requires Finished(limits, start, deadline, declaredSize, items, flushTakes, flushes, r, end, taken, checks) && k < taken
    ensures limits.rate * (TakenAt(start, items[..k + 1]) - start - limits.window) <= Bytes(items[..k]) * NANOS
  {
    ChecksEnforceRate(limits, start, deadline, items[..taken], checks, k);
    assert items[..taken][..k + 1] == items[..k + 1] && items[..taken][..k] == items[..k];
  }

  /** Three bytes in 45 s. */
  function Trickle(): seq<Item> {
    [Chunk(10 * NANOS, 1, 0, true), Chunk(29 * NANOS, 1, 0, true), Chunk(45 * NANOS, 1, 0, true), End(46 * NANOS)]
  }

  lemma TrickleTimes()
    ensures var items := Trickle();
            FreeAt(0, items[..0]) == 0 && FreeAt(0, items[..1]) == 10 * NANOS && FreeAt(0, items[..2]) == 29 * NANOS &&
            TakenAt(0, items[..3]) == 45 * NANOS &&
            IdleDeadline(PRODUCTION, 0, items[..0]) == 30 * NANOS &&
            IdleDeadline(PRODUCTION, 0, items[..1]) == 40 * NANOS && IdleDeadline(PRODUCTION, 0, items[..2]) == 59 * NANOS &&
            Bytes(items[..1]) == 1 && Bytes(items[..2]) == 2
  {
    var items := Trickle();
    assert items[..1] == [items[0]] && items[..1][..0] == [];
    assert items[..2] == [items[0], items[1]] && items[..2][..1] == items[..1];
    assert items[..3] == [items[0], items[1], items[2]] && items[..3][..2] == items[..2];
  }

  /** At the production limits, with 50 s to the deadline, the transfer can only end as too slow. */
  lemma TrickleEndsAsTooSlow(flushTakes: nat, flushes: bool, r: Outcome, end: nat, taken: nat, checks: seq<Check>)
    requires Finished(PRODUCTION, 0, TotalDeadline(PRODUCTION, 0, 20 * PRODUCTION.rate), 20 * PRODUCTION.rate, Trickle(),
                      flushTakes, flushes, r, end, taken, checks)
    ensures r == TooSlow && taken == 2
  {
    var items := Trickle();
    TrickleTimes();
    if taken > 2 {
      RateIsEnforced(PRODUCTION, 0, TotalDeadline(PRODUCTION, 0, 20 * PRODUCTION.rate), 20 * PRODUCTION.rate, items,
                     flushTakes, flushes, r, end, taken, checks, 2);
      assert false;
    }
    assert Bytes(items[..0]) == 0;
  }

  // ---- whom the idle limit cuts ----

  /** Writing a chunk with any bytes takes at most w, and an empty one no time. */
  predicate WritesWithin(items: seq<Item>, w: nat) {
    forall i | 0 <= i < |items| && items[i].Chunk? :: items[i].takes <= if items[i].len > 0 then w else 0
  }

  /** The stream had nothing more to offer before the idle deadline. */
  predicate WasIdle(limits: Limits, start: nat, items: seq<Item>, n: nat)
    requires n <= |items|
  {
    n < |items| ==> IdleDeadline(limits, start, items[..n]) <= items[n].at
  }

  /** Whatever is declared and sent, with writes of at most w a reception that ends as idle had a
      stream with nothing more to offer in time. */
  ghost predicate CutsOnlyIdleStreams(limits: Limits, w: nat)
    requires limits.rate > 0
  {
    forall start: nat, declaredSize: int, items, flushTakes: nat, flushes, end: nat, taken: nat, checks |
      Finished(limits, start, TotalDeadline(limits, start, declaredSize), declaredSize, items, flushTakes, flushes,
               Idle, end, taken, checks) && WritesWithin(items, w) ::
      WasIdle(limits, start, items, taken)
  }

  lemma {:induction false} FreeBeforeIdle(limits: Limits, start: nat, deadline: nat, items: seq<Item>, w: nat)
    requires InTime(limits, start, deadline, items) && WritesWithin(items, w) && w < limits.idle
    ensures FreeAt(start, items) < IdleDeadline(limits, start, items)
    decreases |items|
  {
    if items != [] {
      FreeBeforeIdle(limits, start, deadline, items[..|items| - 1], w);
    }
  }

  /** The first chunk takes long to write, and the second is ready all the while. */
  function SlowWrite(takes: nat, at: nat): seq<Item> {
    [Chunk(0, 1, takes, true), Chunk(at, 1, 0, true), End(at)]
  }

  lemma SlowWriteTimes(limits: Limits, takes: nat, at: nat)
    requires at <= takes
    ensures var items := SlowWrite(takes, at);
            FreeAt(0, items[..0]) == 0 && IdleDeadline(limits, 0, items[..0]) == limits.idle &&
            FreeAt(0, items[..1]) == takes && IdleDeadline(limits, 0, items[..1]) == limits.idle &&
            TakenAt(0, items[..1]) == 0 && TakenAt(0, items[..2]) == takes && Bytes(items[..1]) == 1
  {
    var items := SlowWrite(takes, at);
    assert items[..1] == [items[0]] && items[..1][..0] == [];
    assert items[..2] == [items[0], items[1]] && items[..2][..1] == items[..1];
  }

  /** Before the second chunk of such a stream can be taken, the idle limit has run out. */
  lemma SlowWriteStopsAtOne(limits: Limits, deadline: nat, takes: nat, at: nat, taken: nat)
    requires at <= takes && limits.idle <= takes && taken <= 3
    requires InTime(limits, 0, deadline, SlowWrite(takes, at)[..taken])
    ensures taken <= 1
  {
    var items := SlowWrite(takes, at);
    SlowWriteTimes(limits, takes, at);
    assert items[..2][..1] == items[..1] && items[..3][..2] == items[..2];
    assert !InTime(limits, 0, deadline, items[..2]);
  }

  /** Whatever `Receive` may return for such a stream is Idle, at the end of the slow write, although
      the second chunk was ready before the idle deadline. */
  lemma SlowWriteIsCutAsIdle(limits: Limits, takes: nat, at: nat, declaredSize: int, flushTakes: nat, flushes: bool,
                           r: Outcome, end: nat, taken: nat, checks: seq<Check>)
    requires limits.rate > 0 && at < limits.idle <= takes < TotalDeadline(limits, 0, declaredSize) && declaredSize >= 2
    requires Finished(limits, 0, TotalDeadline(limits, 0, declaredSize), declaredSize, SlowWrite(takes, at), flushTakes, flushes,
                      r, end, taken, checks)
    ensures r == Idle && end == takes && taken == 1 && !WasIdle(limits, 0, SlowWrite(takes, at), taken)
  {
    var items := SlowWrite(takes, at);
    SlowWriteStopsAtOne(limits, TotalDeadline(limits, 0, declaredSize), takes, at, taken);
    SlowWriteTimes(limits, takes, at);
  }

  lemma SlowWriteCanEndAsIdle(limits: Limits, takes: nat, at: nat, declaredSize: int)
    requires limits.rate > 0 && limits.window > 0 && at < limits.idle <= takes < TotalDeadline(limits, 0, declaredSize)
    requires declaredSize >= 1
    ensures Finished(limits, 0, TotalDeadline(limits, 0, declaredSize), declaredSize, SlowWrite(takes, at), 0, true,
                     Idle, takes, 1, [Check(0, 0)])
  {
    SlowWriteTimes(limits, takes, at);
    assert SlowWrite(takes, at)[..1][..0] == [];
  }

  /** At the production limits: a 40 s write within a transfer that may take 50 s. */
  lemma SlowWriteEndsAsIdle(flushTakes: nat, flushes: bool, r: Outcome, end: nat, taken: nat, checks: seq<Check>)
    requires Finished(PRODUCTION, 0, TotalDeadline(PRODUCTION, 0, 20 * PRODUCTION.rate), 20 * PRODUCTION.rate,
                      SlowWrite(40 * NANOS, NANOS), flushTakes, flushes, r, end, taken, checks)
    ensures r == Idle && end == 40 * NANOS && taken == 1 &&
            TotalDeadline(PRODUCTION, 0, 20 * PRODUCTION.rate) == 50 * NANOS
  {
    SlowWriteIsCutAsIdle(PRODUCTION, 40 * NANOS, NANOS, 20 * PRODUCTION.rate, flushTakes, flushes, r, end, taken, checks);
  }

  /** A declaration that leaves the idle limit time to run out before the deadline. */
  lemma IdleComesBeforeTheDeadline(limits: Limits)
    requires limits.rate > 0
    ensures limits.idle < TotalDeadline(limits, 0, limits.rate * (limits.idle + 1))
  {
    CeilDivCovers(limits.rate * (limits.idle + 1), limits.rate);
    MulOrder(limits.idle + 1, CeilDiv(limits.rate * (limits.idle + 1), limits.rate), limits.rate);
  }

  lemma LongWritesCutABusyStream(limits: Limits, w: nat)
    requires limits.rate > 0 && limits.window > 0 && limits.idle <= w
    ensures !CutsOnlyIdleStreams(limits, w)
  {
    var declaredSize := limits.rate * (limits.idle + 1);
    IdleComesBeforeTheDeadline(limits);
    if limits.idle > 0 {
      SlowWriteCanEndAsIdle(limits, limits.idle, 0, declaredSize);
      SlowWriteTimes(limits, limits.idle, 0);
      assert !WasIdle(limits, 0, SlowWrite(limits.idle, 0), 1);
    } else {
      assert Finished(limits, 1, TotalDeadline(limits, 1, declaredSize), declaredSize, [End(0)], 0, true,
                      Idle, 1, 0, [Check(1, 0)]);
      assert !WasIdle(limits, 1, [End(0)], 0);
    }
  }

  /** The idle deadline runs while a chunk is being written and is polled before the stream, so the
      limit is fair to busy streams exactly when every write is shorter than it. */
  lemma IdleLimitIsFairExactlyWhen(limits: Limits, w: nat)
    requires limits.rate > 0 && limits.window > 0
    ensures CutsOnlyIdleStreams(limits, w) <==> w < limits.idle
  {
    if w < limits.idle {
      forall start: nat, declaredSize: int, items, flushTakes: nat, flushes, end: nat, taken: nat, checks |
        Finished(limits, start, TotalDeadline(limits, start, declaredSize), declaredSize, items, flushTakes, flushes,
                 Idle, end, taken, checks) && WritesWithin(items, w)
        ensures WasIdle(limits, start, items, taken)
      {
        FreeBeforeIdle(limits, start, TotalDeadline(limits, start, declaredSize), items[..taken], w);
      }
    } else {
      LongWritesCutABusyStream(limits, w);
    }
  }
}
