/** Storages and the locations reserved on them: a storage that holds locations keeps the address
    they were reserved under, however replacements, reservations and deletions interleave. One
    step is one statement of a transaction; row locks are held from a statement to its commit. */
module Registry {

  /** Where the bytes physically are. */
  datatype Address = Address(
    kind: string, endpoint: string, publicEndpoint: string, region: string, bucket: string, pathStyle: bool)

  datatype Storage = Storage(address: Address, credentials: string, forceRelay: bool, capacity: int)

  /** `address` is bookkeeping: the address of the storage when the location was reserved. */
  datatype Location = Location(storage: string, address: Address)

  datatype Proc =
    | Idle
    | Locked(id: string, row: Storage)             // row lock held, current row read
    | Cleared(id: string, row: Storage)            // address kept, or no location found
    | Reserving(file: nat, id: string, address: Address)  // share lock held, location not committed

  datatype State = State(storages: map<string, Storage>, locations: map<nat, Location>, procs: map<nat, Proc>)

  datatype Outcome = Updated | NotFound | LocationInUse | LockWaitFailed

  datatype Action =
    | Insert(id: string, row: Storage)
    | LockForUpdate(a: nat, id: string, row: Storage)
    | CheckUse(a: nat)
    | CommitUpdate(a: nat)
    | LockForShare(a: nat, file: nat, id: string)
    | CommitReservation(a: nat)
    | Rollback(a: nat)
    | ReleaseLocation(file: nat)
    | DeleteStorage(id: string)

  function ProcOf(s: State, a: nat): Proc {
    if a in s.procs then s.procs[a] else Idle
  }

  function With(s: State, a: nat, p: Proc): State {
    s.(procs := s.procs[a := p])
  }

  predicate Exclusive(p: Proc, id: string) {
    (p.Locked? || p.Cleared?) && p.id == id
  }

  predicate Shared(p: Proc, id: string) {
    p.Reserving? && p.id == id
  }

  predicate InUse(s: State, id: string) {
    exists f | f in s.locations :: s.locations[f].storage == id
  }

  /** Nobody holds a lock on the row that excludes an exclusive one. */
  predicate Unlocked(s: State, id: string) {
    forall a | a in s.procs :: !Exclusive(s.procs[a], id) && !Shared(s.procs[a], id)
  }

  predicate NotExclusive(s: State, id: string) {
    forall a | a in s.procs :: !Exclusive(s.procs[a], id)
  }

  function Next(s: State, x: Action): State {
    match x
    case Insert(id, row) => if id in s.storages then s else s.(storages := s.storages[id := row])
    case LockForUpdate(a, id, row) =>
      if ProcOf(s, a) == Idle && id in s.storages && Unlocked(s, id) then With(s, a, Locked(id, row)) else s
    case CheckUse(a) =>
      (match ProcOf(s, a)
       case Locked(id, row) =>
         if id in s.storages && s.storages[id].address != row.address && InUse(s, id) then With(s, a, Idle)
         else With(s, a, Cleared(id, row))
       case _ => s)
    case CommitUpdate(a) =>
      (match ProcOf(s, a)
       case Cleared(id, row) => With(if id in s.storages then s.(storages := s.storages[id := row]) else s, a, Idle)
       case _ => s)
    case LockForShare(a, file, id) =>
      if ProcOf(s, a) == Idle && id in s.storages && NotExclusive(s, id)
      then With(s, a, Reserving(file, id, s.storages[id].address)) else s
    case CommitReservation(a) =>
      (match ProcOf(s, a)
       case Reserving(file, id, address) =>
         if file in s.locations then With(s, a, Idle)
         else With(s.(locations := s.locations[file := Location(id, address)]), a, Idle)
       case _ => s)
    case Rollback(a) => if a in s.procs then With(s, a, Idle) else s
    case ReleaseLocation(file) => s.(locations := s.locations - {file})
    case DeleteStorage(id) =>
      if Unlocked(s, id) && !InUse(s, id) then s.(storages := s.storages - {id}) else s
  }

  function Run(s: State, xs: seq<Action>): State
    decreases |xs|
  {
    if xs == [] then s else Next(Run(s, xs[..|xs| - 1]), xs[|xs| - 1])
  }

  function Empty(): State {
    State(map[], map[], map[])
  }

  ghost predicate Stable(s: State) {
    forall f | f in s.locations ::
      s.locations[f].storage in s.storages && s.storages[s.locations[f].storage].address == s.locations[f].address
  }

  predicate Excludes(p: Proc, q: Proc) {
    !p.Idle? && Exclusive(p, p.id) ==> !Exclusive(q, p.id) && !Shared(q, p.id)
  }

  ghost predicate LocksExclude(s: State) {
    forall a, b | a in s.procs && b in s.procs && a != b :: Excludes(s.procs[a], s.procs[b])
  }

  ghost predicate ProcInv(s: State, p: Proc) {
    match p
    case Idle => true
    case Locked(id, row) => id in s.storages
    case Cleared(id, row) => id in s.storages && (s.storages[id].address == row.address || !InUse(s, id))
    case Reserving(file, id, address) => id in s.storages && s.storages[id].address == address
  }

  ghost predicate Inv(s: State) {
    Stable(s) && LocksExclude(s) && forall a | a in s.procs :: ProcInv(s, s.procs[a])
  }

  lemma StepKeepsStable(s: State, x: Action)
    requires Inv(s)
    ensures Stable(Next(s, x))
  {
  }

  lemma StepKeepsLocks(s: State, x: Action)
    requires LocksExclude(s)
    ensures LocksExclude(Next(s, x))
  {
  }

  lemma StepKeepsProc(s: State, x: Action, b: nat)
    requires Inv(s) && b in Next(s, x).procs
    ensures ProcInv(Next(s, x), Next(s, x).procs[b])
  {
    if b in s.procs {
      assert forall a | a in s.procs && a != b :: Excludes(s.procs[a], s.procs[b]) && Excludes(s.procs[b], s.procs[a]);
    }
  }

  lemma NextKeepsInv(s: State, x: Action)
    requires Inv(s)
    ensures Inv(Next(s, x))
  {
    StepKeepsStable(s, x);
    StepKeepsLocks(s, x);
    forall b | b in Next(s, x).procs ensures ProcInv(Next(s, x), Next(s, x).procs[b]) {
      StepKeepsProc(s, x, b);
    }
  }

  lemma {:induction false} RunKeepsInv(s: State, xs: seq<Action>)
    requires Inv(s)
    ensures Inv(Run(s, xs))
    decreases |xs|
  {
    if xs != [] {
      RunKeepsInv(s, xs[..|xs| - 1]);
      NextKeepsInv(Run(s, xs[..|xs| - 1]), xs[|xs| - 1]);
    }
  }

  /** In every history of reservations, replacements, rotations, releases and deletions, every
      location's storage exists and still has the address the location was reserved under. */
  lemma AddressingIsStable(xs: seq<Action>, file: nat)
    requires file in Run(Empty(), xs).locations
    ensures var s := Run(Empty(), xs);
            s.locations[file].storage in s.storages &&
            s.storages[s.locations[file].storage].address == s.locations[file].address
  {
    RunKeepsInv(Empty(), xs);
  }

  /** The check has to come after the lock: a replacement that looked first would miss a
      reservation committed in between and move it. */
  lemma CheckBeforeLockWouldMoveLocations(s: State, a: nat, b: nat, file: nat, id: string, row: Storage)
    requires Inv(s) && a != b && ProcOf(s, a) == Idle && ProcOf(s, b) == Idle && id in s.storages
    requires Unlocked(s, id) && !InUse(s, id) && file !in s.locations && row.address != s.storages[id].address
    ensures var early := With(s, a, Cleared(id, row));
            var t := Run(With(s, a, Idle), [LockForShare(b, file, id), CommitReservation(b)]);
            !Stable(Next(With(t, a, early.procs[a]), CommitUpdate(a)))
  {
    var s0 := With(s, a, Idle);
    var x, y := LockForShare(b, file, id), CommitReservation(b);
    assert [x, y][..1] == [x] && [x][..0] == [];
    var s1 := Next(s0, x);
    assert ProcOf(s1, b) == Reserving(file, id, s.storages[id].address);
    var t := Next(s1, y);
    assert Run(s0, [x]) == s1;
    assert Run(s0, [x, y]) == t;
    assert file in t.locations;
    var u := Next(With(t, a, Cleared(id, row)), CommitUpdate(a));
    assert u.locations[file].address != u.storages[id].address;
  }

  /** A reservation that nobody races for is recorded at the address its storage has, and touches no
      other row. */
  lemma ReservationIsRecorded(s: State, a: nat, file: nat, id: string)
    requires ProcOf(s, a) == Idle && id in s.storages && NotExclusive(s, id) && file !in s.locations
    ensures var t := Next(Next(s, LockForShare(a, file, id)), CommitReservation(a));
            t.storages == s.storages && t.locations == s.locations[file := Location(id, s.storages[id].address)] &&
            ProcOf(t, a) == Idle
  {
    assert ProcOf(Next(s, LockForShare(a, file, id)), a) == Reserving(file, id, s.storages[id].address);
  }

  /** A storage is deleted exactly when nobody holds its row and no location is left on it. */
  lemma DeletedExactlyWhenUnused(s: State, id: string)
    requires id in s.storages
    ensures var t := Next(s, DeleteStorage(id));
            (id !in t.storages <==> Unlocked(s, id) && forall f | f in s.locations :: s.locations[f].storage != id) &&
            t.locations == s.locations && forall k | k != id :: (k in t.storages <==> k in s.storages)
  {
  }

  /** The transaction of a storage replacement, with other transactions in between. `last` is this
      transaction's latest statement and `found` the state in which it ran. */
  class Database {
    const others: nat -> seq<Action>
    var clock: nat
    var s: State
    ghost var found: State
    ghost var last: Action

    constructor (others: nat -> seq<Action>)
      ensures Valid() && s == Empty()
    {
      this.others := others;
      clock, s, found, last := 0, Empty(), Empty(), ReleaseLocation(0);
    }

    ghost predicate Valid()
      reads this
    {
      Inv(s)
    }

    method Yield(me: nat)
      requires Valid()
      modifies this`clock, this`s
      ensures Valid() && ProcOf(s, me) == old(ProcOf(s, me)) && clock == old(clock) + 1
    {
      var batch := others(clock);
      clock := clock + 1;
      for i := 0 to |batch|
        invariant Valid() && ProcOf(s, me) == old(ProcOf(s, me)) && clock == old(clock) + 1
      {
        if !ActsFor(batch[i], me) {
          NextKeepsInv(s, batch[i]);
          OthersKeepPlace(s, batch[i], me);
          s := Next(s, batch[i]);
        }
      }
    }

    method Act(x: Action)
      requires Valid()
      modifies this`s, this`found, this`last
      ensures Valid() && s == Next(old(s), x) && found == old(s) && last == x
    {
      NextKeepsInv(s, x);
      s, found, last := Next(s, x), s, x;
    }

    /** Waits for the row lock, but gives up after `patience` turns of the others. */
    method AwaitLock(me: nat, id: string, row: Storage, patience: nat) returns (locked: bool)
      requires Valid() && ProcOf(s, me) == Idle
      modifies this
      ensures Valid() && ProcOf(s, me) == if locked then Locked(id, row) else Idle
      ensures last == LockForUpdate(me, id, row) && s == Next(found, last)
      ensures locked <==> id in found.storages && Unlocked(found, id)
      ensures id in found.storages && !locked ==> clock == old(clock) + 1 + patience
    {
      Yield(me);
      var waited := 0;
      while id in s.storages && !Unlocked(s, id) && waited < patience
        invariant Valid() && ProcOf(s, me) == Idle && waited <= patience && clock == old(clock) + 1 + waited
      {
        Yield(me);
        waited := waited + 1;
      }
      Act(LockForUpdate(me, id, row));
      locked := ProcOf(s, me) != Idle;
    }

    /** Locks the row, and only then looks for locations if the address would change. An update that
        goes through has stored the row, and no location was reserved under another address; a
        refusal means there are such locations and nothing changed. Every outcome is what the last
        statement found: no row, a lock held by somebody else for as long as its caller waits, or
        locations under another address. */
    method UpdateStorage(me: nat, id: string, row: Storage, patience: nat) returns (r: Outcome)
      requires Valid() && ProcOf(s, me) == Idle
      modifies this
      ensures Valid() && ProcOf(s, me) == Idle && s == Next(found, last)
      ensures r == Updated ==> id in s.storages && s.storages[id] == row &&
                               forall f | f in s.locations && s.locations[f].storage == id :: s.locations[f].address == row.address
      ensures r == NotFound ==> id !in s.storages
      ensures r == LockWaitFailed ==> id in s.storages && !Unlocked(s, id)
      ensures r == LocationInUse ==> id in s.storages && s.storages[id].address != row.address && InUse(s, id)
      ensures match r
              case Updated =>
                last == CommitUpdate(me) && s.storages == found.storages[id := row] && s.locations == found.locations
              case NotFound => last == LockForUpdate(me, id, row) && id !in found.storages
              case LockWaitFailed =>
                last == LockForUpdate(me, id, row) && id in found.storages && !Unlocked(found, id) &&
                clock == old(clock) + 1 + patience
              case LocationInUse =>
                last == CheckUse(me) && s.storages == found.storages && s.locations == found.locations &&
                ProcOf(found, me) == Locked(id, row)
    {
      var locked := AwaitLock(me, id, row, patience);
      if !locked {
        return if id in s.storages then LockWaitFailed else NotFound;
      }
      Yield(me);
      Act(CheckUse(me));
      if ProcOf(s, me) == Idle {
        return LocationInUse;
      }
      Yield(me);
      Act(CommitUpdate(me));
      r := Updated;
    }
  }

  predicate ActsFor(x: Action, me: nat) {
    match x
    case LockForUpdate(a, _, _) => a == me
    case CheckUse(a) => a == me
    case CommitUpdate(a) => a == me
    case LockForShare(a, _, _) => a == me
    case CommitReservation(a) => a == me
    case Rollback(a) => a == me
    case _ => false
  }

  lemma OthersKeepPlace(s: State, x: Action, me: nat)
    requires !ActsFor(x, me)
    ensures ProcOf(Next(s, x), me) == ProcOf(s, me)
  {
  }
}
