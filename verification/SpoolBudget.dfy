/** Admission of spools: a fixed number of slots and a byte budget in whole units, both reserved
    or neither. */
module SpoolBudget {
  import opened Wrappers

  const UNIT: nat := 1024 * 1024
  const SLOTS: nat := 16
  const U32_MAX: nat := 0xffff_ffff

  function UnitsFor(declared: nat): nat {
    (declared + UNIT - 1) / UNIT
  }

  /** A live reservation, released when its transfer ends. */
  datatype Permit = Permit(declared: nat, units: nat)

  function Units(live: seq<Permit>): nat {
    if live == [] then 0 else Units(live[..|live| - 1]) + live[|live| - 1].units
  }

  function Declared(live: seq<Permit>): nat {
    if live == [] then 0 else Declared(live[..|live| - 1]) + live[|live| - 1].declared
  }

  predicate Genuine(live: seq<Permit>) {
    forall i | 0 <= i < |live| :: live[i].units == UnitsFor(live[i].declared) && live[i].units <= U32_MAX
  }

  function Without(live: seq<Permit>, i: nat): seq<Permit>
    requires i < |live|
  {
    live[..i] + live[i + 1..]
  }

  lemma {:induction false} ReleaseGivesBackItsUnits(live: seq<Permit>, i: nat)
    requires i < |live|
    ensures Units(live) == Units(Without(live, i)) + live[i].units
    decreases |live|
  {
    if i == |live| - 1 {
      assert Without(live, i) == live[..i];
    } else {
      ReleaseGivesBackItsUnits(live[..|live| - 1], i);
      assert Without(live, i)[..|live| - 2] == Without(live[..|live| - 1], i);
    }
  }

  /** Rounding up per reservation and down for the capacity keeps the bytes themselves bounded. */
  lemma {:induction false} DeclaredFitsUnits(live: seq<Permit>)
    requires Genuine(live)
    ensures Declared(live) <= Units(live) * UNIT
  {
    if live != [] {
      DeclaredFitsUnits(live[..|live| - 1]);
    }
  }

  class Budget {
    const maxBytes: nat
    const capacity: nat
    var freeSlots: nat
    var freeUnits: nat
    ghost var live: seq<Permit>

    /** Held plus free is the capacity, for units and for slots. */
    ghost predicate Valid()
      reads this
    {
      capacity == maxBytes / UNIT && Genuine(live) &&
      freeUnits + Units(live) == capacity && freeSlots + |live| == SLOTS
    }

    constructor (maxBytes: nat)
      ensures Valid() && live == [] && this.maxBytes == maxBytes
    {
      this.maxBytes, capacity := maxBytes, maxBytes / UNIT;
      freeSlots, freeUnits, live := SLOTS, maxBytes / UNIT, [];
    }

    /** Reserves a slot and the rounded-up units, or nothing: a slot taken before the units turn
        out to be missing goes back. */
    method TryAcquire(declaredSize: int) returns (permit: Option<Permit>)
      requires Valid()
      modifies this`freeSlots, this`freeUnits, this`live
      ensures Valid()
      ensures permit.Some? <==> declaredSize >= 0 && UnitsFor(declaredSize) <= U32_MAX && old(freeSlots) > 0 &&
                                UnitsFor(declaredSize) <= old(freeUnits)
      ensures permit.Some? ==> permit.value.declared == declaredSize && live == old(live) + [permit.value]
      ensures permit.None? ==> live == old(live) && freeSlots == old(freeSlots) && freeUnits == old(freeUnits)
    {
      if declaredSize < 0 {
        return None;
      }
      var units := UnitsFor(declaredSize);
      if units > U32_MAX || freeSlots == 0 {
        return None;
      }
      freeSlots := freeSlots - 1;
      if units > freeUnits {
        freeSlots := freeSlots + 1;
        return None;
      }
      freeUnits := freeUnits - units;
      permit := Some(Permit(declaredSize, units));
      live := live + [permit.value];
      assert live[..|live| - 1] == old(live);
    }

    /** Dropping a permit gives back exactly its slot and its units. */
    method Release(permit: Permit, ghost i: nat)
      requires Valid() && i < |live| && live[i] == permit
      modifies this`freeSlots, this`freeUnits, this`live
      ensures Valid() && live == Without(old(live), i)
      ensures freeUnits == old(freeUnits) + permit.units && freeSlots == old(freeSlots) + 1
    {
      ReleaseGivesBackItsUnits(live, i);
      freeSlots, freeUnits, live := freeSlots + 1, freeUnits + permit.units, Without(live, i);
    }

    /** Reserved bytes, total bytes and slots in use; neither subtraction can underflow. */
    method Reservations() returns (reserved: nat, total: nat, slots: nat)
      requires Valid()
      ensures reserved == Units(live) * UNIT && slots == |live| && slots <= SLOTS
      ensures Declared(live) <= reserved <= total <= maxBytes
    {
      DeclaredFitsUnits(live);
      reserved, total, slots := (capacity - freeUnits) * UNIT, capacity * UNIT, SLOTS - freeSlots;
    }
  }

  /** One request or drop, on the list of live permits. */
  datatype Op = Acquire(declaredSize: int) | Drop(i: nat)

  function Step(maxBytes: nat, live: seq<Permit>, op: Op): seq<Permit> {
    match op
    case Acquire(size) =>
      if size >= 0 && UnitsFor(size) <= U32_MAX && |live| < SLOTS && Units(live) + UnitsFor(size) <= maxBytes / UNIT
      then live + [Permit(size, UnitsFor(size))] else live
    case Drop(i) => if i < |live| then Without(live, i) else live
  }

  function Steps(maxBytes: nat, ops: seq<Op>): seq<Permit> {
    if ops == [] then [] else Step(maxBytes, Steps(maxBytes, ops[..|ops| - 1]), ops[|ops| - 1])
  }

  /** Over any sequence of requests and drops, the bytes declared by live transfers never exceed
      the configured budget, nor their number the slots. */
  lemma {:induction false} LiveTransfersFitTheBudget(maxBytes: nat, ops: seq<Op>)
    ensures var live := Steps(maxBytes, ops);
            Genuine(live) && |live| <= SLOTS && Units(live) <= maxBytes / UNIT && Declared(live) <= maxBytes
    decreases |ops|
  {
    var live := Steps(maxBytes, ops);
    if ops != [] {
      var before, op := Steps(maxBytes, ops[..|ops| - 1]), ops[|ops| - 1];
      LiveTransfersFitTheBudget(maxBytes, ops[..|ops| - 1]);
      if live != before {
        if op.Drop? { ReleaseGivesBackItsUnits(before, op.i); }
        else { assert live[..|live| - 1] == before; }
      }
    }
    DeclaredFitsUnits(live);
  }
}
