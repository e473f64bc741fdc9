/** The states of a file row and of its write lease, and how an external call can end. */
module Lifecycle {
  datatype FileState = Pending | Active | Deleted | Reclaimed
  datatype LeaseState = Issued | Committed | Expired

  /** `Straggling`: the caller is gone or has given up on a provider call, whose effect may still
      arrive at any later time. Database transactions are never left straggling. */
  datatype Fate = Done | AppliedButLost | NotApplied | Straggling

  /** How a physical cleanup ends. `Released` says whether there was a location row to release. */
  datatype CleanupReply = Released(bool) | PhysicalError | MetadataError

  function Min(x: nat, y: nat): nat {
    if x < y then x else y
  }

  function Max(x: nat, y: nat): nat {
    if x < y then y else x
  }

  /** There is always another actor. */
  lemma {:induction false} FreshActor<V>(procs: map<nat, V>) returns (a: nat)
    ensures a !in procs
    ensures forall b | b in procs :: b < a
    decreases procs
  {
    if procs == map[] {
      a := 0;
    } else {
      var b :| b in procs;
      a := FreshActor(procs - {b});
      assert forall d | d in procs :: d == b || d in procs - {b};
      a := if a <= b then b + 1 else a;
    }
  }
}
