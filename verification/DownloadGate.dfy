/** The count that makes disk-tier prefetch wait for process-tier downloads. */
module DownloadGate {

  function SaturatingDecrement(n: nat): nat {
    if n == 0 then 0 else n - 1
  }

  class Gate {
    var inflight: nat
    /** The live guards; the count is how many there are. */
    ghost var guards: set<nat>

    ghost predicate Valid()
      reads this
    {
      inflight == |guards|
    }

    constructor ()
      ensures Valid() && guards == {}
    {
      inflight := 0;
      guards := {};
    }

    method EnterPriority(ghost id: nat)
      requires Valid() && id !in guards
      modifies this
      ensures Valid() && guards == old(guards) + {id} && inflight == old(inflight) + 1
    {
      inflight := inflight + 1;
      guards := guards + {id};
    }

    /** Drop one guard. The subtraction is written saturating; a live guard means it never saturates. */
    method DropGuard(ghost id: nat)
      requires Valid() && id in guards
      modifies this
      ensures Valid() && guards == old(guards) - {id} && inflight + 1 == old(inflight)
    {
      inflight := SaturatingDecrement(inflight);
      guards := guards - {id};
    }

    /** Idle exactly when no guard lives. */
    method Idle() returns (idle: bool)
      requires Valid()
      ensures idle <==> guards == {}
    {
      idle := inflight == 0;
    }
  }
}
