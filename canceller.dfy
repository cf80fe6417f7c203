/**
 * `Canceller` of ReversiCore/Canceller.swift and Reversi/Core/Canceller.swift
 * (the same class in both): a flag that is set once and runs the optional
 * body on the first `cancel` only. What the body does is not modelled; the
 * counter `bodyRuns` records how often it has run.
 */
module Cancellers {
  class Canceller {
    var isCancelled: bool
    const hasBody: bool
    var bodyRuns: nat

    /** A new canceller is not cancelled and has not run its body. */
    constructor(hasBody: bool)
      ensures !isCancelled && bodyRuns == 0 && this.hasBody == hasBody
    {
      isCancelled := false;
      this.hasBody := hasBody;
      bodyRuns := 0;
    }

    /** Sets the flag and runs the body, unless the flag was already set. */
    method Cancel()
      modifies this
      ensures isCancelled
      ensures bodyRuns == old(bodyRuns) + (if !old(isCancelled) && hasBody then 1 else 0)
    {
      if isCancelled {
        return;
      }
      isCancelled := true;
      if hasBody {
        bodyRuns := bodyRuns + 1;
      }
    }
  }

  /**
   * Cancelling a new canceller any number of times runs its body exactly once
   * (never, without a body) and leaves it cancelled.
   */
  method CancelRepeatedly(hasBody: bool, times: nat) returns (cancelled: bool, runs: nat)
    requires times >= 1
    ensures cancelled && runs == (if hasBody then 1 else 0)
  {
    var canceller := new Canceller(hasBody);
    for i := 0 to times
      invariant canceller.isCancelled <==> i > 0
      invariant canceller.bodyRuns == (if i > 0 && hasBody then 1 else 0)
    {
      canceller.Cancel();
    }
    cancelled, runs := canceller.isCancelled, canceller.bodyRuns;
  }
}
