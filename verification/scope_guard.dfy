/**
 * ScopeGuard and the FINALLY macro: a guard holds a cleanup function and an active flag,
 * and its destructor runs the function once if the flag is still set. The function's own
 * effect is not modelled; `runs` counts how many times it has been invoked.
 */
module ScopeGuards {
  import opened Text

  class ScopeGuard {
    /** active_: cleared by dismiss(), read by the destructor. */
    var active: bool
    /** How many times the stored function has run. */
    var runs: nat
    /** Whether the destructor has run; the guard is not used afterwards. */
    var destroyed: bool

    /** ScopeGuard(f): a new guard is active and has run nothing. */
    constructor ()
      ensures active && runs == 0 && !destroyed
    {
      active := true;
      runs := 0;
      destroyed := false;
    }

    /** dismiss(): the guard becomes inactive; a second call changes nothing more. */
    method Dismiss()
      requires !destroyed
      modifies this
      ensures !active && runs == old(runs) && !destroyed
    {
      active := false;
    }

    /** ~ScopeGuard(): runs the function once if the guard is still active. */
    method Destroy()
      requires !destroyed
      modifies this
      ensures destroyed && active == old(active)
      ensures runs == old(runs) + (if old(active) then 1 else 0)
    {
      if active {
        runs := runs + 1;
      }
      destroyed := true;
    }
  }

  /**
   * A guard's whole life: constructed, dismissed some number of times, then destroyed at
   * scope exit. The cleanup runs exactly once when it was never dismissed and never
   * otherwise, however many times dismiss() was called.
   */
  method GuardLifetime(dismissCalls: nat) returns (runs: nat)
    ensures runs == (if dismissCalls == 0 then 1 else 0)
  {
    var guard := new ScopeGuard();
    var k := 0;
    while k < dismissCalls
      invariant 0 <= k <= dismissCalls
      invariant guard.active <==> k == 0
      invariant guard.runs == 0 && !guard.destroyed
    {
      guard.Dismiss();
      k := k + 1;
    }
    guard.Destroy();
    runs := guard.runs;
  }

  /** The variable FINALLY(code) declares on a given source line: "_guard_" and the line number. */
  function FinallyGuardName(line: nat): (name: string)
    ensures StartsWith(name, "_guard_")
  {
    "_guard_" + NatToDecimal(line)
  }

  /** FINALLY on two different lines declares two different guards, so both run. */
  lemma FinallyNamesDistinct(line1: nat, line2: nat)
    requires line1 != line2
    ensures FinallyGuardName(line1) != FinallyGuardName(line2)
  {
    if FinallyGuardName(line1) == FinallyGuardName(line2) {
      assert FinallyGuardName(line1)[7..] == NatToDecimal(line1);
      assert FinallyGuardName(line2)[7..] == NatToDecimal(line2);
      DecimalInjective(line1, line2);
    }
  }
}
