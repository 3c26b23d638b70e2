/** The unlock gates and the maintenance locks: each has the one holder the program points say. */
module Locks {
  import opened Types
  import opened Protocol
  import opened Shape

  ghost predicate Owned(locks: map<Wallet, CallId>, ops: map<CallId, Op>, holds: Op -> bool) {
    && (forall i :: i in ops && holds(ops[i]) ==>
          ops[i].call.wallet in locks && locks[ops[i].call.wallet] == i)
    && (forall w :: w in locks ==>
          locks[w] in ops && holds(ops[locks[w]]) && ops[locks[w]].call.wallet == w)
  }

  ghost predicate Inv(s: State) {
    && Owned(s.sh.gates, s.ops, HoldsGate)
    && Owned(s.sh.maint, s.ops, HoldsMaint)
  }

  /** A step leaves the lock alone, takes it free, or gives back its own. */
  predicate Effect(locks: map<Wallet, CallId>, after: map<Wallet, CallId>, i: CallId, w: Wallet, held: bool, holds: bool) {
    || (after == locks && held == holds)
    || (!held && holds && w !in locks && after == locks[w := i])
    || (held && !holds && after == locks - {w})
  }

  lemma GateEffect(sh: Shared, i: CallId, op: Op, ch: Choice)
    requires Shaped(op) && CanStep(sh, op)
    ensures Effect(sh.gates, NextGates(sh, i, op), i, op.call.wallet, HoldsGate(op), HoldsGate(NextOp(sh, i, op, ch)))
  {
    if op.call.Unlock? {
      UnlockGateEffect(sh, i, op, ch);
    } else {
      OtherGateEffect(sh, i, op, ch);
    }
  }

  lemma UnlockGateEffect(sh: Shared, i: CallId, op: Op, ch: Choice)
    requires Shaped(op) && CanStep(sh, op) && op.call.Unlock?
    ensures Effect(sh.gates, NextGates(sh, i, op), i, op.call.wallet, HoldsGate(op), HoldsGate(NextOp(sh, i, op, ch)))
  {
    hide NextGen, NextAccount, NextConns, NextEpochSeen, TakesSlot, Claims;
  }

  lemma OtherGateEffect(sh: Shared, i: CallId, op: Op, ch: Choice)
    requires Shaped(op) && CanStep(sh, op) && !op.call.Unlock?
    ensures Effect(sh.gates, NextGates(sh, i, op), i, op.call.wallet, HoldsGate(op), HoldsGate(NextOp(sh, i, op, ch)))
  {
    hide NextGen, NextAccount, NextConns, NextEpochSeen, TakesSlot, Claims;
  }

  lemma MaintEffect(sh: Shared, i: CallId, op: Op, ch: Choice)
    requires Shaped(op) && CanStep(sh, op)
    ensures Effect(sh.maint, NextMaint(sh, i, op), i, op.call.wallet, HoldsMaint(op), HoldsMaint(NextOp(sh, i, op, ch)))
  {
    hide NextGen, NextAccount, NextConns, NextEpochSeen, TakesSlot, Claims;
  }

  lemma OwnedKept(locks: map<Wallet, CallId>, after: map<Wallet, CallId>,
                  ops: map<CallId, Op>, i: CallId, op: Op, holds: Op -> bool)
    requires Owned(locks, ops, holds)
    requires i in ops && ops[i].call == op.call
    requires Effect(locks, after, i, op.call.wallet, holds(ops[i]), holds(op))
    ensures Owned(after, ops[i := op], holds)
  {
  }

  lemma OwnedArrives(locks: map<Wallet, CallId>, ops: map<CallId, Op>, i: CallId, op: Op, holds: Op -> bool)
    requires Owned(locks, ops, holds) && i !in ops && !holds(op)
    ensures Owned(locks, ops[i := op], holds)
  {
  }
}
