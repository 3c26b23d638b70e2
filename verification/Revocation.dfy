/** Scans against the key session they saw: locking a wallet revokes them. */
module Revocation {
  import opened Types
  import opened Protocol
  import opened Shape
  import T = ScanTable
  import Locks
  import Handles
  import Slots

  /** The scan was dropped from `starting`, or its token is cancelled, or it has left its slot. */
  predicate Revoked(sh: Shared, i: CallId, op: Op) {
    if PreSlot(op) then op.call.Scan? && op.call.id !in sh.scans.starting
    else if Active(op) then i in sh.scans.cancelled
    else true
  }

  /** The key session that the scan's unlocked check saw is still the wallet's. */
  predicate SeesCurrent(sh: Shared, op: Op) {
    op.call.wallet in sh.keys && op.epoch == Some(sh.keys[op.call.wallet])
  }

  predicate DroppedUpstream(sh: Shared, op: Op) {
    op.epoch.Some? && op.epoch.value in sh.dropped
  }

  /** A gate-held lock of `w` has wiped its key session and is about to cancel its scans. */
  predicate CancelPending(s: State, w: Wallet) {
    w in s.sh.gates && s.sh.gates[w] in s.ops && s.ops[s.sh.gates[w]].pc.CancelScans?
  }

  ghost predicate Inv(s: State) {
    forall i :: i in s.ops && s.ops[i].epoch.Some? ==>
                  || SeesCurrent(s.sh, s.ops[i])
                  || DroppedUpstream(s.sh, s.ops[i])
                  || CancelPending(s, s.ops[i].call.wallet)
                  || Revoked(s.sh, i, s.ops[i])
  }

  lemma KeyMove(sh: Shared, i: CallId, op: Op, ch: Choice, w: Wallet)
    requires Shaped(op) && CanStep(sh, op)
    ensures var after := NextShared(sh, i, op, ch);
            var op' := NextOp(sh, i, op, ch);
            && (w in sh.keys ==>
                  || (w in after.keys && after.keys[w] == sh.keys[w])
                  || (op.pc.LockKeys? && w == op.call.wallet && op'.pc.CancelScans?))
            && after.dropped == sh.dropped
            && (op'.epoch.Some? && op'.epoch != op.epoch ==> SeesCurrent(after, op'))
            && (op.call.Scan? ==> after.keys == sh.keys && after.gates == sh.gates && !op.pc.CancelScans?)
  {
  }

  /** A step never brings a claimed scan back to `starting` and never un-cancels one. */
  lemma RevokedKept(sh: Shared, i: CallId, op: Op, ch: Choice, j: CallId, other: Op)
    requires Shaped(op) && CanStep(sh, op)
    requires Revoked(sh, j, other) && other.call.Scan? && other.call.id !in sh.scans.issued
    ensures Revoked(NextShared(sh, i, op, ch), j, other)
  {
  }

  /** A revoked scan stays revoked through its own steps; only one still in `starting` takes a slot. */
  lemma RevokedSelf(sh: Shared, i: CallId, op: Op, ch: Choice)
    requires Shaped(op) && CanStep(sh, op)
    requires Revoked(sh, i, op) && op.call.Scan? && op.claimed
    ensures Revoked(NextShared(sh, i, op, ch), i, NextOp(sh, i, op, ch))
  {
  }

  lemma CancelRevokesOne(s: State, w: Wallet, j: CallId)
    requires Slots.LatestInv(s) && j in s.ops && s.ops[j].call.Scan? && s.ops[j].call.wallet == w
    requires s.ops[j].call.id in s.sh.scans.starting ==> s.sh.scans.starting[s.ops[j].call.id] == w
    ensures Revoked(s.sh.(scans := T.CancelWallet(s.sh.scans, w).0), j, s.ops[j])
  {
  }

  /** The cancel step of a gate-held lock revokes every scan of its wallet that has claimed its
      handle. */
  lemma CancelRevokes(s: State, i: CallId, ch: Choice, j: CallId)
    requires AllShaped(s) && Handles.Inv(s) && Slots.LatestInv(s)
    requires Enabled(s, Advance(i, ch)) && (s.ops[i].pc.CancelScans? || s.ops[i].pc.StopScans?)
    requires j in s.ops && s.ops[j].claimed && s.ops[j].call.wallet == s.ops[i].call.wallet
    ensures var after := Apply(s, Advance(i, ch));
            s.ops[j].call.Scan? && after.ops[j] == s.ops[j] && Revoked(after.sh, j, after.ops[j])
  {
    assert Shaped(s.ops[i]) && Shaped(s.ops[j]);
    assert Handles.ClaimedAs(s.ops[j], s.ops[j].call.id);
    assert NextScans(s.sh, i, s.ops[i], ch) == T.CancelWallet(s.sh.scans, s.ops[i].call.wallet).0;
    hide AllShaped, CanStep, NextOp, NextScans, NextDb, NextKeys, NextGates, NextMaint, NextFiles, NextLedger;
    CancelRevokesOne(s, s.ops[i].call.wallet, j);
  }

  ghost predicate Excused(s: State, op: Op) {
    SeesCurrent(s.sh, op) || DroppedUpstream(s.sh, op) || CancelPending(s, op.call.wallet)
  }

  /** The pending cancel is this step: it revokes scan `j`. */
  lemma CancelIsDone(s: State, i: CallId, ch: Choice, j: CallId)
    requires AllShaped(s) && Locks.Inv(s) && Handles.Inv(s) && Slots.LatestInv(s)
    requires Enabled(s, Advance(i, ch)) && j in s.ops && s.ops[j].epoch.Some?
    requires CancelPending(s, s.ops[j].call.wallet) && s.sh.gates[s.ops[j].call.wallet] == i
    ensures var after := Apply(s, Advance(i, ch));
            after.ops[j] == s.ops[j] && Revoked(after.sh, j, s.ops[j])
  {
    assert Shaped(s.ops[j]);
    assert s.ops[i].call.wallet == s.ops[j].call.wallet;
    hide Locks.Inv, NextOp, NextShared, Revoked;
    CancelRevokes(s, i, ch, j);
  }

  /** The wipe of a key session leaves a cancel pending. */
  lemma WipeLeavesCancel(s: State, i: CallId, ch: Choice)
    requires Locks.Inv(s) && Enabled(s, Advance(i, ch))
    requires s.ops[i].pc.LockKeys? && NextOp(s.sh, i, s.ops[i], ch).pc.CancelScans?
    ensures CancelPending(Apply(s, Advance(i, ch)), s.ops[i].call.wallet)
  {
    assert HoldsGate(s.ops[i]);
  }

  /** Another call's cancel stays pending. */
  lemma CancelStaysPending(s: State, i: CallId, ch: Choice, w: Wallet)
    requires AllShaped(s) && Locks.Inv(s) && Enabled(s, Advance(i, ch))
    requires CancelPending(s, w) && s.sh.gates[w] != i
    ensures CancelPending(Apply(s, Advance(i, ch)), w)
  {
    hide NextOp, NextGates, NextScans, NextDb, NextKeys, NextMaint, NextLedger, NextFiles, NextReplacedBy, Shaped, CanStep;
    Locks.GateEffect(s.sh, i, s.ops[i], ch);
  }

  /** Any other step keeps the key session that scan `j` saw, or leaves a cancel pending. */
  lemma StaysExcused(s: State, i: CallId, ch: Choice, j: CallId)
    requires AllShaped(s) && Locks.Inv(s) && Enabled(s, Advance(i, ch))
    requires j in s.ops && j != i && s.ops[j].epoch.Some? && Excused(s, s.ops[j])
    requires !(CancelPending(s, s.ops[j].call.wallet) && s.sh.gates[s.ops[j].call.wallet] == i)
    ensures Excused(Apply(s, Advance(i, ch)), s.ops[j])
  {
    var w := s.ops[j].call.wallet;
    KeyMove(s.sh, i, s.ops[i], ch, w);
    hide CancelPending, Locks.Inv, NextOp, NextGates, NextScans, NextDb, Shaped, CanStep;
    if CancelPending(s, w) {
      CancelStaysPending(s, i, ch, w);
    } else if s.ops[i].pc.LockKeys? && NextOp(s.sh, i, s.ops[i], ch).pc.CancelScans? {
      WipeLeavesCancel(s, i, ch);
    }
  }

  /** Another call's step: if it takes away the key session that scan `j` saw, a cancel is pending
      or done. */
  lemma StepOfAnother(s: State, i: CallId, ch: Choice, j: CallId)
    requires AllShaped(s) && Locks.Inv(s) && Handles.Inv(s) && Slots.LatestInv(s)
    requires Enabled(s, Advance(i, ch))
    requires j in s.ops && j != i && s.ops[j].epoch.Some?
    requires Excused(s, s.ops[j])
    ensures var after := Apply(s, Advance(i, ch));
            Excused(after, s.ops[j]) || Revoked(after.sh, j, s.ops[j])
  {
    hide AllShaped, Locks.Inv, Handles.Inv, Slots.LatestInv, Excused, Revoked, NextShared, NextOp;
    if CancelPending(s, s.ops[j].call.wallet) && s.sh.gates[s.ops[j].call.wallet] == i {
      CancelIsDone(s, i, ch, j);
    } else {
      StaysExcused(s, i, ch, j);
    }
  }

  lemma OwnStep(s: State, i: CallId, ch: Choice)
    requires AllShaped(s) && Enabled(s, Advance(i, ch))
    requires s.ops[i].call.Scan? && Excused(s, s.ops[i]) && s.ops[i].epoch.Some?
    ensures Excused(Apply(s, Advance(i, ch)), Apply(s, Advance(i, ch)).ops[i]) || !NextOp(s.sh, i, s.ops[i], ch).epoch.Some?
  {
    KeyMove(s.sh, i, s.ops[i], ch, s.ops[i].call.wallet);
  }

  lemma Step(s: State, i: CallId, ch: Choice)
    requires AllShaped(s) && Locks.Inv(s) && Handles.Inv(s) && Slots.LatestInv(s) && Inv(s)
    requires Enabled(s, Advance(i, ch))
    ensures Inv(Apply(s, Advance(i, ch)))
  {
    var op := s.ops[i];
    var after := Apply(s, Advance(i, ch));
    forall j | j in after.ops && after.ops[j].epoch.Some?
      ensures Excused(after, after.ops[j]) || Revoked(after.sh, j, after.ops[j])
    {
      KeyMove(s.sh, i, op, ch, op.call.wallet);
      if j != i {
        if Excused(s, s.ops[j]) {
          StepOfAnother(s, i, ch, j);
        } else {
          assert Handles.ClaimedAs(s.ops[j], s.ops[j].call.id);
          RevokedKept(s.sh, i, op, ch, j, s.ops[j]);
        }
      } else if op.epoch == after.ops[i].epoch {
        if Excused(s, op) {
          OwnStep(s, i, ch);
        } else {
          RevokedSelf(s.sh, i, op, ch);
        }
      }
    }
  }
}
