/** What the return of `lock_wallet`, `force_lock_wallet`, delete and rename means. */
module LockTheorems {
  import opened Types
  import opened Protocol
  import opened Shape
  import opened Runs
  import D = Database
  import Slots
  import ScanTheorems

  /** The lock has wiped its wallet's key session. */
  predicate HasWiped(op: Op) {
    && op.call.Lock?
    && (op.pc.CancelScans? || op.pc == GateDrop(Wiped) || op.pc.StopScans? || op.pc.AwaitStop?
        || op.pc == Done(Locked(true)))
  }

  predicate ReturnedTrue(op: Op) {
    op.pc == Done(Locked(true))
  }

  lemma WipeEffect(sh: Shared, i: CallId, op: Op, ch: Choice)
    requires Shaped(op) && CanStep(sh, op) && !HasWiped(op) && HasWiped(NextOp(sh, i, op, ch))
    ensures op.call.Lock? && op.pc.LockKeys? && op.call.wallet !in NextKeys(sh, op, ch)
  {
  }

  lemma ReturnEffect(sh: Shared, i: CallId, op: Op, ch: Choice)
    requires Shaped(op) && CanStep(sh, op) && !ReturnedTrue(op) && ReturnedTrue(NextOp(sh, i, op, ch))
    ensures HasWiped(op)
    ensures op.pc.AwaitStop? || (op.pc.StopScans? && op.call.wallet !in sh.scans.running)
  {
  }

  /** Call `i` finds no scan of its wallet in the slot, or the one it waited for has stopped and with
      it every scan that took the slot before. */
  ghost predicate ScansGone(s: State, i: CallId)
    requires i in s.ops
  {
    forall j :: j in s.ops && s.ops[j].call.wallet == s.ops[i].call.wallet ==>
                  if s.ops[i].pc.AwaitStop?
                  then s.ops[i].pc.run in s.ops
                       && (Slots.TurnedBy(s.ops[j], s.ops[s.ops[i].pc.run]) ==> !Active(s.ops[j]))
                  else !Active(s.ops[j])
  }

  lemma NoneActive(s: State, w: Wallet, j: CallId)
    requires Slots.LatestInv(s) && w !in s.sh.scans.running && j in s.ops && s.ops[j].call.wallet == w
    ensures !Active(s.ops[j])
  {
  }

  lemma StopReturns(s: State, i: CallId, ch: Choice)
    requires Reachable(s) && Enabled(s, Advance(i, ch))
    requires s.ops[i].pc.AwaitStop? || (s.ops[i].pc.StopScans? && s.ops[i].call.wallet !in s.sh.scans.running)
    ensures ScansGone(s, i)
  {
    forall j | j in s.ops && s.ops[j].call.wallet == s.ops[i].call.wallet
      ensures if s.ops[i].pc.AwaitStop?
              then s.ops[i].pc.run in s.ops
                   && (Slots.TurnedBy(s.ops[j], s.ops[s.ops[i].pc.run]) ==> !Active(s.ops[j]))
              else !Active(s.ops[j])
    {
      if s.ops[i].pc.AwaitStop? {
        ScanTheorems.StopWaitsForEarlier(s, i, ch, j);
      } else {
        assert Slots.LatestInv(s) by {
          ReachedScans(s);
        }
        NoneActive(s, s.ops[i].call.wallet, j);
      }
    }
  }

  /** In step `k` the lock `i` wipes its wallet's key session. */
  ghost predicate WipesAt(acts: seq<Action>, k: nat, i: CallId)
    requires k < |acts| && Legal(Init(), acts[..k])
  {
    var t := After(Init(), acts[..k]);
    && acts[k].Advance? && acts[k].i == i && i in t.ops && t.ops[i].call.Lock? && t.ops[i].pc.LockKeys?
    && t.ops[i].call.wallet !in NextKeys(t.sh, t.ops[i], acts[k].choice)
  }

  /** In step `k` the scan stop of the lock `i` returns. */
  ghost predicate StopsAt(acts: seq<Action>, k: nat, i: CallId)
    requires k < |acts| && Legal(Init(), acts[..k])
  {
    var t := After(Init(), acts[..k]);
    && acts[k].Advance? && acts[k].i == i && i in t.ops
    && (t.ops[i].pc.AwaitStop? || t.ops[i].pc.StopScans?) && ScansGone(t, i)
  }

  lemma ReturnStep(s: State, i: CallId, ch: Choice)
    requires Reachable(s) && Enabled(s, Advance(i, ch))
    requires !ReturnedTrue(s.ops[i]) && ReturnedTrue(NextOp(s.sh, i, s.ops[i], ch))
    ensures HasWiped(s.ops[i]) && (s.ops[i].pc.AwaitStop? || s.ops[i].pc.StopScans?) && ScansGone(s, i)
  {
    assert Shaped(s.ops[i]) by {
      ReachedScans(s);
    }
    ReturnEffect(s.sh, i, s.ops[i], ch);
    StopReturns(s, i, ch);
  }

  lemma WipeStep(s: State, i: CallId, ch: Choice)
    requires Reachable(s) && Enabled(s, Advance(i, ch))
    requires !HasWiped(s.ops[i]) && HasWiped(NextOp(s.sh, i, s.ops[i], ch))
    ensures s.ops[i].call.Lock? && s.ops[i].pc.LockKeys? && s.ops[i].call.wallet !in NextKeys(s.sh, s.ops[i], ch)
  {
    assert Shaped(s.ops[i]) by {
      ReachedScans(s);
    }
    WipeEffect(s.sh, i, s.ops[i], ch);
  }

  lemma ReturnedAfterStop(acts: seq<Action>, i: CallId) returns (k: nat)
    requires Legal(Init(), acts) && i in After(Init(), acts).ops && ReturnedTrue(After(Init(), acts).ops[i])
    ensures k < |acts| && Legal(Init(), acts[..k]) && StopsAt(acts, k, i)
    ensures i in After(Init(), acts[..k]).ops && HasWiped(After(Init(), acts[..k]).ops[i])
  {
    k := Crossed(Init(), acts, i, ReturnedTrue);
    ReturnStep(After(Init(), acts[..k]), i, acts[k].choice);
  }

  lemma WipedInStep(acts: seq<Action>, i: CallId) returns (k: nat)
    requires Legal(Init(), acts) && i in After(Init(), acts).ops && HasWiped(After(Init(), acts).ops[i])
    ensures k < |acts| && Legal(Init(), acts[..k]) && WipesAt(acts, k, i)
  {
    k := Crossed(Init(), acts, i, HasWiped);
    WipeStep(After(Init(), acts[..k]), i, acts[k].choice);
  }

  // ----- the answer -----

  /** The step takes off the wallet's last count. */
  predicate TakesLastCount(sh: Shared, i: CallId, op: Op, ch: Choice) {
    && op.call.Lock? && op.pc.Entry?
    && op.call.wallet in sh.db.sessions && sh.db.sessions[op.call.wallet].count == 1
    && op.call.wallet !in NextDb(sh, op, ch).sessions
  }

  /** The step leaves the wallet as it is for others: it was not counted, it stays counted, or it has
      been counted again. */
  predicate LeavesHeld(sh: Shared, i: CallId, op: Op, ch: Choice) {
    var w := op.call.wallet;
    && op.call.Lock?
    && ((op.pc.Entry? && (w in sh.db.sessions ==> sh.db.sessions[w].count > 1))
        || (op.pc.LockCheck? && w in sh.db.sessions))
  }

  /** The lock took the last count and has not found the wallet counted again. */
  predicate TookLast(op: Op) {
    op.call.Lock? && (op.pc.GateWait? || op.pc.LockCheck? || op.pc.LockKeys? || HasWiped(op))
  }

  /** The lock is on its way to returning `false`, or has. */
  predicate AnswersFalse(op: Op) {
    op.call.Lock? && (op.pc == GateDrop(Kept) || op.pc == Done(Locked(false)))
  }

  lemma AnswerEffect(sh: Shared, i: CallId, op: Op, ch: Choice)
    requires Shaped(op) && CanStep(sh, op) && D.Inv(sh.db) && op.call.Lock?
    ensures var op' := NextOp(sh, i, op, ch);
            && (!TookLast(op) && TookLast(op') ==> TakesLastCount(sh, i, op, ch))
            && (!AnswersFalse(op) ==> (AnswersFalse(op') <==> LeavesHeld(sh, i, op, ch)))
            && (AnswersFalse(op) ==> AnswersFalse(op'))
            && (HasWiped(op) ==> HasWiped(op'))
  {
  }

  /** Once it has wiped the key session a `lock_wallet` can only return `true`. */
  lemma {:induction false} WipedReturnsTrue(s: State, acts: seq<Action>, i: CallId)
    requires Reachable(s) && Legal(s, acts) && i in s.ops && HasWiped(s.ops[i])
    ensures var t := After(s, acts);
            i in t.ops && HasWiped(t.ops[i]) && (t.ops[i].pc.Done? ==> t.ops[i].pc == Done(Locked(true)))
    decreases |acts|
  {
    if acts == [] {
    } else {
      assert AllShaped(s) && D.Inv(s.sh.db) by {
        ReachedSessions(s);
      }
      if acts[0].Advance? && acts[0].i == i {
        AnswerEffect(s.sh, i, s.ops[i], acts[0].choice);
      }
      ReachableApply(s, acts[0]);
      WipedReturnsTrue(Apply(s, acts[0]), acts[1..], i);
    }
  }

  lemma AnswerStep(s: State, i: CallId, ch: Choice)
    requires Reachable(s) && Enabled(s, Advance(i, ch)) && s.ops[i].call.Lock?
    ensures var op' := NextOp(s.sh, i, s.ops[i], ch);
            && (!TookLast(s.ops[i]) && TookLast(op') ==> TakesLastCount(s.sh, i, s.ops[i], ch))
            && (!AnswersFalse(s.ops[i]) && AnswersFalse(op') ==> LeavesHeld(s.sh, i, s.ops[i], ch))
  {
    assert Shaped(s.ops[i]) && D.Inv(s.sh.db) by {
      ReachedSessions(s);
    }
    AnswerEffect(s.sh, i, s.ops[i], ch);
  }

  lemma OnlyLocksAnswer(s: State, i: CallId)
    requires Reachable(s) && i in s.ops && s.ops[i].pc == Done(Locked(false))
    ensures AnswersFalse(s.ops[i])
  {
    assert Shaped(s.ops[i]) by {
      ReachedScans(s);
    }
  }

  /** A `lock_wallet` that returned `false` left the wallet as it was for others. */
  lemma LockedFalseMeansHeld(acts: seq<Action>, i: CallId) returns (k: nat)
    requires Legal(Init(), acts) && i in After(Init(), acts).ops && After(Init(), acts).ops[i].pc == Done(Locked(false))
    ensures StepIs(acts, k, i, LeavesHeld)
  {
    assert Reachable(After(Init(), acts));
    OnlyLocksAnswer(After(Init(), acts), i);
    k := CrossedInRun(acts, i, AnswersFalse);
    AnswerStep(After(Init(), acts[..k]), i, acts[k].choice);
  }

  lemma LastCountInStep(acts: seq<Action>, i: CallId) returns (k: nat)
    requires Legal(Init(), acts) && i in After(Init(), acts).ops && TookLast(After(Init(), acts).ops[i])
    ensures StepIs(acts, k, i, TakesLastCount)
  {
    k := CrossedInRun(acts, i, TookLast);
    AnswerStep(After(Init(), acts[..k]), i, acts[k].choice);
  }

  /** A `lock_wallet` that returned `true` took off its wallet's last count in step `released`, wiped
      the key session in step `wiped` and then, in step `stopped`, saw its scans gone. */
  lemma LockedTrueMeansLocked(acts: seq<Action>, i: CallId) returns (released: nat, wiped: nat, stopped: nat)
    requires Legal(Init(), acts) && i in After(Init(), acts).ops && ReturnedTrue(After(Init(), acts).ops[i])
    ensures released < wiped < stopped < |acts|
    ensures StepIs(acts, released, i, TakesLastCount)
    ensures Legal(Init(), acts[..wiped]) && WipesAt(acts, wiped, i)
    ensures Legal(Init(), acts[..stopped]) && StopsAt(acts, stopped, i)
  {
    stopped := ReturnedAfterStop(acts, i);
    wiped := WipedInStep(acts[..stopped], i);
    assert acts[..stopped][..wiped] == acts[..wiped];
    released := LastCountInStep(acts[..wiped], i);
    StepOfPrefix(acts, wiped, released, i, TakesLastCount);
  }

  // ----- force_lock_wallet, delete_wallet and rename_wallet -----

  predicate LocksEverywhere(op: Op) {
    op.call.ForceLock? || (op.call.Change? && op.round.Second?)
  }

  /** The last gate-held lock of the call has decided. */
  predicate HasDecided(op: Op) {
    && LocksEverywhere(op)
    && (op.pc.CancelScans? || op.pc.GateDrop? || op.pc.StopScans? || op.pc.AwaitStop? || op.pc.MaintDrop? || op.pc.Done?)
  }

  /** And its scan stop has returned. */
  predicate HasStopped(op: Op) {
    LocksEverywhere(op) && (op.pc.MaintDrop? || op.pc.Done?)
  }

  /** The step of a gate-held lock that wipes the key session, or finds a holder counted. */
  predicate Decides(sh: Shared, op: Op, ch: Choice) {
    || (op.pc.LockKeys? && op.call.wallet !in NextKeys(sh, op, ch))
    || (op.pc.LockCheck? && op.call.wallet in sh.db.sessions)
  }

  lemma DecideEffect(sh: Shared, i: CallId, op: Op, ch: Choice)
    requires Shaped(op) && CanStep(sh, op) && !HasDecided(op) && HasDecided(NextOp(sh, i, op, ch))
    ensures Decides(sh, op, ch)
  {
  }

  lemma StoppedEffect(sh: Shared, i: CallId, op: Op, ch: Choice)
    requires Shaped(op) && CanStep(sh, op) && !HasStopped(op) && HasStopped(NextOp(sh, i, op, ch))
    ensures HasDecided(op)
    ensures op.pc.AwaitStop? || (op.pc.StopScans? && op.call.wallet !in sh.scans.running)
  {
  }

  lemma StoppedStep(s: State, i: CallId, ch: Choice)
    requires Reachable(s) && Enabled(s, Advance(i, ch))
    requires !HasStopped(s.ops[i]) && HasStopped(NextOp(s.sh, i, s.ops[i], ch))
    ensures HasDecided(s.ops[i]) && (s.ops[i].pc.AwaitStop? || s.ops[i].pc.StopScans?) && ScansGone(s, i)
  {
    assert Shaped(s.ops[i]) by {
      ReachedScans(s);
    }
    StoppedEffect(s.sh, i, s.ops[i], ch);
    StopReturns(s, i, ch);
  }

  lemma DecideStep(s: State, i: CallId, ch: Choice)
    requires Reachable(s) && Enabled(s, Advance(i, ch))
    requires !HasDecided(s.ops[i]) && HasDecided(NextOp(s.sh, i, s.ops[i], ch))
    ensures Decides(s.sh, s.ops[i], ch)
  {
    assert Shaped(s.ops[i]) by {
      ReachedScans(s);
    }
    DecideEffect(s.sh, i, s.ops[i], ch);
  }

  /** In step `k` the last gate-held lock of call `i` decides. */
  ghost predicate DecidesAt(acts: seq<Action>, k: nat, i: CallId)
    requires k < |acts| && Legal(Init(), acts[..k])
  {
    var t := After(Init(), acts[..k]);
    && acts[k].Advance? && acts[k].i == i && i in t.ops && Decides(t.sh, t.ops[i], acts[k].choice)
  }

  lemma DecidedInStep(acts: seq<Action>, i: CallId) returns (k: nat)
    requires Legal(Init(), acts) && i in After(Init(), acts).ops && HasDecided(After(Init(), acts).ops[i])
    ensures k < |acts| && Legal(Init(), acts[..k]) && DecidesAt(acts, k, i)
  {
    k := Crossed(Init(), acts, i, HasDecided);
    DecideStep(After(Init(), acts[..k]), i, acts[k].choice);
  }

  lemma StoppedInStep(acts: seq<Action>, i: CallId) returns (k: nat)
    requires Legal(Init(), acts) && i in After(Init(), acts).ops && HasStopped(After(Init(), acts).ops[i])
    ensures k < |acts| && Legal(Init(), acts[..k]) && StopsAt(acts, k, i)
    ensures i in After(Init(), acts[..k]).ops && HasDecided(After(Init(), acts[..k]).ops[i])
  {
    k := Crossed(Init(), acts, i, HasStopped);
    StoppedStep(After(Init(), acts[..k]), i, acts[k].choice);
  }

  lemma ReturnedHasStopped(s: State, i: CallId)
    requires Reachable(s) && i in s.ops && (s.ops[i].call.ForceLock? || s.ops[i].call.Change?)
    requires s.ops[i].pc == Done(Returned) || (s.ops[i].pc.Done? && s.ops[i].round.Second?)
    ensures HasStopped(s.ops[i])
  {
    assert Shaped(s.ops[i]) by {
      ReachedScans(s);
    }
  }

  /** A force lock, or a delete or rename that got as far as its write, wiped its wallet's key session in step
      `decided`, or found a newer holder counted there, and then, in step `stopped`, saw the wallet's
      scans gone. */
  lemma ForcedMeansLocked(acts: seq<Action>, i: CallId) returns (decided: nat, stopped: nat)
    requires Legal(Init(), acts) && i in After(Init(), acts).ops
    requires var op := After(Init(), acts).ops[i];
             (op.call.ForceLock? || op.call.Change?) && (op.pc == Done(Returned) || (op.pc.Done? && op.round.Second?))
    ensures decided < stopped < |acts|
    ensures Legal(Init(), acts[..decided]) && DecidesAt(acts, decided, i)
    ensures Legal(Init(), acts[..stopped]) && StopsAt(acts, stopped, i)
  {
    assert Reachable(After(Init(), acts));
    ReturnedHasStopped(After(Init(), acts), i);
    stopped := StoppedInStep(acts, i);
    decided := DecidedInStep(acts[..stopped], i);
    assert acts[..stopped][..decided] == acts[..decided];
  }
}
