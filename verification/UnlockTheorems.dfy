/** What the return of `unlock_wallet` means. */
module UnlockTheorems {
  import opened Types
  import opened Protocol
  import opened Shape
  import opened Runs
  import D = Database
  import Sessions

  // ----- Ok -----

  /** The step checks the passphrase and finds it right: against the stored wallet, or by making the
      wallet's key session where there is none. */
  predicate ChecksPassphrase(sh: Shared, i: CallId, op: Op, ch: Choice) {
    op.call.Unlock? && ch.ok && (op.pc.Verify? || (op.pc.KeyUnlock? && op.call.wallet !in sh.keys))
  }

  /** The step leaves the wallet with a key session, seen or made. */
  predicate FindsKeys(sh: Shared, i: CallId, op: Op, ch: Choice) {
    op.call.Unlock? && (op.pc.Reprobe? || op.pc.KeyUnlock?) && op.call.wallet in NextKeys(sh, op, ch)
  }

  /** The step finds the unlock still counted. */
  predicate FindsCounted(sh: Shared, i: CallId, op: Op, ch: Choice) {
    op.call.Unlock? && op.pc.Confirm? && StillCounted(sh, op)
  }

  predicate AfterCheck(op: Op) {
    op.call.Unlock? && (op.pc.Reprobe? || AfterKeys(op))
  }

  predicate AfterKeys(op: Op) {
    op.call.Unlock? && (op.pc.Confirm? || Sessions.Opens(op))
  }

  lemma OpensBy(sh: Shared, i: CallId, op: Op, ch: Choice)
    requires Shaped(op) && CanStep(sh, op) && !Sessions.Opens(op) && Sessions.Opens(NextOp(sh, i, op, ch))
    ensures FindsCounted(sh, i, op, ch)
  {
    Sessions.OpensEffect(sh, i, op, ch);
    hide NextOp;
  }

  lemma KeysBy(sh: Shared, i: CallId, op: Op, ch: Choice)
    requires Shaped(op) && CanStep(sh, op) && !AfterKeys(op) && AfterKeys(NextOp(sh, i, op, ch))
    ensures FindsKeys(sh, i, op, ch) && (op.pc.KeyUnlock? ==> ch.ok)
  {
  }

  lemma CheckBy(sh: Shared, i: CallId, op: Op, ch: Choice)
    requires Shaped(op) && CanStep(sh, op) && !AfterCheck(op) && AfterCheck(NextOp(sh, i, op, ch))
    requires op.pc.KeyUnlock? ==> op.call.wallet !in sh.keys
    ensures ChecksPassphrase(sh, i, op, ch)
  {
  }

  lemma NoKeysAtKeyUnlock(s: State, i: CallId)
    requires Reachable(s) && i in s.ops && s.ops[i].pc.KeyUnlock?
    ensures s.ops[i].call.wallet !in s.sh.keys
  {
    assert Sessions.MakersFindNone(s) by {
      ReachedSessions(s);
    }
  }

  lemma CheckedInStep(acts: seq<Action>, i: CallId) returns (k: nat)
    requires Legal(Init(), acts) && i in After(Init(), acts).ops && AfterCheck(After(Init(), acts).ops[i])
    ensures StepIs(acts, k, i, ChecksPassphrase)
  {
    k := CrossedInRun(acts, i, AfterCheck);
    var t := After(Init(), acts[..k]);
    if t.ops[i].pc.KeyUnlock? {
      NoKeysAtKeyUnlock(t, i);
    }
    CheckBy(t.sh, i, t.ops[i], acts[k].choice);
  }

  lemma KeysInStep(acts: seq<Action>, i: CallId) returns (checked: nat, k: nat)
    requires Legal(Init(), acts) && i in After(Init(), acts).ops && AfterKeys(After(Init(), acts).ops[i])
    ensures StepIs(acts, checked, i, ChecksPassphrase) && StepIs(acts, k, i, FindsKeys) && checked <= k
  {
    k := CrossedInRun(acts, i, AfterKeys);
    var t := After(Init(), acts[..k]);
    KeysBy(t.sh, i, t.ops[i], acts[k].choice);
    if t.ops[i].pc.KeyUnlock? {
      NoKeysAtKeyUnlock(t, i);
      checked := k;
    } else {
      checked := CheckedInStep(acts[..k], i);
      StepOfPrefix(acts, k, checked, i, ChecksPassphrase);
    }
  }

  /** An unlock that returned `Ok` checked its passphrase, then saw or made its wallet's key session,
      and then found itself still counted. */
  lemma OkMeansChecked(acts: seq<Action>, i: CallId) returns (checked: nat, keys: nat, counted: nat)
    requires Legal(Init(), acts) && i in After(Init(), acts).ops && After(Init(), acts).ops[i].pc == Done(UnlockOk)
    ensures StepIs(acts, checked, i, ChecksPassphrase)
    ensures StepIs(acts, keys, i, FindsKeys)
    ensures StepIs(acts, counted, i, FindsCounted)
    ensures checked <= keys < counted
  {
    counted := CrossedInRun(acts, i, Sessions.Opens);
    var t := After(Init(), acts[..counted]);
    OpensBy(t.sh, i, t.ops[i], acts[counted].choice);
    checked, keys := KeysInStep(acts[..counted], i);
    StepOfPrefix(acts, counted, checked, i, ChecksPassphrase);
    StepOfPrefix(acts, counted, keys, i, FindsKeys);
  }

  // ----- errors -----

  /** The step ends the unlock: the database cannot be opened or another one is open, its passphrase or
      key-session work fails, or a force lock, delete or rename took its count. */
  predicate Fails(sh: Shared, i: CallId, op: Op, ch: Choice) {
    && op.call.Unlock?
    && ((!ch.ok && (op.pc.Probe? || op.pc.Verify? || op.pc.Reprobe? || op.pc.KeyUnlock?))
        || (op.pc.Entry? && if sh.db.sessions == map[] then !ch.ok else sh.db.open != Some(op.call.path))
        || (op.pc.Confirm? && !StillCounted(sh, op)))
  }

  /** The unlock is on its way to an error, or has returned one. */
  predicate Failing(op: Op) {
    && op.call.Unlock?
    && (op.pc.GiveBack? || op.pc.LockCheck? || op.pc.LockKeys? || op.pc.CancelScans?
        || op.pc == GateDrop(Kept) || op.pc == GateDrop(Wiped) || op.pc == Done(Refused))
  }

  lemma EntryFailsThen(sh: Shared, i: CallId, op: Op, ch: Choice)
    requires D.Inv(sh.db) && op.pc.Entry? && op.call.Unlock?
    ensures Failing(NextOp(sh, i, op, ch)) <==> Fails(sh, i, op, ch)
  {
    hide D.EnterUnlock;
    D.EnterUnlockCountsWhen(sh.db, op.call.wallet, op.call.path, ch.ok);
  }

  lemma LaterFailsThen(sh: Shared, i: CallId, op: Op, ch: Choice)
    requires Shaped(op) && CanStep(sh, op) && !op.pc.Entry? && op.call.Unlock? && !Failing(op)
    ensures Failing(NextOp(sh, i, op, ch)) <==> Fails(sh, i, op, ch)
  {
    hide EntryPc, MaintPc, ScanPc;
  }

  lemma FailsThen(sh: Shared, i: CallId, op: Op, ch: Choice)
    requires Shaped(op) && CanStep(sh, op) && D.Inv(sh.db) && !Failing(op)
    ensures Failing(NextOp(sh, i, op, ch)) <==> Fails(sh, i, op, ch)
  {
    hide NextPc, Shaped, CanStep, D.Inv;
    if op.call.Unlock? {
      if op.pc.Entry? {
        EntryFailsThen(sh, i, op, ch);
      } else {
        LaterFailsThen(sh, i, op, ch);
      }
    }
  }

  lemma FailingStays(sh: Shared, i: CallId, op: Op, ch: Choice)
    requires Shaped(op) && CanStep(sh, op) && Failing(op)
    ensures Failing(NextOp(sh, i, op, ch))
  {
  }

  lemma {:induction false} FailingForever(s: State, acts: seq<Action>, i: CallId)
    requires Reachable(s) && Legal(s, acts) && i in s.ops && Failing(s.ops[i])
    ensures i in After(s, acts).ops && Failing(After(s, acts).ops[i])
    decreases |acts|
  {
    if acts == [] {
    } else {
      assert AllShaped(s) by {
        ReachedScans(s);
      }
      if acts[0].Advance? && acts[0].i == i {
        FailingStays(s.sh, i, s.ops[i], acts[0].choice);
      }
      ReachableApply(s, acts[0]);
      FailingForever(Apply(s, acts[0]), acts[1..], i);
    }
  }

  /** An unlock with a step that fails, such as a passphrase check, never returns `Ok`. */
  lemma FailedNeverOpens(s: State, i: CallId, ch: Choice, acts: seq<Action>)
    requires Reachable(s) && Enabled(s, Advance(i, ch)) && Fails(s.sh, i, s.ops[i], ch)
    requires Legal(Apply(s, Advance(i, ch)), acts)
    ensures var t := After(Apply(s, Advance(i, ch)), acts);
            i in t.ops && Failing(t.ops[i]) && t.ops[i].pc != Done(UnlockOk)
  {
    assert Shaped(s.ops[i]) && D.Inv(s.sh.db) by {
      ReachedSessions(s);
    }
    FailsThen(s.sh, i, s.ops[i], ch);
    ReachableApply(s, Advance(i, ch));
    FailingForever(Apply(s, Advance(i, ch)), acts, i);
  }

  /** And an unlock that returned an error has such a step. */
  lemma ErrorHasCause(acts: seq<Action>, i: CallId) returns (k: nat)
    requires Legal(Init(), acts) && i in After(Init(), acts).ops
    requires After(Init(), acts).ops[i].call.Unlock? && After(Init(), acts).ops[i].pc == Done(Refused)
    ensures StepIs(acts, k, i, Fails)
  {
    k := CrossedInRun(acts, i, Failing);
    var t := After(Init(), acts[..k]);
    assert D.Inv(t.sh.db) by {
      ReachedSessions(t);
    }
    FailsThen(t.sh, i, t.ops[i], acts[k].choice);
  }

  /** So every unlock that has returned did so with `Ok` or with an error. */
  lemma ReturnedUnlock(s: State, i: CallId)
    requires Reachable(s) && i in s.ops && s.ops[i].call.Unlock? && s.ops[i].pc.Done?
    ensures s.ops[i].pc == Done(UnlockOk) || s.ops[i].pc == Done(Refused)
  {
    assert Shaped(s.ops[i]) by {
      ReachedScans(s);
    }
  }
}
