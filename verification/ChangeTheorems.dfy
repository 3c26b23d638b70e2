/** What the return of `delete_wallet`, `rename_wallet`, `change_passphrase` and `abandon_send` means. */
module ChangeTheorems {
  import opened Types
  import opened Protocol
  import opened Shape
  import opened Runs
  import opened LockTheorems
  import D = Database

  // ----- with_wallet_locked -----

  /** How far a delete or rename has come: its wallet's counts removed (1), the key session locked (2),
      the scans stopped (3), the change made (4), and all that again for what began meanwhile (5 to 7). */
  function Stage(op: Op): nat {
    match op.pc
    case GateWait | LockCheck | LockKeys => if op.round.First? then 1 else 5
    case CancelScans | GateDrop(_) | StopScans | AwaitStop(_) => if op.round.First? then 2 else 6
    case Write => 3
    case Evict => if op.round.First? then 0 else 4
    case MaintDrop | Done(_) => if op.round.First? then 0 else 7
    case _ => 0
  }

  /** In state `s` the next step of call `i` takes it to stage `n`. */
  ghost predicate Reaches(s: State, i: CallId, ch: Choice, n: nat) {
    && i in s.ops && s.ops[i].call.Change?
    && (n == 1 || n == 5 ==> s.ops[i].pc.Evict? && s.ops[i].call.wallet !in NextDb(s.sh, s.ops[i], ch).sessions)
    && (n == 2 || n == 6 ==> Decides(s.sh, s.ops[i], ch))
    && (n == 3 || n == 7 ==> (s.ops[i].pc.AwaitStop? || s.ops[i].pc.StopScans?) && ScansGone(s, i))
    && (n == 4 ==> s.ops[i].pc.Write?)
  }

  lemma StageEffect(sh: Shared, i: CallId, op: Op, ch: Choice)
    requires Shaped(op) && CanStep(sh, op) && op.call.Change?
    ensures var n, n' := Stage(op), Stage(NextOp(sh, i, op, ch));
            && (n' == n || n' == n + 1)
            && (n' == n + 1 ==>
                  && (n' == 1 || n' == 5 ==> op.pc.Evict? && op.call.wallet !in NextDb(sh, op, ch).sessions)
                  && (n' == 2 || n' == 6 ==> Decides(sh, op, ch))
                  && (n' == 3 || n' == 7 ==>
                        op.pc.AwaitStop? || (op.pc.StopScans? && op.call.wallet !in sh.scans.running))
                  && (n' == 4 ==> op.pc.Write?))
  {
  }

  lemma StageStep(s: State, i: CallId, ch: Choice)
    requires Reachable(s) && Enabled(s, Advance(i, ch)) && s.ops[i].call.Change?
    ensures var n, n' := Stage(s.ops[i]), Stage(NextOp(s.sh, i, s.ops[i], ch));
            n' == n || (n' == n + 1 && Reaches(s, i, ch, n'))
  {
    assert Shaped(s.ops[i]) by {
      ReachedScans(s);
    }
    StageEffect(s.sh, i, s.ops[i], ch);
    var n' := Stage(NextOp(s.sh, i, s.ops[i], ch));
    if n' == Stage(s.ops[i]) + 1 && (n' == 3 || n' == 7) {
      StopReturns(s, i, ch);
    }
    hide NextOp, Shaped, ScansGone, Decides;
  }

  predicate HasReached(op: Op, n: nat) {
    op.call.Change? && Stage(op) >= n
  }

  /** In step `k` of the run call `i` gets to stage `n`. */
  ghost predicate ReachesAt(acts: seq<Action>, k: nat, i: CallId, n: nat) {
    && k < |acts| && Legal(Init(), acts[..k]) && acts[k].Advance? && acts[k].i == i
    && Reaches(After(Init(), acts[..k]), i, acts[k].choice, n)
  }

  lemma StageInStep(acts: seq<Action>, i: CallId, n: nat) returns (k: nat)
    requires Legal(Init(), acts) && i in After(Init(), acts).ops && HasReached(After(Init(), acts).ops[i], n) && n > 0
    ensures ReachesAt(acts, k, i, n)
    ensures i in After(Init(), acts[..k]).ops && HasReached(After(Init(), acts[..k]).ops[i], n - 1)
  {
    k := CrossedInRun(acts, i, (op: Op) => HasReached(op, n));
    StageStep(After(Init(), acts[..k]), i, acts[k].choice);
  }

  lemma {:induction false} StagesInOrder(acts: seq<Action>, i: CallId, n: nat) returns (ks: seq<nat>)
    requires Legal(Init(), acts) && i in After(Init(), acts).ops && HasReached(After(Init(), acts).ops[i], n)
    ensures |ks| == n
    ensures forall m :: 0 <= m < n ==> ReachesAt(acts, ks[m], i, m + 1)
    ensures forall m :: 0 < m < n ==> ks[m - 1] < ks[m]
    decreases n
  {
    if n == 0 {
      ks := [];
    } else {
      var k := StageInStep(acts, i, n);
      var before := StagesInOrder(acts[..k], i, n - 1);
      forall m | 0 <= m < n - 1 ensures ReachesAt(acts, before[m], i, m + 1) {
        assert acts[..k][..before[m]] == acts[..before[m]];
      }
      ks := before + [k];
    }
  }

  lemma StoppedIsLast(op: Op)
    requires op.call.Change? && HasStopped(op)
    ensures HasReached(op, 7)
  {
  }

  /** A delete or rename that returned from its change took all these steps in order: it removed every
      count of its wallet, locked the key session unless a newer holder was counted, saw the scans gone,
      made its change, and then did the first three once more. */
  lemma ChangeIsLocked(acts: seq<Action>, i: CallId) returns (ks: seq<nat>)
    requires Legal(Init(), acts) && i in After(Init(), acts).ops
    requires var op := After(Init(), acts).ops[i];
             op.call.Change? && (op.pc == Done(Returned) || (op.pc.Done? && op.round.Second?))
    ensures |ks| == 7
    ensures forall m :: 0 <= m < 7 ==> ReachesAt(acts, ks[m], i, m + 1)
    ensures forall m :: 0 < m < 7 ==> ks[m - 1] < ks[m]
  {
    hide ReachesAt, HasReached, HasStopped;
    assert Reachable(After(Init(), acts));
    ReturnedHasStopped(After(Init(), acts), i);
    StoppedIsLast(After(Init(), acts).ops[i]);
    ks := StagesInOrder(acts, i, 7);
  }

  /** What the change does to the database that the call opened before it locked: a delete removes the
      name; a rename moves the account to a name not in use, or changes nothing; no other name and no
      other database is touched, and a failed change changes nothing. */
  lemma ChangeMeans(sh: Shared, op: Op, ch: Choice, path: Path, v: Wallet)
    requires op.call.Change? && op.pc.Write? && |op.conns| == 1
    ensures var w, before, after := op.call.wallet, sh.files, NextFiles(sh, op, ch);
            && (path != op.conns[0] || !ch.ok ==> Lookup(after, path, v) == Lookup(before, path, v))
            && (path == op.conns[0] && ch.ok ==>
                  match ch.rename {
                    case None => Lookup(after, path, v) == if v == w then None else Lookup(before, path, v)
                    case Some(name) =>
                      if Lookup(before, path, w).None? || Lookup(before, path, name).Some?
                      then Lookup(after, path, v) == Lookup(before, path, v)
                      else Lookup(after, path, v) == if v == name then Lookup(before, path, w)
                                                     else if v == w then None else Lookup(before, path, v)
                  })
  {
  }

  // ----- the answer, and the passphrase -----

  /** The step makes the change, the abandon or the new passphrase. */
  predicate Writes(sh: Shared, i: CallId, op: Op, ch: Choice) {
    Mains(op.call) && op.pc.Write? && ch.ok
  }

  predicate HasWritten(op: Op) {
    op.wrote
  }

  lemma WriteEffect(sh: Shared, i: CallId, op: Op, ch: Choice)
    requires Shaped(op) && CanStep(sh, op) && !HasWritten(op) && HasWritten(NextOp(sh, i, op, ch))
    ensures Writes(sh, i, op, ch)
  {
  }

  /** A maintenance operation that returned without an error wrote. */
  lemma ReturnedMeansWritten(acts: seq<Action>, i: CallId) returns (k: nat)
    requires Legal(Init(), acts) && i in After(Init(), acts).ops
    requires Mains(After(Init(), acts).ops[i].call) && After(Init(), acts).ops[i].pc == Done(Returned)
    ensures StepIs(acts, k, i, Writes)
  {
    assert HasWritten(After(Init(), acts).ops[i]) by {
      assert Reachable(After(Init(), acts));
      ReturnedWrote(After(Init(), acts), i);
    }
    k := CrossedInRun(acts, i, HasWritten);
    var t := After(Init(), acts[..k]);
    WriteEffect(t.sh, i, t.ops[i], acts[k].choice);
  }

  /** And one that wrote returns without an error. */
  lemma ReturnedWrote(s: State, i: CallId)
    requires Reachable(s) && i in s.ops && Mains(s.ops[i].call) && s.ops[i].pc.Done?
    ensures s.ops[i].pc == Done(Returned) <==> HasWritten(s.ops[i])
    ensures s.ops[i].pc == Done(Refused) <==> !HasWritten(s.ops[i])
  {
    assert Shaped(s.ops[i]) by {
      ReachedScans(s);
    }
  }

  /** The step checks the passphrase against the wallet in the database opened first, and finds it
      right. */
  predicate ChecksPassphrase(sh: Shared, i: CallId, op: Op, ch: Choice) {
    && (op.call.Abandon? || op.call.Passphrase?) && op.pc.PassCheck? && ch.ok
    && |op.conns| > 0 && Lookup(sh.files, op.conns[|op.conns| - 1], op.call.wallet).Some?
  }

  /** The step finds the wallet's name to mean the account whose passphrase was checked. */
  predicate ChecksAccount(sh: Shared, i: CallId, op: Op, ch: Choice) {
    && op.call.Abandon? && op.pc.MaintCheck? && ch.ok
    && |op.conns| > 0 && op.account.Some? && Lookup(sh.files, op.conns[|op.conns| - 1], op.call.wallet) == op.account
  }

  predicate PastAccountCheck(op: Op) {
    op.call.Abandon? && (op.pc.StopScans? || op.pc.AwaitStop? || op.pc.WriteOpen? || op.pc.Write?)
  }

  predicate PastPassphrase(op: Op) {
    && (op.call.Abandon? || op.call.Passphrase?)
    && (op.pc.MaintWait? || op.pc.MaintOpen? || op.pc.MaintCheck? || op.pc.StopScans? || op.pc.AwaitStop?
        || op.pc.WriteOpen? || op.pc.Write?)
  }

  lemma CheckEffect(sh: Shared, i: CallId, op: Op, ch: Choice)
    requires Shaped(op) && CanStep(sh, op)
    ensures var op' := NextOp(sh, i, op, ch);
            && (!PastPassphrase(op) && PastPassphrase(op') ==> ChecksPassphrase(sh, i, op, ch))
            && (!PastAccountCheck(op) && PastAccountCheck(op') ==> ChecksAccount(sh, i, op, ch) && PastPassphrase(op))
  {
  }

  /** A passphrase change or abandon writes only after it found its passphrase right. */
  lemma WriteMeansChecked(acts: seq<Action>, i: CallId) returns (k: nat)
    requires Legal(Init(), acts) && i in After(Init(), acts).ops && PastPassphrase(After(Init(), acts).ops[i])
    ensures StepIs(acts, k, i, ChecksPassphrase)
  {
    k := CrossedInRun(acts, i, PastPassphrase);
    var t := After(Init(), acts[..k]);
    CheckEffect(t.sh, i, t.ops[i], acts[k].choice);
  }

  /** An abandon stops scans and writes only after it then found the account again. */
  lemma AbandonMeansRechecked(acts: seq<Action>, i: CallId) returns (passphrase: nat, account: nat)
    requires Legal(Init(), acts) && i in After(Init(), acts).ops && PastAccountCheck(After(Init(), acts).ops[i])
    ensures passphrase < account
    ensures StepIs(acts, passphrase, i, ChecksPassphrase) && StepIs(acts, account, i, ChecksAccount)
  {
    account := CrossedInRun(acts, i, PastAccountCheck);
    var t := After(Init(), acts[..account]);
    CheckEffect(t.sh, i, t.ops[i], acts[account].choice);
    passphrase := WriteMeansChecked(acts[..account], i);
    StepOfPrefix(acts, account, passphrase, i, ChecksPassphrase);
  }

  // ----- errors -----

  /** The step makes the call return an error: something outside the bridge fails, no database is
      recorded, the wallet is not in the database, or its name has come to mean another account. */
  predicate FailsMaintenance(sh: Shared, i: CallId, op: Op, ch: Choice) {
    && Mains(op.call)
    && ((op.pc.Entry? && !ch.ok)
        || (!op.call.Change? && op.pc.Entry? && D.DbPath(sh.db).None?)
        || (op.pc.PassCheck? && (!ch.ok || Found(sh, op).None?))
        || ((op.pc.MaintOpen? || op.pc.WriteOpen?) && (!ch.ok || D.DbPath(sh.db).None?))
        || (op.pc.MaintCheck? && (!ch.ok || Found(sh, op) != op.account))
        || (op.pc.Write? && !ch.ok))
  }

  /** The call is on its way to an error, or has returned one. */
  predicate WillRefuse(op: Op) {
    && Mains(op.call) && !op.wrote
    && (op.pc.MaintAbort? || op.pc.MaintDrop? || op.pc == Done(Refused) || (op.call.Change? && op.round.Second?))
  }

  lemma ChangeFails(sh: Shared, i: CallId, op: Op, ch: Choice)
    requires Shaped(op) && CanStep(sh, op) && op.call.Change?
    ensures WillRefuse(op) ==> WillRefuse(NextOp(sh, i, op, ch))
    ensures !WillRefuse(op) ==> (WillRefuse(NextOp(sh, i, op, ch)) <==> FailsMaintenance(sh, i, op, ch))
  {
    hide UnlockPc, ScanPc;
  }

  lemma OtherFails(sh: Shared, i: CallId, op: Op, ch: Choice)
    requires Shaped(op) && CanStep(sh, op) && (op.call.Abandon? || op.call.Passphrase?)
    ensures WillRefuse(op) ==> WillRefuse(NextOp(sh, i, op, ch))
    ensures !WillRefuse(op) ==> (WillRefuse(NextOp(sh, i, op, ch)) <==> FailsMaintenance(sh, i, op, ch))
  {
    hide UnlockPc, ScanPc, LockPc;
  }

  lemma MaintenanceFails(sh: Shared, i: CallId, op: Op, ch: Choice)
    requires Shaped(op) && CanStep(sh, op)
    ensures WillRefuse(op) ==> WillRefuse(NextOp(sh, i, op, ch))
    ensures !WillRefuse(op) ==> (WillRefuse(NextOp(sh, i, op, ch)) <==> FailsMaintenance(sh, i, op, ch))
  {
    hide NextPc, Shaped, CanStep;
    if op.call.Change? {
      ChangeFails(sh, i, op, ch);
    } else if op.call.Abandon? || op.call.Passphrase? {
      OtherFails(sh, i, op, ch);
    }
  }

  /** A maintenance operation that returned an error has a step that failed. */
  lemma RefusedBecause(acts: seq<Action>, i: CallId) returns (k: nat)
    requires Legal(Init(), acts) && i in After(Init(), acts).ops
    requires Mains(After(Init(), acts).ops[i].call) && After(Init(), acts).ops[i].pc == Done(Refused)
    ensures StepIs(acts, k, i, FailsMaintenance)
  {
    assert Reachable(After(Init(), acts));
    ReturnedWrote(After(Init(), acts), i);
    k := CrossedInRun(acts, i, WillRefuse);
    var t := After(Init(), acts[..k]);
    MaintenanceFails(t.sh, i, t.ops[i], acts[k].choice);
  }

  lemma {:induction false} RefusesForever(s: State, acts: seq<Action>, i: CallId)
    requires Reachable(s) && Legal(s, acts) && i in s.ops && WillRefuse(s.ops[i])
    ensures i in After(s, acts).ops && WillRefuse(After(s, acts).ops[i])
    decreases |acts|
  {
    hide WillRefuse, Mains;
    if acts != [] {
      assert AllShaped(s) by {
        ReachedScans(s);
      }
      if acts[0].Advance? && acts[0].i == i {
        MaintenanceFails(s.sh, i, s.ops[i], acts[0].choice);
      }
      ReachableApply(s, acts[0]);
      RefusesForever(Apply(s, acts[0]), acts[1..], i);
    }
  }

  /** And once a step has failed the call can only return an error. */
  lemma FailureIsReported(s: State, i: CallId, ch: Choice, acts: seq<Action>)
    requires Reachable(s) && Enabled(s, Advance(i, ch)) && FailsMaintenance(s.sh, i, s.ops[i], ch)
    requires Legal(Apply(s, Advance(i, ch)), acts)
    ensures var t := After(Apply(s, Advance(i, ch)), acts);
            i in t.ops && (t.ops[i].pc.Done? ==> t.ops[i].pc == Done(Refused))
  {
    assert Shaped(s.ops[i]) by {
      ReachedScans(s);
    }
    var next := Apply(s, Advance(i, ch));
    MaintenanceFails(s.sh, i, s.ops[i], ch);
    ReachableApply(s, Advance(i, ch));
    RefusesForever(next, acts, i);
    ReachableAfter(next, acts);
    if After(next, acts).ops[i].pc.Done? {
      ReturnedWrote(After(next, acts), i);
    }
  }
}
