/** A run that reaches what the session theorems speak of: an unlock that opens. */
module Witness {
  import opened Types
  import opened Protocol
  import opened Runs
  import D = Database
  import T = ScanTable
  import Drain
  import Liveness
  import ScanTheorems

  const GO := Choice(true, Completed, None)

  predicate At(s: State, i: CallId, call: Call, pc: Pc) {
    i in s.ops && s.ops[i].call == call && s.ops[i].pc == pc
  }

  /** Call `i` takes its next step. */
  lemma Go(s: State, i: CallId) returns (t: State)
    requires Reachable(s) && i in s.ops && CanStep(s.sh, s.ops[i])
    ensures Reachable(t) && t == State(NextShared(s.sh, i, s.ops[i], GO), s.ops[i := NextOp(s.sh, i, s.ops[i], GO)])
  {
    ReachableApply(s, Advance(i, GO));
    t := Apply(s, Advance(i, GO));
  }

  /** The first call is the only one so far, and its wallet is counted once. */
  predicate Alone(s: State, w: Wallet) {
    s.ops.Keys == {0} && w in s.sh.db.sessions && s.sh.db.sessions[w].count == 1
  }

  /** On a fresh process the first unlock counts. */
  lemma UnlockReachesGate(w: Wallet, path: Path) returns (s: State)
    ensures Reachable(s) && At(s, 0, Unlock(w, path), Queued)
    ensures s.ops[0].gen == Some(0) && D.CountedAs(s.sh.db, w, 0) && s.sh.keys == map[] && s.sh.gates == map[]
    ensures Alone(s, w)
  {
    hide NextLedger, NextScans, NextMaint, NextFiles, NextReplacedBy, UnlockPc, LockPc, MaintPc, ScanPc;
    InitReachable();
    ReachableApply(Init(), Begin(0, Unlock(w, path)));
    s := Apply(Init(), Begin(0, Unlock(w, path)));
    s := Go(s, 0);
  }

  /** It takes the gate and finds no key session. */
  lemma UnlockReachesKeys(w: Wallet, path: Path) returns (s: State)
    ensures Reachable(s) && At(s, 0, Unlock(w, path), KeyUnlock)
    ensures s.ops[0].gen == Some(0) && D.CountedAs(s.sh.db, w, 0) && s.sh.keys == map[]
    ensures Alone(s, w)
  {
    hide NextLedger, NextScans, NextMaint, NextFiles, NextReplacedBy, EntryPc, LockPc, MaintPc, ScanPc;
    s := UnlockReachesGate(w, path);
    s := Go(s, 0);
    s := Go(s, 0);
  }

  lemma UnlockReachesCheck(w: Wallet, path: Path) returns (s: State)
    ensures Reachable(s) && At(s, 0, Unlock(w, path), Confirm) && StillCounted(s.sh, s.ops[0]) && w in s.sh.keys
    ensures Alone(s, w)
  {
    hide NextLedger, NextScans, NextMaint, NextFiles, NextReplacedBy, NextGates, EntryPc, MaintPc, ScanPc;
    s := UnlockReachesKeys(w, path);
    s := Go(s, 0);
  }

  lemma UnlockReachesEnd(w: Wallet, path: Path) returns (s: State)
    ensures Reachable(s) && At(s, 0, Unlock(w, path), GateDrop(Opened))
    ensures StillCounted(s.sh, s.ops[0]) && w in s.sh.keys && Alone(s, w)
  {
    hide NextLedger, NextScans, NextMaint, NextFiles, NextReplacedBy, NextGates, EntryPc, MaintPc, ScanPc;
    s := UnlockReachesCheck(w, path);
    s := Go(s, 0);
  }

  /** It makes a key session, passes its last check and returns `Ok`: every wallet and path has a run
      with a live holder. */
  lemma UnlockCanOpen(w: Wallet, path: Path) returns (s: State)
    ensures Reachable(s) && At(s, 0, Unlock(w, path), Done(UnlockOk))
    ensures StillCounted(s.sh, s.ops[0]) && w in s.sh.keys && Alone(s, w)
  {
    hide NextLedger, NextScans, NextMaint, NextFiles, NextReplacedBy, NextGates, EntryPc, MaintPc, ScanPc;
    s := UnlockReachesEnd(w, path);
    s := Go(s, 0);
  }

  // ----- a scan that nothing hinders -----

  /** What the scan `i` has to find in its next steps to scan to the end. */
  predicate Clear(sh: Shared, i: CallId, op: Op) {
    var w := op.call.wallet;
    && op.call.Scan? && i !in sh.scans.superseded
    && match op.pc {
         case Entry => op.call.id in sh.scans.issued && op.call.id !in sh.scans.stoppedBeforeStart && Free(sh, i, w)
         case Claimed | PathKnown | Connected | Ready => op.call.id in sh.scans.starting && Free(sh, i, w)
         case AtSlot => op.call.id in sh.scans.starting && w !in sh.scans.running && i !in sh.scans.cancelled
         case Placed(previous) => previous.None? && Occupies(sh, i, w) && i !in sh.scans.cancelled
         case InSlot => Occupies(sh, i, w) && i !in sh.scans.cancelled
         case Scanning => Occupies(sh, i, w)
         case Leaving(ending) => ending.Completed?
         case Unclaim(ending) => ending.Completed?
         case Finish(ending) => ending.Completed?
         case Sent(ending) => ending.Completed?
         case Done(outcome) => outcome == Streamed(Completed) && i in sh.scans.stopped
         case _ => false
       }
  }

  /** The wallet is unlocked, no maintenance has it and no scan is in its slot. */
  predicate Free(sh: Shared, i: CallId, w: Wallet) {
    && w in sh.keys && D.DbPath(sh.db).Some? && w !in sh.maint
    && w !in sh.scans.running && i !in sh.scans.cancelled
  }

  predicate Occupies(sh: Shared, i: CallId, w: Wallet) {
    w in sh.scans.running && sh.scans.running[w].run == i
  }

  /** How many steps the scan still has to take. */
  function StepsLeft(pc: Pc): nat {
    match pc
    case Entry => 13
    case Claimed => 12
    case PathKnown => 11
    case Connected => 10
    case Ready => 9
    case AtSlot => 8
    case Placed(_) => 7
    case InSlot => 6
    case Scanning => 5
    case Leaving(_) => 4
    case Unclaim(_) => 3
    case Finish(_) => 2
    case Sent(_) => 1
    case _ => 0
  }

  /** The scan `i` goes on, and what it needs stays. */
  predicate Goes(sh: Shared, i: CallId, op: Op) {
    var sh', op' := NextShared(sh, i, op, GO), NextOp(sh, i, op, GO);
    && CanStep(sh, op) && Clear(sh', i, op') && op'.call == op.call && sh'.db == sh.db && sh'.gates == sh.gates
    && StepsLeft(op'.pc) == StepsLeft(op.pc) - 1
  }

  lemma ClearClaim(sh: Shared, i: CallId, op: Op)
    requires Clear(sh, i, op) && op.pc.Entry?
    ensures Goes(sh, i, op)
  {
    hide NextLedger, NextReplacedBy, NextFiles, UnlockPc, LockPc, MaintPc;
  }

  lemma ClearStart(sh: Shared, i: CallId, op: Op)
    requires Clear(sh, i, op) && 9 <= StepsLeft(op.pc) < 13
    ensures Goes(sh, i, op)
  {
    hide NextLedger, NextReplacedBy, NextFiles, UnlockPc, LockPc, MaintPc, EntryPc, Slot;
  }

  lemma ClearSlot(sh: Shared, i: CallId, op: Op)
    requires Clear(sh, i, op) && 6 <= StepsLeft(op.pc) < 9
    ensures Goes(sh, i, op)
  {
    hide NextLedger, NextReplacedBy, NextFiles, UnlockPc, LockPc, MaintPc, EntryPc;
  }

  lemma ClearEnd(sh: Shared, i: CallId, op: Op)
    requires Clear(sh, i, op) && 0 < StepsLeft(op.pc) < 6
    ensures Goes(sh, i, op)
  {
    hide NextLedger, NextReplacedBy, NextFiles, UnlockPc, LockPc, MaintPc, EntryPc, Slot;
  }

  lemma ClearGoes(sh: Shared, i: CallId, op: Op)
    requires Clear(sh, i, op) && StepsLeft(op.pc) > 0
    ensures Goes(sh, i, op)
  {
    if op.pc.Entry? {
      ClearClaim(sh, i, op);
    } else if StepsLeft(op.pc) >= 9 {
      ClearStart(sh, i, op);
    } else if StepsLeft(op.pc) >= 6 {
      ClearSlot(sh, i, op);
    } else {
      ClearEnd(sh, i, op);
    }
    hide Goes, Clear;
  }

  lemma ClearGo(s: State, i: CallId) returns (t: State)
    requires Reachable(s) && i in s.ops && Clear(s.sh, i, s.ops[i]) && StepsLeft(s.ops[i].pc) > 0
    ensures Reachable(t) && i in t.ops && Clear(t.sh, i, t.ops[i])
    ensures t.sh.db == s.sh.db && t.sh.gates == s.sh.gates && t.ops == s.ops[i := t.ops[i]]
    ensures t.ops[i].call == s.ops[i].call && StepsLeft(t.ops[i].pc) == StepsLeft(s.ops[i].pc) - 1
  {
    hide Clear, NextShared, NextOp, StepsLeft, CanStep, Reachable;
    ClearGoes(s.sh, i, s.ops[i]);
    t := Go(s, i);
  }

  /** From a state where nothing hinders it a scan goes on by itself until it has `left` steps
      left. */
  lemma {:induction false} ScanGoesOn(s: State, i: CallId, left: nat) returns (t: State)
    requires Reachable(s) && i in s.ops && Clear(s.sh, i, s.ops[i]) && left <= StepsLeft(s.ops[i].pc)
    ensures Reachable(t) && i in t.ops && Clear(t.sh, i, t.ops[i])
    ensures t.sh.db == s.sh.db && t.sh.gates == s.sh.gates && t.ops == s.ops[i := t.ops[i]]
    ensures t.ops[i].call == s.ops[i].call && StepsLeft(t.ops[i].pc) == left
    decreases StepsLeft(s.ops[i].pc)
  {
    hide Clear, StepsLeft, Reachable;
    t := s;
    if StepsLeft(s.ops[i].pc) > left {
      t := ClearGo(s, i);
      t := ScanGoesOn(t, i, left);
    }
  }

  lemma {:induction false} UnusedId(used: set<CallId>) returns (i: CallId)
    ensures forall j :: j in used ==> j < i
    decreases used
  {
    i := 0;
    if used != {} {
      var j :| j in used;
      var above := UnusedId(used - {j});
      i := if above > j then above else j + 1;
      assert used == (used - {j}) + {j};
    }
  }

  lemma BeginOne(s: State, i: CallId, call: Call) returns (t: State)
    requires Reachable(s) && i !in s.ops
    ensures Reachable(t) && t == s.(ops := s.ops[i := NewOp(call)])
  {
    ReachableApply(s, Begin(i, call));
    t := Apply(s, Begin(i, call));
  }

  lemma DrawEffect(sh: Shared, i: CallId, op: Op)
    requires op.call.Create? && (op.pc.Entry? || op.pc.IssueId?)
    ensures CanStep(sh, op)
    ensures op.pc.Entry? ==> NextOp(sh, i, op, GO) == op.(pc := IssueId(sh.nextHandle)) && NextShared(sh, i, op, GO) == sh.(nextHandle := sh.nextHandle + 1)
    ensures op.pc.IssueId? ==> NextOp(sh, i, op, GO) == op.(pc := Done(Issued(op.pc.id)))
                               && NextShared(sh, i, op, GO) == sh.(scans := T.Issue(sh.scans, op.pc.id))
  {
  }

  /** `create_scan_handle` in a state where no call is in flight. */
  lemma HandleIssued(s: State, i: CallId, w: Wallet) returns (t: State, id: nat)
    requires Reachable(s) && i !in s.ops
    ensures Reachable(t) && i in t.ops && t.ops == s.ops[i := t.ops[i]] && t.ops[i].pc == Done(Issued(id))
    ensures t.sh == s.sh.(nextHandle := s.sh.nextHandle + 1, scans := T.Issue(s.sh.scans, id))
  {
    hide NextShared, NextOp, CanStep, Reachable;
    id := s.sh.nextHandle;
    t := BeginOne(s, i, Create(w));
    DrawEffect(t.sh, i, t.ops[i]);
    t := Go(t, i);
    DrawEffect(t.sh, i, t.ops[i]);
    t := Go(t, i);
  }

  /** With no call in flight, an unlocked wallet's scan can start. */
  lemma ScanCanStart(s: State, w: Wallet, priority: T.Priority) returns (i: CallId, id: nat, t: State)
    requires Reachable(s) && Drain.Idle(s) && w in s.sh.keys
    ensures Reachable(t) && i !in s.ops && i in t.ops && t.ops[i] == NewOp(Scan(w, id, priority))
    ensures Clear(t.sh, i, t.ops[i]) && t.sh.db == s.sh.db && t.sh.gates == map[]
  {
    hide Reachable, Drain.Idle;
    Liveness.IdleMeansClean(s);
    assert s.sh.db.open.Some? by {
      ReachedSessions(s);
    }
    var c := UnusedId(s.ops.Keys);
    t, id := HandleIssued(s, c, w);
    assert id !in t.sh.scans.stoppedBeforeStart by {
      ScanTheorems.HandleStations(t, id, w);
    }
    i := UnusedId(t.ops.Keys + t.sh.scans.cancelled + t.sh.scans.superseded);
    t := BeginOne(t, i, Scan(w, id, priority));
  }

  /** With no call in flight, an unlocked wallet can be scanned to the end. */
  lemma ScanCanComplete(s: State, w: Wallet, priority: T.Priority) returns (i: CallId, id: nat, t: State)
    requires Reachable(s) && Drain.Idle(s) && w in s.sh.keys
    ensures Reachable(t) && i !in s.ops && At(t, i, Scan(w, id, priority), Done(Streamed(Completed)))
  {
    hide Reachable, Drain.Idle;
    i, id, t := ScanCanStart(s, w, priority);
    t := ScanGoesOn(t, i, 0);
  }

  // ----- the last lock of a wallet that is being scanned -----

  /** What the lock has to find in its next steps to wait for the scan `run`. */
  predicate LockClear(sh: Shared, op: Op, run: CallId) {
    var w := op.call.wallet;
    && op.call.Lock? && Occupies(sh, run, w) && run !in sh.scans.superseded
    && match op.pc {
         case Entry => w in sh.db.sessions && sh.db.sessions[w].count == 1 && w !in sh.gates
         case GateWait => w !in sh.db.sessions && w !in sh.gates
         case LockCheck => w !in sh.db.sessions
         case LockKeys | CancelScans | StopScans => true
         case GateDrop(verdict) => verdict.Wiped?
         case AwaitStop(r) => r == run
         case _ => false
       }
  }

  function LockStepsLeft(pc: Pc): nat {
    match pc
    case Entry => 7
    case GateWait => 6
    case LockCheck => 5
    case LockKeys => 4
    case CancelScans => 3
    case GateDrop(_) => 2
    case StopScans => 1
    case _ => 0
  }

  predicate LockGoes(sh: Shared, i: CallId, op: Op, run: CallId) {
    var sh', op' := NextShared(sh, i, op, GO), NextOp(sh, i, op, GO);
    && CanStep(sh, op) && LockClear(sh', op', run) && op'.call == op.call
    && LockStepsLeft(op'.pc) == LockStepsLeft(op.pc) - 1
  }

  lemma LockEnters(sh: Shared, i: CallId, op: Op, run: CallId)
    requires LockClear(sh, op, run) && op.pc.Entry?
    ensures LockGoes(sh, i, op, run)
  {
    hide NextLedger, NextReplacedBy, NextFiles, UnlockPc, LockPc, MaintPc, ScanPc;
  }

  lemma LockClearGoes(sh: Shared, i: CallId, op: Op, run: CallId)
    requires LockClear(sh, op, run) && 0 < LockStepsLeft(op.pc) < 7
    ensures LockGoes(sh, i, op, run)
  {
    hide NextLedger, NextReplacedBy, NextFiles, UnlockPc, EntryPc, ScanPc;
  }

  lemma LockGo(s: State, i: CallId, run: CallId) returns (t: State)
    requires Reachable(s) && i in s.ops && LockClear(s.sh, s.ops[i], run) && LockStepsLeft(s.ops[i].pc) > 0
    ensures Reachable(t) && i in t.ops && LockClear(t.sh, t.ops[i], run)
    ensures t.ops == s.ops[i := t.ops[i]] && t.ops[i].call == s.ops[i].call
    ensures LockStepsLeft(t.ops[i].pc) == LockStepsLeft(s.ops[i].pc) - 1
  {
    hide LockClear, NextShared, NextOp, CanStep, Reachable;
    if s.ops[i].pc.Entry? {
      LockEnters(s.sh, i, s.ops[i], run);
    } else {
      LockClearGoes(s.sh, i, s.ops[i], run);
    }
    t := Go(s, i);
  }

  lemma {:induction false} LockGoesOn(s: State, i: CallId, run: CallId) returns (t: State)
    requires Reachable(s) && i in s.ops && LockClear(s.sh, s.ops[i], run)
    ensures Reachable(t) && i in t.ops && LockClear(t.sh, t.ops[i], run)
    ensures t.ops == s.ops[i := t.ops[i]] && t.ops[i].call == s.ops[i].call
    ensures LockStepsLeft(t.ops[i].pc) == 0
    decreases LockStepsLeft(s.ops[i].pc)
  {
    hide LockClear, LockStepsLeft, Reachable;
    t := s;
    if LockStepsLeft(s.ops[i].pc) > 0 {
      t := LockGo(s, i, run);
      t := LockGoesOn(t, i, run);
    }
  }

  lemma ScanHasSteps(op: Op)
    requires op.pc.Entry?
    ensures StepsLeft(op.pc) == 13
  {
  }

  lemma StationsRead(sh: Shared, i: CallId, op: Op)
    requires Clear(sh, i, op)
    ensures op.call.Scan?
    ensures StepsLeft(op.pc) == 5 ==> op.pc.Scanning? && Occupies(sh, i, op.call.wallet) && i !in sh.scans.superseded
    ensures StepsLeft(op.pc) == 0 ==> op.pc == Done(Streamed(Completed)) && i in sh.scans.stopped
  {
  }

  lemma WaitRead(sh: Shared, op: Op, run: CallId)
    requires LockClear(sh, op, run) && LockStepsLeft(op.pc) == 0
    ensures op.pc == AwaitStop(run) && Occupies(sh, run, op.call.wallet) && run !in sh.scans.superseded
  {
  }

  lemma ScanningIsClear(sh: Shared, i: CallId, op: Op)
    requires op.call.Scan? && op.pc.Scanning? && Occupies(sh, i, op.call.wallet) && i !in sh.scans.superseded
    ensures Clear(sh, i, op)
  {
  }

  lemma LockStarts(sh: Shared, w: Wallet, run: CallId)
    requires Occupies(sh, run, w) && run !in sh.scans.superseded
    requires w in sh.db.sessions && sh.db.sessions[w].count == 1 && w !in sh.gates
    ensures LockClear(sh, NewOp(Lock(w)), run)
  {
  }

  lemma WaitEnds(s: State, i: CallId, run: CallId) returns (t: State)
    requires Reachable(s) && i in s.ops && s.ops[i].call.Lock? && s.ops[i].pc == AwaitStop(run)
    requires run in s.sh.scans.stopped
    ensures Reachable(t) && i in t.ops && t.ops == s.ops[i := t.ops[i]]
    ensures t.ops[i].call == s.ops[i].call && t.ops[i].pc == Done(Locked(true))
  {
    hide Reachable, NextShared;
    assert CanStep(s.sh, s.ops[i]);
    assert NextOp(s.sh, i, s.ops[i], GO).pc == Done(Locked(true)) && NextOp(s.sh, i, s.ops[i], GO).call == s.ops[i].call;
    hide NextOp, CanStep;
    t := Go(s, i);
  }

  /** A last lock that starts while its wallet is being scanned comes to wait for the scan. */
  lemma LockComesToWait(s: State, i: CallId, l: CallId) returns (t: State)
    requires Reachable(s) && i in s.ops && Clear(s.sh, i, s.ops[i]) && StepsLeft(s.ops[i].pc) == 5 && l !in s.ops
    requires var w := s.ops[i].call.wallet; w in s.sh.db.sessions && s.sh.db.sessions[w].count == 1 && w !in s.sh.gates
    ensures Reachable(t) && At(t, i, s.ops[i].call, Scanning) && Clear(t.sh, i, t.ops[i])
    ensures At(t, l, Lock(s.ops[i].call.wallet), AwaitStop(i))
  {
    hide Reachable, Clear, LockClear, StepsLeft, LockStepsLeft, Occupies;
    var call := s.ops[i].call;
    StationsRead(s.sh, i, s.ops[i]);
    LockStarts(s.sh, call.wallet, i);
    t := BeginOne(s, l, Lock(call.wallet));
    t := LockGoesOn(t, l, i);
    WaitRead(t.sh, t.ops[l], i);
    ScanningIsClear(t.sh, i, t.ops[i]);
  }

  /** Then the scan goes on to its end, and the lock answers `true`. */
  lemma LockStopsWaiting(s: State, i: CallId, l: CallId) returns (t: State)
    requires Reachable(s) && i in s.ops && Clear(s.sh, i, s.ops[i]) && l in s.ops && l != i
    requires s.ops[l].call.Lock? && s.ops[l].pc == AwaitStop(i)
    ensures Reachable(t) && i in t.ops && t.ops[i].call == s.ops[i].call && t.ops[i].pc == Done(Streamed(Completed))
    ensures l in t.ops && t.ops[l].call == s.ops[l].call && t.ops[l].pc == Done(Locked(true))
  {
    hide *;
    t := ScanGoesOn(s, i, 0);
    StationsRead(t.sh, i, t.ops[i]);
    t := WaitEnds(t, l, i);
  }

  /** With no call in flight, the last lock of an unlocked wallet can find it being scanned, wait
      for that scan and answer `true`; nothing blocks either of them on the way. */
  lemma LockCanWait(s: State, w: Wallet, priority: T.Priority)
    returns (i: CallId, id: nat, l: CallId, waiting: State, t: State)
    requires Reachable(s) && Drain.Idle(s) && w in s.sh.keys
    requires w in s.sh.db.sessions && s.sh.db.sessions[w].count == 1
    ensures Reachable(waiting) && At(waiting, i, Scan(w, id, priority), Scanning) && At(waiting, l, Lock(w), AwaitStop(i))
    ensures Reachable(t) && At(t, i, Scan(w, id, priority), Done(Streamed(Completed)))
    ensures At(t, l, Lock(w), Done(Locked(true)))
  {
    hide Reachable, Drain.Idle, Clear, StepsLeft;
    i, id, t := ScanCanStart(s, w, priority);
    ScanHasSteps(t.ops[i]);
    t := ScanGoesOn(t, i, 5);
    l := UnusedId(t.ops.Keys);
    waiting := LockComesToWait(t, i, l);
    t := LockStopsWaiting(waiting, i, l);
  }

  /** Every wallet and path has a run whose last lock waits for a scan before it answers `true`. */
  lemma LockWaitsSomewhere(w: Wallet, path: Path) returns (i: CallId, l: CallId, waiting: State, t: State)
    ensures Reachable(waiting) && i in waiting.ops && waiting.ops[i].pc.Scanning? && At(waiting, l, Lock(w), AwaitStop(i))
    ensures Reachable(t) && i in t.ops && t.ops[i].pc == Done(Streamed(Completed)) && At(t, l, Lock(w), Done(Locked(true)))
  {
    var s := UnlockCanOpen(w, path);
    var id;
    assert Drain.Idle(s);
    i, id, l, waiting, t := LockCanWait(s, w, T.Foreground);
  }
}
