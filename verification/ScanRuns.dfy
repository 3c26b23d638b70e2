/** What a scan did on its way: it saw a key session, and its stream ends as its run says. */
module ScanRuns {
  import opened Types
  import opened Protocol
  import opened Shape
  import opened Runs
  import D = Database
  import T = ScanTable
  import ScanRecords
  import Supersession

  // ----- unlocked -----

  /** The step finds a key session of the scan's wallet. */
  predicate FindsUnlocked(sh: Shared, i: CallId, op: Op, ch: Choice) {
    op.call.Scan? && op.pc.Connected? && ch.ok && op.call.wallet in sh.keys
  }

  predicate SawOne(op: Op) {
    op.epoch.Some?
  }

  lemma SeeEffect(sh: Shared, i: CallId, op: Op, ch: Choice)
    requires Shaped(op) && CanStep(sh, op) && ScanRecords.SawKeys(op)
    ensures var op' := NextOp(sh, i, op, ch);
            && (SawOne(op) ==> op'.epoch == op.epoch)
            && (!SawOne(op) && SawOne(op') ==>
                  FindsUnlocked(sh, i, op, ch) && op'.epoch == Some(sh.keys[op.call.wallet]))
  {
  }

  /** A scan that may take a slot, or ever took one, saw a key session. */
  lemma ScannedSawKeys(s: State, i: CallId)
    requires Reachable(s) && i in s.ops
    requires s.ops[i].turn.Some? || s.ops[i].pc.Ready? || s.ops[i].pc.AtSlot?
    ensures s.ops[i].epoch.Some?
  {
    assert ScanRecords.SawKeys(s.ops[i]) by {
      ReachedScans(s);
    }
  }

  lemma {:induction false} EpochStays(s: State, acts: seq<Action>, i: CallId)
    requires Reachable(s) && Legal(s, acts) && i in s.ops && SawOne(s.ops[i])
    ensures i in After(s, acts).ops && After(s, acts).ops[i].epoch == s.ops[i].epoch
    decreases |acts|
  {
    if acts == [] {
    } else {
      assert AllShaped(s) && ScanRecords.SeenInv(s) by {
        ReachedScans(s);
      }
      if acts[0].Advance? && acts[0].i == i {
        SeeEffect(s.sh, i, s.ops[i], acts[0].choice);
      }
      ReachableApply(s, acts[0]);
      EpochStays(Apply(s, acts[0]), acts[1..], i);
    }
  }

  lemma SeenFrom(t: State, a: Action, rest: seq<Action>, i: CallId)
    requires Reachable(t) && Enabled(t, a) && a.Advance? && a.i == i && Legal(Apply(t, a), rest)
    requires !SawOne(t.ops[i]) && SawOne(NextOp(t.sh, i, t.ops[i], a.choice))
    ensures FindsUnlocked(t.sh, i, t.ops[i], a.choice)
    ensures var u := After(Apply(t, a), rest);
            i in u.ops && u.ops[i].epoch == Some(t.sh.keys[t.ops[i].call.wallet])
  {
    assert AllShaped(t) && ScanRecords.SeenInv(t) by {
      ReachedScans(t);
    }
    SeeEffect(t.sh, i, t.ops[i], a.choice);
    ReachableApply(t, a);
    EpochStays(Apply(t, a), rest, i);
  }

  /** Every scan that ever held its slot has a step of its own in which its wallet's key session
      existed, and that is the one it recorded. */
  lemma ScannedWasUnlocked(acts: seq<Action>, i: CallId) returns (k: nat)
    requires Legal(Init(), acts) && i in After(Init(), acts).ops && After(Init(), acts).ops[i].turn.Some?
    ensures StepIs(acts, k, i, FindsUnlocked)
    ensures var t := After(Init(), acts[..k]);
            After(Init(), acts).ops[i].epoch == Some(t.sh.keys[t.ops[i].call.wallet])
  {
    assert Reachable(After(Init(), acts));
    ScannedSawKeys(After(Init(), acts), i);
    k := CrossedInRun(acts, i, SawOne);
    SplitRun(Init(), acts, k);
    SeenFrom(After(Init(), acts[..k]), acts[k], acts[k + 1..], i);
  }

  // ----- cancelled -----

  lemma NoLateScan(s: State, a: Action, i: CallId)
    requires Enabled(s, a) && i in s.ops && i in s.sh.scans.cancelled && !s.ops[i].pc.Scanning?
    ensures var t := Apply(s, a);
            i in t.ops && i in t.sh.scans.cancelled && !t.ops[i].pc.Scanning?
  {
    if a.Advance? {
      CancelledEffect(s.sh, a.i, s.ops[a.i], a.choice, i);
      hide NextPc, NextScans, CanStep;
    }
  }

  lemma CancelledEffect(sh: Shared, j: CallId, op: Op, ch: Choice, i: CallId)
    requires i in sh.scans.cancelled
    ensures i in NextScans(sh, j, op, ch).cancelled
    ensures j == i && !op.pc.Scanning? ==> !NextPc(sh, j, op, ch).Scanning?
  {
  }

  /** A scan cancelled before its scanner starts leaves the database untouched: it never scans. */
  lemma {:induction false} CancelledNeverScans(s: State, acts: seq<Action>, i: CallId)
    requires Legal(s, acts) && i in s.ops && i in s.sh.scans.cancelled && !s.ops[i].pc.Scanning?
    ensures var t := After(s, acts);
            i in t.ops && i in t.sh.scans.cancelled && !t.ops[i].pc.Scanning?
    decreases |acts|
  {
    if acts == [] {
    } else {
      NoLateScan(s, acts[0], i);
      CancelledNeverScans(Apply(s, acts[0]), acts[1..], i);
    }
  }

  /** A scan whose stream is closed under it is cancelled. */
  lemma ClosedIsCancelled(s: State, i: CallId)
    requires Enabled(s, SinkClosed(i))
    ensures i in Apply(s, SinkClosed(i)).sh.scans.cancelled
    ensures Apply(s, SinkClosed(i)).sh.scans.superseded == s.sh.scans.superseded
  {
  }

  // ----- endings -----

  /** Why a step makes its scan end with an error. */
  predicate FailsScan(sh: Shared, i: CallId, op: Op, ch: Choice) {
    var t, w := sh.scans, op.call.wallet;
    && op.call.Scan?
    && ((!ch.ok && (op.pc.Entry? || op.pc.Claimed? || op.pc.PathKnown? || op.pc.Connected? || op.pc.Scanning?))
        || (op.pc.Entry? && op.call.id !in t.issued && op.call.id !in t.stoppedBeforeStart)
        || ((op.pc.Claimed? || op.pc.PathKnown?) && D.DbPath(sh.db).None?)
        || (op.pc.Connected? && w !in sh.keys)
        || (op.pc.AtSlot? && op.call.id in t.starting && w in t.running
            && t.running[w].priority.Foreground? && op.call.priority.Background?
            && t.running[w].run !in t.cancelled && t.running[w].run !in t.stopped))
  }

  /** Why a step makes its scan end cancelled: it was stopped before its start or its slot, it finds
      its token fired, or its scanner says so, and no newer scan replaced it. */
  predicate CancelsScan(sh: Shared, i: CallId, op: Op, ch: Choice) {
    && op.call.Scan?
    && ((op.pc.Entry? && ch.ok && op.call.id in sh.scans.stoppedBeforeStart)
        || (op.pc.AtSlot? && op.call.id !in sh.scans.starting)
        || (op.pc.InSlot? && i in sh.scans.cancelled && i !in sh.scans.superseded)
        || (op.pc.Scanning? && ch.ok && i !in sh.scans.superseded
            && !ch.ending.Completed? && !ch.ending.BudgetExhausted?))
  }

  /** Why it ends superseded: a newer scan of the wallet replaced it. */
  predicate SupersedesScan(sh: Shared, i: CallId, op: Op, ch: Choice) {
    && op.call.Scan? && i in sh.scans.superseded
    && ((op.pc.InSlot? && i in sh.scans.cancelled) || (op.pc.Scanning? && ch.ok))
  }

  /** Why it ends as its scanner reports. */
  predicate CompletesScan(sh: Shared, i: CallId, op: Op, ch: Choice) {
    op.call.Scan? && op.pc.Scanning? && ch.ok && i !in sh.scans.superseded && ch.ending.Completed?
  }

  predicate ExhaustsScan(sh: Shared, i: CallId, op: Op, ch: Choice) {
    op.call.Scan? && op.pc.Scanning? && ch.ok && i !in sh.scans.superseded && ch.ending.BudgetExhausted?
  }

  function Causes(e: Ending): (Shared, CallId, Op, Choice) -> bool {
    match e
    case Completed => CompletesScan
    case Cancelled => CancelsScan
    case Superseded => SupersedesScan
    case BudgetExhausted => ExhaustsScan
    case Error => FailsScan
  }

  predicate EndsWith(op: Op, e: Ending) {
    Supersession.EndingOf(op) == Some(e)
  }

  lemma EarlyEnding(sh: Shared, i: CallId, op: Op, ch: Choice, e: Ending)
    requires Shaped(op) && CanStep(sh, op) && op.call.Scan? && Supersession.EndingOf(op).None?
    requires !op.pc.InSlot? && !op.pc.Scanning?
    ensures EndsWith(NextOp(sh, i, op, ch), e) <==> Causes(e)(sh, i, op, ch)
  {
  }

  lemma LateEnding(sh: Shared, i: CallId, op: Op, ch: Choice, e: Ending)
    requires Shaped(op) && CanStep(sh, op) && op.call.Scan? && (op.pc.InSlot? || op.pc.Scanning?)
    ensures EndsWith(NextOp(sh, i, op, ch), e) <==> Causes(e)(sh, i, op, ch)
  {
  }

  lemma EndingStays(sh: Shared, i: CallId, op: Op, ch: Choice)
    requires Shaped(op) && CanStep(sh, op) && Supersession.EndingOf(op).Some?
    ensures Supersession.EndingOf(NextOp(sh, i, op, ch)) == Supersession.EndingOf(op)
    ensures op.call.Scan?
  {
  }

  lemma EndingBegins(sh: Shared, i: CallId, op: Op, ch: Choice, e: Ending)
    requires Shaped(op) && CanStep(sh, op) && !EndsWith(op, e) && EndsWith(NextOp(sh, i, op, ch), e)
    ensures Causes(e)(sh, i, op, ch)
  {
    if Supersession.EndingOf(op).Some? {
      EndingStays(sh, i, op, ch);
    } else if op.call.Scan? {
      if op.pc.InSlot? || op.pc.Scanning? {
        LateEnding(sh, i, op, ch, e);
      } else {
        EarlyEnding(sh, i, op, ch, e);
      }
    } else {
      OnlyScansEnd(sh, i, op, ch);
    }
  }

  lemma OnlyScansEnd(sh: Shared, i: CallId, op: Op, ch: Choice)
    requires Shaped(op) && CanStep(sh, op) && !op.call.Scan?
    ensures Supersession.EndingOf(NextOp(sh, i, op, ch)).None?
  {
  }

  /** Every stream's ending has its cause in a step of its scan. */
  lemma EndedBecause(acts: seq<Action>, i: CallId, e: Ending) returns (k: nat)
    requires Legal(Init(), acts) && i in After(Init(), acts).ops && After(Init(), acts).ops[i].pc == Done(Streamed(e))
    ensures StepIs(acts, k, i, Causes(e))
  {
    k := CrossedInRun(acts, i, (op: Op) => EndsWith(op, e));
    var t := After(Init(), acts[..k]);
    EndingBegins(t.sh, i, t.ops[i], acts[k].choice, e);
  }

  lemma {:induction false} EndingForever(s: State, acts: seq<Action>, i: CallId, e: Ending)
    requires Reachable(s) && Legal(s, acts) && i in s.ops && EndsWith(s.ops[i], e)
    ensures i in After(s, acts).ops && EndsWith(After(s, acts).ops[i], e)
    decreases |acts|
  {
    if acts == [] {
    } else {
      assert AllShaped(s) by {
        ReachedScans(s);
      }
      if acts[0].Advance? && acts[0].i == i {
        EndingStays(s.sh, i, s.ops[i], acts[0].choice);
      }
      ReachableApply(s, acts[0]);
      EndingForever(Apply(s, acts[0]), acts[1..], i, e);
    }
  }

  lemma CauseEnds(sh: Shared, i: CallId, op: Op, ch: Choice, e: Ending)
    requires Shaped(op) && CanStep(sh, op) && Supersession.EndingOf(op).None? && Causes(e)(sh, i, op, ch)
    ensures EndsWith(NextOp(sh, i, op, ch), e)
  {
    if op.pc.InSlot? || op.pc.Scanning? {
      LateEnding(sh, i, op, ch, e);
    } else {
      EarlyEnding(sh, i, op, ch, e);
    }
    hide NextOp, Shaped, CanStep;
  }

  /** And from a step with such a cause on its stream can end in no other way. */
  lemma CauseDecides(s: State, i: CallId, ch: Choice, acts: seq<Action>, e: Ending)
    requires Reachable(s) && Enabled(s, Advance(i, ch)) && Supersession.EndingOf(s.ops[i]).None?
    requires Causes(e)(s.sh, i, s.ops[i], ch) && Legal(Apply(s, Advance(i, ch)), acts)
    ensures var t := After(Apply(s, Advance(i, ch)), acts);
            i in t.ops && (t.ops[i].pc.Done? ==> t.ops[i].pc == Done(Streamed(e)))
  {
    assert Shaped(s.ops[i]) by {
      ReachedScans(s);
    }
    CauseEnds(s.sh, i, s.ops[i], ch, e);
    hide Causes, NextOp, NextShared, CanStep, Shaped;
    ReachableApply(s, Advance(i, ch));
    EndingForever(Apply(s, Advance(i, ch)), acts, i, e);
  }

  // ----- handles -----

  /** The step makes the handle usable. */
  predicate Records(sh: Shared, op: Op, ch: Choice, i: CallId, id: nat) {
    op.call.Create? && op.pc == IssueId(id) && id in NextScans(sh, i, op, ch).issued
  }

  predicate HasIssued(op: Op, id: nat) {
    op.pc == Done(Issued(id))
  }

  lemma IssueEffect(sh: Shared, i: CallId, op: Op, ch: Choice, id: nat)
    requires Shaped(op) && CanStep(sh, op) && HasIssued(NextOp(sh, i, op, ch), id)
    ensures Records(sh, op, ch, i, id)
  {
  }

  /** A handle that `create_scan_handle` returned was made usable in a step of that call. */
  lemma IssuedWasRecorded(acts: seq<Action>, i: CallId, id: nat) returns (k: nat)
    requires Legal(Init(), acts) && i in After(Init(), acts).ops && HasIssued(After(Init(), acts).ops[i], id)
    ensures k < |acts| && Legal(Init(), acts[..k]) && acts[k].Advance? && acts[k].i == i
    ensures var t := After(Init(), acts[..k]);
            i in t.ops && Records(t.sh, t.ops[i], acts[k].choice, i, id)
  {
    k := CrossedInRun(acts, i, (op: Op) => HasIssued(op, id));
    var t := After(Init(), acts[..k]);
    IssueEffect(t.sh, i, t.ops[i], acts[k].choice, id);
  }

  /** No two calls return the same handle. */
  lemma IssuedOnce(s: State, i: CallId, j: CallId, id: nat)
    requires Reachable(s) && i in s.ops && j in s.ops && HasIssued(s.ops[i], id) && HasIssued(s.ops[j], id)
    ensures i == j
  {
    IssuedIsNamed(s, i, id);
    IssuedIsNamed(s, j, id);
    assert ScanRecords.NamesInv(s) by {
      ReachedScans(s);
    }
  }

  lemma IssuedIsNamed(s: State, i: CallId, id: nat)
    requires Reachable(s) && i in s.ops && HasIssued(s.ops[i], id)
    ensures ScanRecords.Names(s.ops[i], id)
  {
    assert Shaped(s.ops[i]) by {
      ReachedScans(s);
    }
  }
}
