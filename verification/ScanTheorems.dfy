/** What the scan and maintenance protocol guarantees in every run. */
module ScanTheorems {
  import opened Types
  import opened Protocol
  import opened Shape
  import opened Runs
  import T = ScanTable
  import Handles
  import Slots
  import Maintenance
  import Revocation
  import Supersession

  // ----- scans -----

  /** At most one scan of each wallet is inside `scan_in_slot`. */
  lemma ScansExclude(s: State, i: CallId, j: CallId)
    requires Reachable(s) && i in s.ops && j in s.ops && InBody(s.ops[i]) && InBody(s.ops[j])
    requires s.ops[i].call.wallet == s.ops[j].call.wallet
    ensures i == j
  {
    assert Shaped(s.ops[i]) && Shaped(s.ops[j]) && Slots.TurnsInv(s) && Slots.PastInv(s) by {
      ReachedScans(s);
    }
    BodyIsPast(s.ops[i]);
    BodyIsPast(s.ops[j]);
    Slots.OnePast(s, i, j);
  }

  lemma BodyIsPast(op: Op)
    requires Shaped(op) && InBody(op)
    ensures Slots.PastWait(op) && Active(op)
  {
  }

  /** An uncancelled scan that took its slot and has not left it is the slot's occupant. */
  lemma SlotOwnership(s: State, i: CallId)
    requires Reachable(s) && i in s.ops && Active(s.ops[i]) && i !in s.sh.scans.cancelled
    ensures s.ops[i].call.wallet in s.sh.scans.running
    ensures s.sh.scans.running[s.ops[i].call.wallet].run == i
  {
    assert Slots.LatestInv(s) by {
      ReachedScans(s);
    }
  }

  lemma OnlyOwnerClears(s: State, i: CallId, w: Wallet)
    requires AllShaped(s) && Handles.ClaimedOnce(s) && Slots.OccupantInv(s)
    requires i in s.ops && s.ops[i].pc.Leaving? && w in s.sh.scans.running
    requires s.ops[i].call.Scan? && s.sh.scans.running[w].id == s.ops[i].call.id
    ensures s.sh.scans.running[w].run == i
  {
    ActiveIsClaimed(s.ops[i]);
    ActiveIsClaimed(s.ops[s.sh.scans.running[w].run]);
    hide Shaped;
    assert Handles.ClaimedAs(s.ops[i], s.ops[i].call.id);
    assert Handles.ClaimedAs(s.ops[s.sh.scans.running[w].run], s.ops[i].call.id);
  }

  lemma ActiveIsClaimed(op: Op)
    requires Shaped(op) && Active(op)
    ensures op.call.Scan? && op.claimed
  {
  }

  /** A finishing scan's clean-up removes its own entry or none. */
  lemma ClearKeepsOthers(s: State, i: CallId, ch: Choice, w: Wallet)
    requires Reachable(s) && Enabled(s, Advance(i, ch)) && s.ops[i].pc.Leaving?
    requires w in s.sh.scans.running && s.sh.scans.running[w].run != i
    ensures Get(Apply(s, Advance(i, ch)).sh.scans.running, w) == Some(s.sh.scans.running[w])
  {
    hide NextOp, NextDb, NextKeys, NextGates, NextMaint, NextFiles, NextLedger;
    assert AllShaped(s) && Handles.ClaimedOnce(s) && Slots.OccupantInv(s) by {
      ReachedScans(s);
    }
    if s.ops[i].call.Scan? && s.sh.scans.running[w].id == s.ops[i].call.id {
      OnlyOwnerClears(s, i, w);
    }
  }

  /** From the return of a maintenance operation's scan stop until it drops its guard, no scan of
      its wallet holds the slot, let alone scans. */
  lemma MaintenanceExcludesScans(s: State, m: CallId, j: CallId)
    requires Reachable(s) && m in s.ops && j in s.ops && Maintenance.StopReturned(s.ops[m])
    requires s.ops[j].call.wallet == s.ops[m].call.wallet
    ensures !Active(s.ops[j])
  {
    assert Maintenance.StoppedInv(s) by {
      ReachedScans(s);
    }
  }

  lemma StoppedIsPast(s: State, r: CallId)
    requires AllShaped(s) && Slots.StoppedInv(s) && r in s.sh.scans.stopped
    ensures r in s.ops && !Active(s.ops[r]) && (s.ops[r].turn.Some? ==> Slots.PastWait(s.ops[r]))
  {
  }

  lemma AllEarlierLeft(s: State, r: CallId, j: CallId)
    requires Slots.TurnsInv(s) && Slots.PastInv(s)
    requires r in s.ops && j in s.ops && !Active(s.ops[r]) && Slots.PastWait(s.ops[r])
    requires s.ops[j].call.wallet == s.ops[r].call.wallet && Slots.TurnedBy(s.ops[j], s.ops[r])
    ensures !Active(s.ops[j])
  {
  }

  /** When a stop that found scan `r` running returns, `r` (for `stop_scan` the scan started with its
      handle) and every scan of the wallet that took the slot before `r` has left it. */
  lemma StopWaitsForEarlier(s: State, i: CallId, ch: Choice, j: CallId)
    requires Reachable(s) && Enabled(s, Advance(i, ch)) && s.ops[i].pc.AwaitStop?
    requires j in s.ops && s.ops[j].call.wallet == s.ops[i].call.wallet
    ensures var r := s.ops[i].pc.run;
            && r in s.ops && s.ops[r].call.wallet == s.ops[i].call.wallet && !Active(s.ops[r])
            && (s.ops[i].call.Stop? ==> s.ops[r].call.Scan? && s.ops[r].call.id == s.ops[i].call.id)
            && (Slots.TurnedBy(s.ops[j], s.ops[r]) ==> !Active(s.ops[j]))
  {
    var r := s.ops[i].pc.run;
    StopTarget(s, i);
    if Slots.TurnedBy(s.ops[j], s.ops[r]) {
      assert Slots.TurnsInv(s) && Slots.PastInv(s) by {
        ReachedScans(s);
      }
      AllEarlierLeft(s, r, j);
    }
  }

  lemma StopTarget(s: State, i: CallId)
    requires Reachable(s) && i in s.ops && s.ops[i].pc.AwaitStop? && WaitsFor(s.sh, s.ops[i]).None?
    ensures var r := s.ops[i].pc.run;
            && r in s.ops && s.ops[r].call.wallet == s.ops[i].call.wallet
            && !Active(s.ops[r]) && Slots.PastWait(s.ops[r])
            && (s.ops[i].call.Stop? ==> Slots.StartedWith(s.ops[r], s.ops[i].call.id))
  {
    hide AllShaped, Slots.StoppedInv, Slots.PastWait;
    assert Slots.AwaitStopInv(s) && AllShaped(s) && Slots.StoppedInv(s) by {
      ReachedScans(s);
    }
    StoppedIsPast(s, s.ops[i].pc.run);
  }

  /** A scan whose unlocked check saw a key session that is no longer the wallet's is revoked, unless
      upstream dropped that session or the lock that wiped it is about to cancel. */
  lemma LockRevokesScans(s: State, i: CallId)
    requires Reachable(s) && i in s.ops && s.ops[i].epoch.Some?
    requires Get(s.sh.keys, s.ops[i].call.wallet) != s.ops[i].epoch
    requires s.ops[i].epoch.value !in s.sh.dropped
    requires !Revocation.CancelPending(s, s.ops[i].call.wallet)
    ensures Revocation.Revoked(s.sh, i, s.ops[i])
  {
    assert Revocation.Inv(s) by {
      ReachedScans(s);
    }
  }

  // ----- revoked scans -----

  /** Nothing brings a revoked scan back, and one revoked before its slot step never takes a slot. */
  lemma {:induction false} RevokedForever(s: State, acts: seq<Action>, i: CallId)
    requires Reachable(s) && Legal(s, acts)
    requires i in s.ops && s.ops[i].claimed && Revoked(s, i)
    ensures var t := After(s, acts);
            i in t.ops && t.ops[i].claimed && Revoked(t, i) && t.ops[i].turn == s.ops[i].turn
    decreases |acts|
  {
    if acts == [] {
    } else {
      assert AllShaped(s) && Handles.ClaimedGone(s) by {
        ReachedScans(s);
      }
      RevokedStep(s, acts[0], i);
      ReachableApply(s, acts[0]);
      RevokedForever(Apply(s, acts[0]), acts[1..], i);
    }
  }

  predicate Revoked(s: State, i: CallId)
    requires i in s.ops
  {
    Revocation.Revoked(s.sh, i, s.ops[i])
  }

  lemma RevokedStep(s: State, a: Action, i: CallId)
    requires AllShaped(s) && Handles.ClaimedGone(s) && Enabled(s, a)
    requires i in s.ops && s.ops[i].claimed && Revoked(s, i)
    ensures var t := Apply(s, a);
            i in t.ops && t.ops[i].claimed && Revoked(t, i) && t.ops[i].turn == s.ops[i].turn
  {
    assert Handles.ClaimedAs(s.ops[i], s.ops[i].call.id);
    if a.Advance? {
      if a.i == i {
        Revocation.RevokedSelf(s.sh, i, s.ops[i], a.choice);
      } else {
        Revocation.RevokedKept(s.sh, a.i, s.ops[a.i], a.choice, i, s.ops[i]);
      }
    }
  }

  // ----- handles -----

  predicate IsRunning(t: T.Table, w: Wallet, id: nat) {
    w in t.running && t.running[w].id == id
  }

  /** A handle is at one station of its life at a time: issued, stopped before its start, starting
      or running. */
  lemma HandleStations(s: State, id: nat, w: Wallet)
    requires Reachable(s)
    ensures var t := s.sh.scans;
            && !(id in t.issued && id in t.stoppedBeforeStart)
            && !(id in t.issued && id in t.starting)
            && !(id in t.stoppedBeforeStart && id in t.starting)
            && !(IsRunning(t, w, id) && Handles.AtStation(t, id))
  {
    assert AllShaped(s) && Handles.Inv(s) && Slots.OccupantInv(s) by {
      ReachedScans(s);
    }
    if IsRunning(s.sh.scans, w, id) {
      RunningIsNowhereElse(s, w, id);
    }
  }

  lemma RunningIsNowhereElse(s: State, w: Wallet, id: nat)
    requires AllShaped(s) && Handles.ClaimedGone(s) && Handles.StartingInv(s) && Slots.OccupantInv(s)
    requires IsRunning(s.sh.scans, w, id)
    ensures !Handles.AtStation(s.sh.scans, id)
  {
    ActiveIsClaimed(s.ops[s.sh.scans.running[w].run]);
    hide Shaped;
    assert Handles.ClaimedAs(s.ops[s.sh.scans.running[w].run], id);
  }

  /** Each handle starts at most one scan: no two calls of a run claim it. */
  lemma HandleStartsOnce(s: State, i: CallId, j: CallId, id: nat)
    requires Reachable(s) && i in s.ops && j in s.ops
    requires Handles.ClaimedAs(s.ops[i], id) && Handles.ClaimedAs(s.ops[j], id)
    ensures i == j
  {
    ReachedScans(s);
  }

  /** The handle was drawn and is neither waiting to start nor running. */
  ghost predicate Spent(s: State, id: nat) {
    && id < s.sh.nextHandle
    && id !in s.sh.scans.issued && id !in s.sh.scans.starting
    && (forall w :: !IsRunning(s.sh.scans, w, id))
    && (forall i :: i in s.ops ==> !Handles.Draws(s.ops[i], id))
  }

  lemma SpentStep(s: State, a: Action, id: nat)
    requires AllShaped(s) && Enabled(s, a) && Spent(s, id)
    ensures Spent(Apply(s, a), id)
  {
    hide Shaped, CanStep, NextOp, NextScans;
    if a.Advance? {
      Handles.StationEffect(s.sh, a.i, s.ops[a.i], a.choice, id);
      Handles.OpEffect(s.sh, a.i, s.ops[a.i], a.choice, id);
      RunningEffect(s.sh, a.i, s.ops[a.i], a.choice, id);
    } else {
      assert forall w :: IsRunning(Apply(s, a).sh.scans, w, id) ==> IsRunning(s.sh.scans, w, id);
    }
  }

  lemma RunningEffect(sh: Shared, i: CallId, op: Op, ch: Choice, id: nat)
    requires Shaped(op) && id !in sh.scans.starting
    ensures forall w :: IsRunning(NextScans(sh, i, op, ch), w, id) ==> IsRunning(sh.scans, w, id)
  {
  }

  /** A handle stopped or dropped before it took the slot never appears in a slot. */
  lemma {:induction false} SpentNeverRuns(s: State, acts: seq<Action>, id: nat)
    requires Reachable(s) && Legal(s, acts) && Spent(s, id)
    ensures Spent(After(s, acts), id)
    decreases |acts|
  {
    if acts == [] {
    } else {
      assert AllShaped(s) by {
        ReachedScans(s);
      }
      SpentStep(s, acts[0], id);
      ReachableApply(s, acts[0]);
      SpentNeverRuns(Apply(s, acts[0]), acts[1..], id);
    }
  }

  /** The step takes the handle away before its scan has a slot: `stop_scan` with it, or the cancel of
      every scan of its wallet. */
  predicate TakesAway(s: State, i: CallId, id: nat)
    requires i in s.ops
  {
    var op, t := s.ops[i], s.sh.scans;
    || (op.pc.Entry? && op.call.Stop? && op.call.id == id && (id in t.issued || id in t.starting))
    || ((op.pc.CancelScans? || op.pc.StopScans?) && id in t.starting && t.starting[id] == op.call.wallet)
  }

  lemma TakenAwayIsSpent(s: State, i: CallId, ch: Choice, id: nat)
    requires AllShaped(s) && Handles.Inv(s) && Enabled(s, Advance(i, ch)) && TakesAway(s, i, id)
    requires forall w :: !IsRunning(s.sh.scans, w, id)
    ensures Spent(Apply(s, Advance(i, ch)), id)
  {
    var t := Apply(s, Advance(i, ch));
    assert Handles.AtStation(s.sh.scans, id);
    assert t.sh.scans.running == s.sh.scans.running;
    forall w ensures !IsRunning(t.sh.scans, w, id) {
      assert !IsRunning(s.sh.scans, w, id);
    }
    forall j | j in t.ops ensures !Handles.Draws(t.ops[j], id) {
      assert !Handles.Draws(s.ops[j], id);
      Handles.OpEffect(s.sh, i, s.ops[i], ch, id);
    }
  }

  /** A scan whose handle a stop or a cancel took away before it had its slot never gets one. */
  lemma StoppedNeverRuns(s: State, i: CallId, ch: Choice, id: nat, acts: seq<Action>)
    requires Reachable(s) && Enabled(s, Advance(i, ch)) && TakesAway(s, i, id)
    requires Legal(Apply(s, Advance(i, ch)), acts)
    ensures Spent(After(Apply(s, Advance(i, ch)), acts), id)
  {
    forall w ensures !IsRunning(s.sh.scans, w, id) {
      HandleStations(s, id, w);
    }
    assert AllShaped(s) && Handles.Inv(s) by {
      ReachedScans(s);
    }
    TakenAwayIsSpent(s, i, ch, id);
    ReachableApply(s, Advance(i, ch));
    SpentNeverRuns(Apply(s, Advance(i, ch)), acts, id);
  }

  // ----- supersession -----

  /** The next step of the start `q` takes the slot of its wallet from the scan `r`, which holds it and
      which nothing has cancelled; a Foreground scan only yields to a Foreground start. */
  predicate TakesFrom(s: State, r: CallId, q: CallId) {
    && q in s.ops && r in s.ops
    && var op, replaced := s.ops[q], s.ops[r];
       && op.call.Scan? && replaced.call.Scan? && TakesSlot(s.sh, q, op)
       && replaced.call.wallet == op.call.wallet && op.call.wallet in s.sh.scans.running
       && s.sh.scans.running[op.call.wallet].run == r
       && Active(replaced) && r !in s.sh.scans.cancelled
       && (replaced.call.priority.Foreground? ==> op.call.priority.Foreground?)
  }

  /** At step `k` of the run the start `q` takes the slot from `r`. */
  ghost predicate CutAt(s: State, acts: seq<Action>, k: nat, r: CallId, q: CallId)
    requires k < |acts| && Legal(s, acts[..k])
  {
    acts[k].Advance? && acts[k].i == q && TakesFrom(After(s, acts[..k]), r, q)
  }

  lemma CutOffTakes(s: State, q: CallId)
    requires AllShaped(s) && Slots.OccupantInv(s) && Slots.StoppedInv(s)
    requires q in s.ops && CutOff(s.sh, q, s.ops[q]).Some?
    ensures TakesFrom(s, CutOff(s.sh, q, s.ops[q]).value, q)
  {
    assert Shaped(s.ops[q]);
  }

  /** A replacement once recorded stays as it is: the replaced scan is cancelled. */
  lemma RecordStays(s: State, a: Action, r: CallId)
    requires Supersession.FlagsInv(s) && Enabled(s, a) && r in s.sh.replacedBy
    ensures r in Apply(s, a).sh.replacedBy && Apply(s, a).sh.replacedBy[r] == s.sh.replacedBy[r]
  {
    assert Supersession.ReplacedBy(s, r, s.sh.replacedBy[r]);
  }

  lemma {:induction false} RecordStaysForever(s: State, acts: seq<Action>, r: CallId)
    requires Reachable(s) && Legal(s, acts) && r in s.sh.replacedBy
    ensures r in After(s, acts).sh.replacedBy && After(s, acts).sh.replacedBy[r] == s.sh.replacedBy[r]
    decreases |acts|
  {
    if acts == [] {
    } else {
      assert Supersession.FlagsInv(s) by {
        ReachedScans(s);
      }
      RecordStays(s, acts[0], r);
      ReachableApply(s, acts[0]);
      RecordStaysForever(Apply(s, acts[0]), acts[1..], r);
    }
  }

  lemma RecordBegins(s: State, a: Action, r: CallId)
    requires Reachable(s) && Enabled(s, a) && r !in s.sh.replacedBy && r in Apply(s, a).sh.replacedBy
    ensures a.Advance? && TakesFrom(s, r, a.i) && Apply(s, a).sh.replacedBy[r] == a.i
  {
    assert AllShaped(s) && Slots.OccupantInv(s) && Slots.StoppedInv(s) by {
      ReachedScans(s);
    }
    CutOffTakes(s, a.i);
  }

  /** Every entry of `replacedBy` has its step in the run: the recorded start took the slot from the
      scan. */
  lemma {:induction false} ReplacementHappened(s: State, acts: seq<Action>, r: CallId) returns (k: nat, q: CallId)
    requires Reachable(s) && Legal(s, acts) && r !in s.sh.replacedBy && r in After(s, acts).sh.replacedBy
    ensures k < |acts| && Legal(s, acts[..k]) && CutAt(s, acts, k, r, q)
    ensures q == After(s, acts).sh.replacedBy[r]
    decreases |acts|
  {
    var next := Apply(s, acts[0]);
    ReachableApply(s, acts[0]);
    if r in next.sh.replacedBy {
      RecordBegins(s, acts[0], r);
      RecordStaysForever(next, acts[1..], r);
      k, q := 0, acts[0].i;
    } else {
      var k', q' := ReplacementHappened(next, acts[1..], r);
      k, q := k' + 1, q';
      assert acts[..k][1..] == acts[1..][..k'];
    }
  }

  lemma MarkIsRecorded(s: State, i: CallId)
    requires Supersession.FlagsInv(s) && i in s.sh.scans.superseded
    ensures i in s.sh.replacedBy
    ensures var q := s.sh.replacedBy[i];
            && q in s.ops && i in s.ops
            && s.ops[i].call.Scan? && s.ops[q].call.Scan? && s.ops[q].call.wallet == s.ops[i].call.wallet
            && Slots.TurnedBefore(s.ops[i], s.ops[q])
            && (s.ops[i].call.priority.Foreground? ==> s.ops[q].call.priority.Foreground?)
  {
    assert Supersession.ReplacedBy(s, i, s.sh.replacedBy[i]);
  }

  /** A scan is marked superseded only if a later start of the same wallet took its slot while it held
      it uncancelled; a Foreground scan is only ever superseded by a Foreground start. */
  lemma MarkIsTruthful(acts: seq<Action>, i: CallId) returns (k: nat, q: CallId)
    requires Legal(Init(), acts) && i in After(Init(), acts).sh.scans.superseded
    ensures k < |acts| && Legal(Init(), acts[..k]) && CutAt(Init(), acts, k, i, q)
    ensures var s := After(Init(), acts);
            && i in s.sh.replacedBy && q == s.sh.replacedBy[i] && q in s.ops && i in s.ops
            && s.ops[i].call.Scan? && s.ops[q].call.Scan? && s.ops[q].call.wallet == s.ops[i].call.wallet
            && Slots.TurnedBefore(s.ops[i], s.ops[q])
            && (s.ops[i].call.priority.Foreground? ==> s.ops[q].call.priority.Foreground?)
  {
    var s := After(Init(), acts);
    assert Supersession.FlagsInv(s) by {
      assert Reachable(s);
      ReachedScans(s);
    }
    MarkIsRecorded(s, i);
    InitReachable();
    k, q := ReplacementHappened(Init(), acts, i);
  }

  /** A stream ends `Superseded` only if a later start took its scan's slot in that way. */
  lemma SupersededIsTruthful(acts: seq<Action>, i: CallId) returns (k: nat, q: CallId)
    requires Legal(Init(), acts)
    requires i in After(Init(), acts).ops && After(Init(), acts).ops[i].pc == Done(Streamed(Superseded))
    ensures k < |acts| && Legal(Init(), acts[..k]) && CutAt(Init(), acts, k, i, q)
    ensures var s := After(Init(), acts);
            && i in s.sh.replacedBy && q == s.sh.replacedBy[i] && q in s.ops
            && s.ops[i].call.Scan? && s.ops[q].call.Scan? && s.ops[q].call.wallet == s.ops[i].call.wallet
            && Slots.TurnedBefore(s.ops[i], s.ops[q])
            && (s.ops[i].call.priority.Foreground? ==> s.ops[q].call.priority.Foreground?)
  {
    var s := After(Init(), acts);
    assert Supersession.EndingInv(s) by {
      assert Reachable(s);
      ReachedScans(s);
    }
    assert Supersession.EndingOf(s.ops[i]) == Some(Superseded);
    k, q := MarkIsTruthful(acts, i);
  }

  /** The scan was marked superseded before it decided how its stream ends, or decided for
      `Superseded` or an error. */
  predicate EndsMarked(sh: Shared, i: CallId, op: Op) {
    && i in sh.scans.superseded && op.call.Scan?
    && ((Active(op) && !op.pc.Leaving?)
        || Supersession.EndingOf(op) == Some(Superseded) || Supersession.EndingOf(op) == Some(Error))
  }

  lemma MarkedStep(sh: Shared, i: CallId, op: Op, ch: Choice)
    requires Shaped(op) && CanStep(sh, op) && EndsMarked(sh, i, op)
    ensures EndsMarked(NextShared(sh, i, op, ch), i, NextOp(sh, i, op, ch))
  {
    hide NextDb, NextKeys, NextGates, NextMaint, NextFiles, NextReplacedBy, NextLedger,
         NextGen, NextAccount, NextConns, NextEpochSeen;
  }

  lemma MarkStays(sh: Shared, j: CallId, op: Op, ch: Choice, i: CallId)
    requires Shaped(op) && CanStep(sh, op) && i in sh.scans.superseded
    ensures i in NextScans(sh, j, op, ch).superseded
  {
  }

  /** A scan that loses its slot in this way before it decided its ending is marked. */
  lemma CutIsMarked(s: State, q: CallId, ch: Choice, r: CallId)
    requires Enabled(s, Advance(q, ch)) && TakesFrom(s, r, q) && !s.ops[r].pc.Leaving?
    ensures var t := Apply(s, Advance(q, ch));
            r in t.ops && EndsMarked(t.sh, r, t.ops[r])
  {
  }

  /** Conversely, a scan replaced before it decided its ending reports that: its stream ends
      `Superseded`, or with the scanner's error. */
  lemma {:induction false} SupersededIsReported(s: State, acts: seq<Action>, i: CallId)
    requires Reachable(s) && Legal(s, acts) && i in s.ops && EndsMarked(s.sh, i, s.ops[i])
    ensures var t := After(s, acts);
            && i in t.ops && EndsMarked(t.sh, i, t.ops[i])
            && (t.ops[i].pc.Done? ==>
                  t.ops[i].pc == Done(Streamed(Superseded)) || t.ops[i].pc == Done(Streamed(Error)))
    decreases |acts|
  {
    hide Shaped, NextScans, NextDb, NextOp;
    if acts == [] {
    } else {
      assert AllShaped(s) by {
        ReachedScans(s);
      }
      var a := acts[0];
      if a.Advance? {
        MarkStays(s.sh, a.i, s.ops[a.i], a.choice, i);
        if a.i == i {
          MarkedStep(s.sh, i, s.ops[i], a.choice);
        }
      }
      ReachableApply(s, a);
      SupersededIsReported(Apply(s, a), acts[1..], i);
    }
  }
}
