/** No cyclic wait, and every call can come to its end. */
module Liveness {
  import opened Types
  import opened Protocol
  import opened Shape
  import opened Runs
  import Locks
  import ScanRecords
  import Slots
  import Invariant
  import WaitGraph
  import Drain
  import SessionTheorems

  /** In no state of any run do calls wait for each other in a circle. */
  lemma NoCyclicWait(s: State, path: seq<CallId>)
    requires Reachable(s) && WaitGraph.WaitPath(s, path) && |path| > 1
    ensures path[0] != path[|path| - 1]
  {
    assert AllShaped(s) && Locks.Inv(s) && Slots.Inv(s) by {
      ReachedScans(s);
    }
    WaitGraph.PathDescends(s, path);
  }

  /** A waiting call's chain of waits ends at a call that can step now; if that call is inside the
      scanner, its token is cancelled, so it is bound to end. */
  lemma WaitsEnd(s: State, i: CallId) returns (e: CallId)
    requires Reachable(s) && i in s.ops && WaitsFor(s.sh, s.ops[i]).Some?
    ensures e in s.ops && CanStep(s.sh, s.ops[e])
    ensures InBody(s.ops[e]) ==> e in s.sh.scans.cancelled
  {
    hide Locks.Inv, Slots.Inv, Shaped;
    assert AllShaped(s) && Locks.Inv(s) && Slots.Inv(s) by {
      ReachedScans(s);
    }
    e := WaitGraph.ChainEnd(s, i);
    assert e != i;
    assert WaitGraph.RanksBelow(s.ops[e], s.ops[i]);
  }

  /** From every reached state all calls can be driven to their ends; if the counters have no room for
      the unlocks that have yet to count, then all but those. */
  lemma EveryCallCanFinish(s: State) returns (acts: seq<Action>)
    requires Reachable(s)
    ensures Legal(s, acts) && Drain.Settled(After(s, acts))
    ensures Drain.Room(s) ==> Drain.Idle(After(s, acts))
  {
    Reached(s);
    acts := Drain.CanDrain(s);
  }

  /** All that is left is scanners that nothing has stopped, and unlocks without room to count. */
  ghost predicate Quiet(s: State) {
    forall i :: i in s.ops ==>
                  || s.ops[i].pc.Done?
                  || (s.ops[i].pc.Scanning? && i !in s.sh.scans.cancelled)
                  || (Drain.YetToCount(s.ops[i]) && !Drain.Room(s))
  }

  /** However they interleave, the calls in flight take at most so many steps before another one
      arrives, and until only unstopped scanners are left one of the calls can step without waiting for
      a scanner that nothing has stopped: so if steps are taken while they can be and scanners end after
      a cancel, every call comes to its end but for such scanners, which hold up nobody. */
  lemma EveryScheduleEnds(s: State, acts: seq<Action>) returns (e: CallId)
    requires Reachable(s) && Legal(s, acts) && Drain.NoArrivals(acts)
    ensures Drain.Steps(acts) <= Drain.Total(s.ops)
    ensures var t := After(s, acts);
            || Quiet(t)
            || (e in t.ops && CanStep(t.sh, t.ops[e]) && (t.ops[e].pc.Scanning? ==> e in t.sh.scans.cancelled))
  {
    assert Invariant.Inv(s) by {
      Reached(s);
    }
    Drain.StepsAreBounded(s, acts);
    var t := After(s, acts);
    ReachableAfter(s, acts);
    e := 0;
    if !Quiet(t) {
      e := EndOfWaits(t);
    }
  }

  lemma EndOfWaits(s: State) returns (e: CallId)
    requires Reachable(s) && !Quiet(s)
    ensures e in s.ops && CanStep(s.sh, s.ops[e]) && (s.ops[e].pc.Scanning? ==> e in s.sh.scans.cancelled)
  {
    assert AllShaped(s) && Locks.Inv(s) && Slots.Inv(s) by {
      ReachedScans(s);
    }
    hide AllShaped, Locks.Inv, Slots.Inv;
    var i :| i in s.ops && !s.ops[i].pc.Done? && !(s.ops[i].pc.Scanning? && i !in s.sh.scans.cancelled)
             && !(Drain.YetToCount(s.ops[i]) && !Drain.Room(s));
    if Drain.YetToCount(s.ops[i]) {
      Drain.CanCount(s, i);
      e := i;
    } else {
      e := WaitGraph.ChainEnd(s, i);
    }
  }

  lemma IdleKeysCounted(s: State)
    requires Reachable(s) && Drain.Idle(s)
    ensures forall w :: w in s.sh.keys ==> w in s.sh.db.sessions
  {
    forall w | w in s.sh.keys ensures w in s.sh.db.sessions {
      if w !in s.sh.db.sessions {
        var i := SessionTheorems.NoOrphanedKeys(s, w);
      }
    }
  }

  lemma IdleLocksFree(s: State)
    requires Locks.Inv(s) && Drain.Idle(s)
    ensures s.sh.gates == map[] && s.sh.maint == map[]
  {
  }

  lemma IdleSlotsFree(s: State)
    requires Slots.OccupantInv(s) && Drain.Idle(s)
    ensures s.sh.scans.running == map[]
  {
  }

  lemma IdleNothingStarting(s: State)
    requires ScanRecords.StartedInv(s) && Drain.Idle(s)
    ensures s.sh.scans.starting == map[]
  {
    forall id ensures id !in s.sh.scans.starting {
      assert !ScanRecords.Started(s, id);
    }
  }

  /** With no call in flight, every unlocked wallet is counted, no lock is held and no scan runs or is
      left over. */
  lemma IdleMeansClean(s: State)
    requires Reachable(s) && Drain.Idle(s)
    ensures forall w :: w in s.sh.keys ==> w in s.sh.db.sessions
    ensures s.sh.gates == map[] && s.sh.maint == map[] && s.sh.scans.running == map[]
    ensures s.sh.scans.starting == map[]
  {
    IdleKeysCounted(s);
    assert Locks.Inv(s) && Slots.OccupantInv(s) && ScanRecords.StartedInv(s) by {
      ReachedScans(s);
    }
    hide Locks.Inv, Slots.OccupantInv, ScanRecords.StartedInv;
    IdleNothingStarting(s);
    IdleLocksFree(s);
    IdleSlotsFree(s);
  }
}
