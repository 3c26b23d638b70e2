/** What the return of `stop_scan` means. */
module StopTheorems {
  import opened Types
  import opened Protocol
  import opened Shape
  import opened Runs
  import opened ScanTheorems
  import T = ScanTable
  import Handles
  import Slots

  // ----- a scan in its slot -----

  /** The stop waits for scan `r`, or has returned after it stopped. */
  predicate StopsScan(s: State, i: CallId, r: CallId) {
    && i in s.ops && s.ops[i].call.Stop? && r in s.sh.scans.cancelled
    && (s.ops[i].pc == AwaitStop(r) || (s.ops[i].pc.Done? && r in s.sh.scans.stopped))
  }

  /** A stop of a running scan cancels it and waits for it. */
  lemma StopOfRunning(s: State, i: CallId, ch: Choice)
    requires Enabled(s, Advance(i, ch)) && s.ops[i].pc.Entry? && s.ops[i].call.Stop?
    requires Handles.StationsInv(s.sh.scans, s.sh.nextHandle)
    requires IsRunning(s.sh.scans, s.ops[i].call.wallet, s.ops[i].call.id) && !Handles.AtStation(s.sh.scans, s.ops[i].call.id)
    ensures var t := Apply(s, Advance(i, ch));
            var r := s.sh.scans.running[s.ops[i].call.wallet].run;
            t.ops[i].pc == AwaitStop(r) && StopsScan(t, i, r)
  {
  }

  lemma StopsScanStep(s: State, a: Action, i: CallId, r: CallId)
    requires AllShaped(s) && Enabled(s, a) && StopsScan(s, i, r)
    ensures StopsScan(Apply(s, a), i, r)
  {
    if a.Advance? {
      Slots.TokenEffect(s.sh, a.i, s.ops[a.i], a.choice);
      if a.i != i {
        hide NextOp, NextScans, Shaped;
      }
    }
  }

  lemma {:induction false} StopsScanForever(s: State, acts: seq<Action>, i: CallId, r: CallId)
    requires Reachable(s) && Legal(s, acts) && StopsScan(s, i, r)
    ensures StopsScan(After(s, acts), i, r)
    decreases |acts|
  {
    if acts == [] {
    } else {
      assert AllShaped(s) by {
        ReachedScans(s);
      }
      StopsScanStep(s, acts[0], i, r);
      ReachableApply(s, acts[0]);
      StopsScanForever(Apply(s, acts[0]), acts[1..], i, r);
    }
  }

  // ----- a handle before its slot -----

  /** No scan started with the handle has had a slot, and none can get one. */
  ghost predicate NeverInSlot(s: State, id: nat) {
    Spent(s, id) && forall j :: j in s.ops && Handles.ClaimedAs(s.ops[j], id) ==> s.ops[j].turn.None?
  }

  lemma NeverInSlotStep(s: State, a: Action, id: nat)
    requires AllShaped(s) && Enabled(s, a) && NeverInSlot(s, id)
    ensures NeverInSlot(Apply(s, a), id)
  {
    SpentStep(s, a, id);
    var t := Apply(s, a);
    forall j {:trigger Handles.ClaimedAs(t.ops[j], id)} | j in t.ops && Handles.ClaimedAs(t.ops[j], id)
      ensures t.ops[j].turn.None?
    {
      if a.Advance? && a.i == j {
        NoTurnWithout(s.sh, j, s.ops[j], a.choice, id);
      } else if j in s.ops {
        assert Handles.ClaimedAs(s.ops[j], id);
      }
    }
  }

  lemma NoTurnWithout(sh: Shared, i: CallId, op: Op, ch: Choice, id: nat)
    requires Shaped(op) && CanStep(sh, op) && id !in sh.scans.starting
    requires Handles.ClaimedAs(op, id) ==> op.turn.None?
    requires Handles.ClaimedAs(NextOp(sh, i, op, ch), id)
    ensures NextOp(sh, i, op, ch).turn.None?
  {
  }

  lemma {:induction false} NeverInSlotForever(s: State, acts: seq<Action>, id: nat)
    requires Reachable(s) && Legal(s, acts) && NeverInSlot(s, id)
    ensures NeverInSlot(After(s, acts), id)
    decreases |acts|
  {
    if acts == [] {
    } else {
      assert AllShaped(s) by {
        ReachedScans(s);
      }
      NeverInSlotStep(s, acts[0], id);
      ReachableApply(s, acts[0]);
      NeverInSlotForever(Apply(s, acts[0]), acts[1..], id);
    }
  }

  /** A scan whose handle has yet to leave `issued` or `starting` has had no slot. */
  lemma StationMeansNoTurn(s: State, id: nat, j: CallId)
    requires Handles.Inv(s) && (id in s.sh.scans.issued || id in s.sh.scans.starting)
    requires j in s.ops && Handles.ClaimedAs(s.ops[j], id)
    ensures s.ops[j].turn.None?
  {
  }

  lemma TakenAwayNeverInSlot(s: State, i: CallId, ch: Choice, id: nat)
    requires Reachable(s) && Enabled(s, Advance(i, ch)) && TakesAway(s, i, id)
    ensures NeverInSlot(Apply(s, Advance(i, ch)), id)
  {
    StoppedNeverRuns(s, i, ch, id, []);
    var t := Apply(s, Advance(i, ch));
    assert AllShaped(s) && Handles.Inv(s) by {
      ReachedScans(s);
    }
    StopperClaimsNothing(s.sh, i, s.ops[i], ch, id);
    hide NextOp, NextShared, Shaped, CanStep, Spent, Handles.Inv, Handles.ClaimedAs;
    forall j {:trigger Handles.ClaimedAs(t.ops[j], id)} | j in s.ops && j != i && Handles.ClaimedAs(t.ops[j], id)
      ensures t.ops[j].turn.None?
    {
      StationMeansNoTurn(s, id, j);
    }
  }

  lemma StopperClaimsNothing(sh: Shared, i: CallId, op: Op, ch: Choice, id: nat)
    requires Shaped(op) && (op.pc.CancelScans? || op.pc.StopScans? || op.call.Stop?)
    ensures !Handles.ClaimedAs(NextOp(sh, i, op, ch), id)
  {
  }

  // ----- every stop -----

  /** The handle's scan is yet to come, about to take its slot, or in it. */
  predicate Stoppable(t: T.Table, w: Wallet, id: nat) {
    id in t.issued || id in t.starting || IsRunning(t, w, id)
  }

  /** No scan of `w` started with the handle holds a slot. */
  ghost predicate ScanOver(s: State, w: Wallet, id: nat) {
    forall j :: j in s.ops && Handles.ClaimedAs(s.ops[j], id) && s.ops[j].call.wallet == w ==> !Active(s.ops[j])
  }

  lemma StoppedIsOver(s: State, id: nat, r: CallId, w: Wallet)
    requires AllShaped(s) && Handles.ClaimedOnce(s) && Slots.StoppedInv(s)
    requires r in s.sh.scans.stopped && r in s.ops && Handles.ClaimedAs(s.ops[r], id)
    ensures ScanOver(s, w, id)
  {
  }

  lemma NeverInSlotIsOver(s: State, id: nat, w: Wallet)
    requires AllShaped(s) && NeverInSlot(s, id)
    ensures ScanOver(s, w, id)
  {
  }

  lemma {:induction false} ClaimStays(s: State, acts: seq<Action>, j: CallId, id: nat)
    requires Reachable(s) && Legal(s, acts) && j in s.ops && Handles.ClaimedAs(s.ops[j], id)
    ensures j in After(s, acts).ops && Handles.ClaimedAs(After(s, acts).ops[j], id)
    decreases |acts|
  {
    if acts == [] {
    } else {
      assert AllShaped(s) by {
        ReachedScans(s);
      }
      if acts[0].Advance? {
        Handles.OpEffect(s.sh, acts[0].i, s.ops[acts[0].i], acts[0].choice, id);
      }
      ReachableApply(s, acts[0]);
      ClaimStays(Apply(s, acts[0]), acts[1..], j, id);
    }
  }

  lemma RunningIsClaimed(s: State, w: Wallet, id: nat)
    requires Reachable(s) && IsRunning(s.sh.scans, w, id)
    ensures !Handles.AtStation(s.sh.scans, id)
    ensures var r := s.sh.scans.running[w].run;
            r in s.ops && Handles.ClaimedAs(s.ops[r], id)
  {
    HandleStations(s, id, w);
    assert AllShaped(s) && Slots.OccupantInv(s) by {
      ReachedScans(s);
    }
    ActiveIsClaimed(s.ops[s.sh.scans.running[w].run]);
  }

  /** From the return of a stop on, in every run, no scan of its wallet started with its handle holds a
      slot, whether the handle was issued, starting or in its slot when the stop began. */
  lemma StopStops(s: State, i: CallId, ch: Choice, acts: seq<Action>)
    requires Reachable(s) && Enabled(s, Advance(i, ch)) && s.ops[i].pc.Entry? && s.ops[i].call.Stop?
    requires Stoppable(s.sh.scans, s.ops[i].call.wallet, s.ops[i].call.id)
    requires Legal(Apply(s, Advance(i, ch)), acts)
    ensures var t := After(Apply(s, Advance(i, ch)), acts);
            i in t.ops && (t.ops[i].pc.Done? ==> ScanOver(t, s.ops[i].call.wallet, s.ops[i].call.id))
  {
    var w, id := s.ops[i].call.wallet, s.ops[i].call.id;
    var next := Apply(s, Advance(i, ch));
    var t := After(next, acts);
    ReachableApply(s, Advance(i, ch));
    ReachableAfter(next, acts);
    assert AllShaped(t) && Handles.ClaimedOnce(t) && Slots.StoppedInv(t) by {
      ReachedScans(t);
    }
    if IsRunning(s.sh.scans, w, id) {
      var r := s.sh.scans.running[w].run;
      RunningStopped(s, i, ch, acts);
      if t.ops[i].pc.Done? {
        StoppedIsOver(t, id, r, w);
      }
    } else {
      TakenAwayNeverInSlot(s, i, ch, id);
      NeverInSlotForever(next, acts, id);
      StillThere(next, acts, i);
      NeverInSlotIsOver(t, id, w);
    }
  }

  lemma {:induction false} StillThere(s: State, acts: seq<Action>, i: CallId)
    requires Legal(s, acts) && i in s.ops
    ensures i in After(s, acts).ops
    decreases |acts|
  {
    if acts == [] {
    } else {
      StillThere(Apply(s, acts[0]), acts[1..], i);
    }
  }

  lemma RunningStopped(s: State, i: CallId, ch: Choice, acts: seq<Action>)
    requires Reachable(s) && Enabled(s, Advance(i, ch)) && s.ops[i].pc.Entry? && s.ops[i].call.Stop?
    requires IsRunning(s.sh.scans, s.ops[i].call.wallet, s.ops[i].call.id)
    requires Legal(Apply(s, Advance(i, ch)), acts)
    ensures var t := After(Apply(s, Advance(i, ch)), acts);
            var r := s.sh.scans.running[s.ops[i].call.wallet].run;
            StopsScan(t, i, r) && r in t.ops && Handles.ClaimedAs(t.ops[r], s.ops[i].call.id)
  {
    var w, id := s.ops[i].call.wallet, s.ops[i].call.id;
    var r := s.sh.scans.running[w].run;
    var next := Apply(s, Advance(i, ch));
    RunningIsClaimed(s, w, id);
    assert AllShaped(s) && Handles.StationsInv(s.sh.scans, s.sh.nextHandle) by {
      ReachedScans(s);
    }
    StopOfRunning(s, i, ch);
    Handles.OpEffect(s.sh, i, s.ops[i], ch, id);
    ReachableApply(s, Advance(i, ch));
    StopsScanForever(next, acts, i, r);
    ClaimStays(next, acts, r, id);
  }
}
