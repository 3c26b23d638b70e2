/** The invariant of the whole system: it holds at first and every action keeps it. */
module Invariant {
  import opened Types
  import opened Protocol
  import opened Shape
  import D = Database
  import T = ScanTable
  import Locks
  import Sessions
  import Counting
  import Handles
  import Slots
  import Maintenance
  import Revocation
  import ScanRecords
  import Supersession

  ghost predicate SessionPart(s: State) {
    && D.Inv(s.sh.db) && Sessions.GenInv(s) && Sessions.LiveInv(s) && Sessions.OrphanInv(s)
    && Counting.Inv(s)
  }

  ghost predicate ScanPart(s: State) {
    && Handles.Inv(s) && Slots.Inv(s)
    && Maintenance.StoppedInv(s) && Maintenance.StoppingInv(s) && Maintenance.ConnsInv(s) && Maintenance.AccountInv(s)
    && Revocation.Inv(s) && Supersession.Inv(s) && ScanRecords.Inv(s)
  }

  ghost predicate Inv(s: State) {
    AllShaped(s) && Locks.Inv(s) && SessionPart(s) && ScanPart(s)
  }

  lemma InitSessions()
    ensures SessionPart(Init())
  {
  }

  lemma InitScans()
    ensures ScanPart(Init())
  {
  }

  lemma InitCalls()
    ensures AllShaped(Init()) && Locks.Inv(Init())
  {
  }

  lemma InitInv()
    ensures Inv(Init())
  {
    InitCalls();
    InitSessions();
    InitScans();
  }

  // ----- a call takes a step -----

  lemma LocksAdvance(s: State, i: CallId, ch: Choice)
    requires AllShaped(s) && Locks.Inv(s) && Enabled(s, Advance(i, ch))
    ensures Locks.Inv(Apply(s, Advance(i, ch)))
  {
    var op' := NextOp(s.sh, i, s.ops[i], ch);
    Locks.GateEffect(s.sh, i, s.ops[i], ch);
    Locks.MaintEffect(s.sh, i, s.ops[i], ch);
    Locks.OwnedKept(s.sh.gates, NextGates(s.sh, i, s.ops[i]), s.ops, i, op', HoldsGate);
    Locks.OwnedKept(s.sh.maint, NextMaint(s.sh, i, s.ops[i]), s.ops, i, op', HoldsMaint);
  }

  lemma SessionAdvance(s: State, i: CallId, ch: Choice)
    requires AllShaped(s) && Locks.Inv(s) && SessionPart(s) && Enabled(s, Advance(i, ch))
    ensures SessionPart(Apply(s, Advance(i, ch)))
  {
    Sessions.DbStep(s.sh, s.ops[i], ch);
    Sessions.GenStep(s, i, ch);
    Sessions.HoldersLiveStep(s, i, ch);
    Sessions.ConfirmsLiveStep(s, i, ch);
    Sessions.LocksSpareHoldersStep(s, i, ch);
    Sessions.MakersFindNoneStep(s, i, ch);
    Sessions.OrphanStep(s, i, ch);
    Counting.CountsStep(s, i, ch);
    Counting.GensKnownStep(s, i, ch);
    Counting.AcquiredStep(s, i, ch);
    Counting.GivenBackStep(s, i, ch);
    Counting.LocksStep(s, i, ch);
    Counting.GenOwnerStep(s, i, ch);
    Counting.LocksOwnStep(s, i, ch);
    Counting.GivenBackKnownStep(s, i, ch);
  }

  lemma HandlesAdvance(s: State, i: CallId, ch: Choice)
    requires AllShaped(s) && Handles.Inv(s) && Enabled(s, Advance(i, ch))
    ensures Handles.Inv(Apply(s, Advance(i, ch)))
  {
    Handles.StationsKept(s, i, ch);
    Handles.DrawnNowhereStep(s, i, ch);
    Handles.DrawnOnceStep(s, i, ch);
    Handles.StartingStep(s, i, ch);
    Handles.ClaimedGoneStep(s, i, ch);
    Handles.ClaimedNotDrawnStep(s, i, ch);
    Handles.ClaimedOnceStep(s, i, ch);
  }

  lemma SlotsMove(s: State, i: CallId, sh': Shared, op': Op)
    requires AllShaped(s) && Handles.ClaimedOnce(s) && Slots.Inv(s)
    requires i in s.ops && !s.ops[i].pc.Done? && Slots.Move(s.sh, i, s.ops[i], sh', op')
    ensures Slots.Inv(Slots.Moved(s, i, sh', op'))
  {
    Slots.TurnsKept(s, i, sh', op');
    Slots.OccupantKept(s, i, sh', op');
    Slots.LatestKept(s, i, sh', op');
    Slots.WaitKept(s, i, sh', op');
    if Slots.Takes(s.sh, i, s.ops[i], sh', op') {
      Slots.WaitLastAfterTake(s, i, sh', op');
    } else {
      Slots.WaitLastAfterStay(s, i, sh', op');
    }
    Slots.PastKept(s, i, sh', op');
    Slots.StoppedKept(s, i, sh', op');
    Slots.AwaitStopKept(s, i, sh', op');
  }

  lemma MaintenanceMove(s: State, i: CallId, sh': Shared, op': Op)
    requires AllShaped(s) && Locks.Inv(s) && Slots.Inv(s)
    requires Maintenance.StoppedInv(s) && Maintenance.StoppingInv(s)
    requires i in s.ops && Slots.Move(s.sh, i, s.ops[i], sh', op') && Maintenance.Effect(s.sh, s.ops[i], op')
    ensures Maintenance.StoppedInv(Slots.Moved(s, i, sh', op'))
    ensures Maintenance.StoppingInv(Slots.Moved(s, i, sh', op'))
  {
    Maintenance.StoppedKept(s, i, sh', op');
    Maintenance.StoppingKept(s, i, sh', op');
  }

  lemma ScanAdvance(s: State, i: CallId, ch: Choice)
    requires Inv(s) && Enabled(s, Advance(i, ch))
    ensures ScanPart(Apply(s, Advance(i, ch)))
  {
    hide Shaped, Locks.Inv, SessionPart, NextShared, NextOp, Revocation.Inv, ScanRecords.Inv;
    hide Slots.Move, Maintenance.Effect, Supersession.Effect;
    hide Handles.ClaimedOnce, Slots.TurnsInv, Slots.OccupantInv, Slots.LatestInv, Slots.StoppedInv;
    hide Supersession.FlagsInv, Supersession.EndingInv;
    hide Maintenance.StoppedInv, Maintenance.StoppingInv, Maintenance.ConnsInv, Maintenance.AccountInv;
    var op := s.ops[i];
    var sh', op' := NextShared(s.sh, i, op, ch), NextOp(s.sh, i, op, ch);
    Slots.StepMoves(s.sh, i, op, ch);
    Maintenance.StepEffect(s.sh, i, op, ch);
    Supersession.StepEffect(s.sh, i, op, ch);
    HandlesAdvance(s, i, ch);
    SlotsMove(s, i, sh', op');
    MaintenanceMove(s, i, sh', op');
    Maintenance.ConnsStep(s, i, ch);
    Maintenance.AccountStep(s, i, ch);
    Revocation.Step(s, i, ch);
    ScanRecords.Step(s, i, ch);
    Supersession.FlagsKept(s, i, sh', op');
    Supersession.EndingKept(s, i, sh', op');
  }

  lemma AdvanceInv(s: State, i: CallId, ch: Choice)
    requires Inv(s) && Enabled(s, Advance(i, ch))
    ensures Inv(Apply(s, Advance(i, ch)))
  {
    StepShaped(s, i, ch);
    LocksAdvance(s, i, ch);
    SessionAdvance(s, i, ch);
    ScanAdvance(s, i, ch);
  }

  // ----- a call arrives -----

  function Arrive(s: State, i: CallId, call: Call): State {
    s.(ops := s.ops[i := NewOp(call)])
  }

  lemma SessionArrives(s: State, i: CallId, call: Call)
    requires Sessions.GenInv(s) && Sessions.LiveInv(s) && Sessions.OrphanInv(s) && i !in s.ops
    ensures Sessions.GenInv(Arrive(s, i, call))
    ensures Sessions.LiveInv(Arrive(s, i, call))
    ensures Sessions.OrphanInv(Arrive(s, i, call))
  {
    forall w | w in s.sh.keys && w !in s.sh.db.sessions
      ensures Sessions.SomeoneOwes(Arrive(s, i, call), w)
    {
      var k :| k in s.ops && Sessions.OwesLock(s.ops[k]) && s.ops[k].call.wallet == w;
      assert Arrive(s, i, call).ops[k] == s.ops[k];
    }
  }

  lemma OwnersArrive(s: State, i: CallId, call: Call)
    requires Counting.GenOwner(s) && Counting.LocksOwn(s) && Counting.GivenBackKnown(s) && i !in s.ops
    ensures var after := Arrive(s, i, call);
            Counting.GenOwner(after) && Counting.LocksOwn(after) && Counting.GivenBackKnown(after)
  {
  }

  lemma LedgersArrive(s: State, i: CallId, call: Call)
    requires Counting.CountsMatch(s) && Counting.GensKnown(s) && Counting.AcquiredMatch(s) && i !in s.ops
    requires Counting.GivenBackMatch(s) && Counting.LocksMatch(s)
    ensures var after := Arrive(s, i, call);
            && Counting.CountsMatch(after) && Counting.GensKnown(after) && Counting.AcquiredMatch(after)
            && Counting.GivenBackMatch(after) && Counting.LocksMatch(after)
  {
  }

  lemma CountingArrives(s: State, i: CallId, call: Call)
    requires Counting.Inv(s) && i !in s.ops
    ensures Counting.Inv(Arrive(s, i, call))
  {
    LedgersArrive(s, i, call);
    OwnersArrive(s, i, call);
    hide Arrive;
  }

  lemma HandlesArrive(s: State, i: CallId, call: Call)
    requires Handles.Inv(s) && i !in s.ops
    ensures Handles.Inv(Arrive(s, i, call))
  {
    HandlesOf(s, Arrive(s, i, call));
  }

  /** The calls of `after` that drew or claimed a handle are those of `s`. */
  lemma HandlesOf(s: State, after: State)
    requires Handles.Inv(s)
    requires Handles.StationsInv(after.sh.scans, after.sh.nextHandle) && after.sh.nextHandle == s.sh.nextHandle
    requires after.sh.scans.issued == s.sh.scans.issued && after.sh.scans.starting == s.sh.scans.starting
    requires after.sh.scans.stoppedBeforeStart == s.sh.scans.stoppedBeforeStart
    requires forall j :: j in after.ops ==>
                           (j in s.ops && after.ops[j] == s.ops[j])
                           || (after.ops[j].pc.Entry? && !after.ops[j].claimed)
    ensures Handles.Inv(after)
  {
    forall j, id: nat {:trigger Handles.ClaimedAs(after.ops[j], id)} | j in after.ops && Handles.ClaimedAs(after.ops[j], id)
      ensures j in s.ops && Handles.ClaimedAs(s.ops[j], id) && after.ops[j] == s.ops[j]
      ensures id < s.sh.nextHandle && id !in s.sh.scans.issued && id !in s.sh.scans.stoppedBeforeStart
    {
      assert Handles.ClaimedAs(s.ops[j], id);
    }
    forall j, id: nat {:trigger Handles.Draws(after.ops[j], id)} | j in after.ops && Handles.Draws(after.ops[j], id)
      ensures j in s.ops && Handles.Draws(s.ops[j], id) && !Handles.AtStation(after.sh.scans, id)
    {
      assert Handles.Draws(s.ops[j], id);
    }
  }

  lemma TurnsArrive(s: State, i: CallId, call: Call)
    requires Slots.TurnsInv(s) && Slots.PastInv(s) && Slots.WaitLastInv(s) && i !in s.ops
    ensures var after := Arrive(s, i, call);
            Slots.TurnsInv(after) && Slots.PastInv(after) && Slots.WaitLastInv(after)
  {
  }

  lemma OccupantsArrive(s: State, i: CallId, call: Call)
    requires Slots.OccupantInv(s) && Slots.LatestInv(s) && Slots.WaitInv(s) && i !in s.ops
    requires Slots.StoppedInv(s) && Slots.AwaitStopInv(s)
    ensures var after := Arrive(s, i, call);
            Slots.OccupantInv(after) && Slots.LatestInv(after) && Slots.WaitInv(after)
            && Slots.StoppedInv(after) && Slots.AwaitStopInv(after)
  {
  }

  lemma SlotsArrive(s: State, i: CallId, call: Call)
    requires Slots.Inv(s) && i !in s.ops
    ensures Slots.Inv(Arrive(s, i, call))
  {
    TurnsArrive(s, i, call);
    OccupantsArrive(s, i, call);
  }

  lemma MaintenanceArrives(s: State, i: CallId, call: Call)
    requires Maintenance.StoppedInv(s) && Maintenance.StoppingInv(s) && i !in s.ops
    requires Maintenance.ConnsInv(s) && Maintenance.AccountInv(s)
    ensures Maintenance.StoppedInv(Arrive(s, i, call))
    ensures Maintenance.StoppingInv(Arrive(s, i, call))
    ensures Maintenance.ConnsInv(Arrive(s, i, call))
    ensures Maintenance.AccountInv(Arrive(s, i, call))
  {
  }

  lemma RevocationArrives(s: State, i: CallId, call: Call)
    requires Revocation.Inv(s) && Locks.Inv(s) && i !in s.ops
    ensures Revocation.Inv(Arrive(s, i, call))
  {
  }

  lemma SupersessionArrives(s: State, i: CallId, call: Call)
    requires Supersession.Inv(s) && i !in s.ops
    ensures Supersession.Inv(Arrive(s, i, call))
  {
  }

  lemma LocksArrive(s: State, i: CallId, call: Call)
    requires AllShaped(s) && Locks.Inv(s) && i !in s.ops
    ensures AllShaped(Arrive(s, i, call)) && Locks.Inv(Arrive(s, i, call))
  {
    Locks.OwnedArrives(s.sh.gates, s.ops, i, NewOp(call), HoldsGate);
    Locks.OwnedArrives(s.sh.maint, s.ops, i, NewOp(call), HoldsMaint);
    ShapedArrives(s, i, call);
    hide Locks.Owned, Shaped;
  }

  lemma ShapedArrives(s: State, i: CallId, call: Call)
    requires AllShaped(s)
    ensures AllShaped(Arrive(s, i, call))
  {
  }

  lemma BeginInv(s: State, i: CallId, call: Call)
    requires Inv(s) && Enabled(s, Begin(i, call))
    ensures Inv(Apply(s, Begin(i, call)))
  {
    hide AllShaped, Locks.Inv, D.Inv, Handles.Inv, Slots.Inv, Supersession.Inv, ScanRecords.Inv, Revocation.Inv, Counting.Inv;
    hide Maintenance.StoppedInv, Maintenance.StoppingInv, Maintenance.ConnsInv, Maintenance.AccountInv;
    hide Sessions.LiveInv, Sessions.GenInv, Sessions.OrphanInv;
    LocksArrive(s, i, call);
    SessionArrives(s, i, call);
    CountingArrives(s, i, call);
    HandlesArrive(s, i, call);
    SlotsArrive(s, i, call);
    MaintenanceArrives(s, i, call);
    RevocationArrives(s, i, call);
    SupersessionArrives(s, i, call);
    ScanRecords.Same(s, Arrive(s, i, call));
  }

  // ----- the environment acts: only one component changes -----

  /** The environment's steps keep the counts, and key sessions only go away by an upstream drop. */
  ghost predicate Spares(sh: Shared, after: Shared) {
    && after.db.sessions == sh.db.sessions && after.db.nextGeneration == sh.db.nextGeneration
    && (sh.db.sessions != map[] ==> after.db.path == sh.db.path)
    && after.ledger == sh.ledger
    && after.keys.Keys <= sh.keys.Keys
    && (forall w :: Sessions.KeysOrLost(sh, w) ==> Sessions.KeysOrLost(after, w))
  }

  lemma GenerationsSpared(s: State, sh: Shared)
    requires Sessions.GenInv(s) && Spares(s.sh, sh)
    ensures Sessions.GenInv(State(sh, s.ops))
  {
  }

  lemma HoldersSpared(s: State, sh: Shared)
    requires Sessions.LiveInv(s) && Sessions.OrphanInv(s) && Spares(s.sh, sh)
    ensures Sessions.LiveInv(State(sh, s.ops)) && Sessions.OrphanInv(State(sh, s.ops))
  {
    forall w | w in sh.keys && w !in sh.db.sessions ensures Sessions.SomeoneOwes(State(sh, s.ops), w) {
      assert w in s.sh.keys;
      assert Sessions.SomeoneOwes(s, w);
    }
  }

  lemma CountsSpared(s: State, sh: Shared)
    requires Counting.Inv(s) && Spares(s.sh, sh)
    ensures Counting.Inv(State(sh, s.ops))
  {
  }

  lemma SessionsSpared(s: State, sh: Shared)
    requires SessionPart(s) && D.Inv(sh.db) && Spares(s.sh, sh)
    ensures SessionPart(State(sh, s.ops))
  {
    GenerationsSpared(s, sh);
    HoldersSpared(s, sh);
    CountsSpared(s, sh);
    hide D.Inv, Sessions.GenInv, Sessions.LiveInv, Sessions.OrphanInv, Counting.Inv;
  }

  lemma HandlesSame(s: State, sh: Shared)
    requires Handles.Inv(s)
    requires sh.nextHandle == s.sh.nextHandle
    requires sh.scans.issued == s.sh.scans.issued && sh.scans.starting == s.sh.scans.starting
    requires sh.scans.stoppedBeforeStart == s.sh.scans.stoppedBeforeStart
    ensures Handles.Inv(State(sh, s.ops))
  {
    forall id: nat | Handles.AtStation(sh.scans, id) ensures id < sh.nextHandle {
      assert Handles.AtStation(s.sh.scans, id);
    }
    HandlesOf(s, State(sh, s.ops));
  }

  lemma AccountsSame(s: State, sh: Shared)
    requires Maintenance.ConnsInv(s) && Maintenance.AccountInv(s)
    requires forall path, w :: Lookup(s.sh.files, path, w).Some? ==> Lookup(sh.files, path, w) == Lookup(s.sh.files, path, w)
    ensures Maintenance.ConnsInv(State(sh, s.ops)) && Maintenance.AccountInv(State(sh, s.ops))
  {
    forall i | i in s.ops && Maintenance.PassedCheck(s.ops[i]) ensures Maintenance.StillFound(sh.files, s.ops[i]) {
      assert Maintenance.StillFound(s.sh.files, s.ops[i]);
    }
  }

  lemma SlotsSame(s: State, sh: Shared)
    requires Slots.Inv(s)
    requires sh.nextTurn == s.sh.nextTurn && sh.scans.running == s.sh.scans.running
    requires s.sh.scans.cancelled <= sh.scans.cancelled && sh.scans.stopped == s.sh.scans.stopped
    ensures Slots.Inv(State(sh, s.ops))
  {
  }

  lemma SupersessionSame(s: State, sh: Shared)
    requires Supersession.Inv(s)
    requires sh.replacedBy == s.sh.replacedBy && sh.scans.superseded == s.sh.scans.superseded
    requires s.sh.scans.cancelled <= sh.scans.cancelled
    ensures Supersession.Inv(State(sh, s.ops))
  {
  }

  /** The parts that only speak of the calls in flight and of the locks. */
  lemma CallsSame(s: State, sh: Shared)
    requires AllShaped(s) && Locks.Inv(s) && Maintenance.StoppedInv(s) && Maintenance.StoppingInv(s)
    requires sh.gates == s.sh.gates && sh.maint == s.sh.maint
    ensures var after := State(sh, s.ops);
            AllShaped(after) && Locks.Inv(after) && Maintenance.StoppedInv(after) && Maintenance.StoppingInv(after)
  {
  }

  lemma RevocationSame(s: State, sh: Shared)
    requires Revocation.Inv(s)
    requires sh.gates == s.sh.gates && sh.scans.starting == s.sh.scans.starting
    requires s.sh.scans.cancelled <= sh.scans.cancelled && s.sh.dropped <= sh.dropped
    requires forall w :: w in s.sh.keys ==> (w in sh.keys && sh.keys[w] == s.sh.keys[w]) || s.sh.keys[w] in sh.dropped
    ensures Revocation.Inv(State(sh, s.ops))
  {
  }

  lemma ScansSame(s: State, sh: Shared)
    requires AllShaped(s) && Locks.Inv(s) && ScanPart(s)
    requires sh.gates == s.sh.gates && sh.maint == s.sh.maint && sh.scans == s.sh.scans
    requires sh.nextHandle == s.sh.nextHandle && sh.nextTurn == s.sh.nextTurn
    requires sh.replacedBy == s.sh.replacedBy
    ensures var after := State(sh, s.ops);
            && AllShaped(after) && Locks.Inv(after) && Handles.Inv(after) && Slots.Inv(after)
            && Supersession.Inv(after) && Maintenance.StoppedInv(after) && Maintenance.StoppingInv(after)
  {
    HandlesSame(s, sh);
    SlotsSame(s, sh);
    SupersessionSame(s, sh);
    CallsSame(s, sh);
  }

  /** While a wallet is counted the recorded path can only be recorded again. */
  lemma RecordPathSpares(sh: Shared, path: Path)
    requires D.Inv(sh.db) && D.SetPath(sh.db, path).Some?
    ensures var after := sh.(db := D.SetPath(sh.db, path).value);
            D.Inv(after.db) && Spares(sh, after)
  {
  }

  /** All parts together. */
  lemma Together(s: State, sh: Shared)
    requires AllShaped(State(sh, s.ops)) && Locks.Inv(State(sh, s.ops)) && SessionPart(State(sh, s.ops))
    requires Handles.Inv(State(sh, s.ops)) && Slots.Inv(State(sh, s.ops)) && Supersession.Inv(State(sh, s.ops))
    requires ScanRecords.Inv(State(sh, s.ops))
    requires Maintenance.StoppedInv(State(sh, s.ops)) && Maintenance.StoppingInv(State(sh, s.ops))
    requires Maintenance.ConnsInv(State(sh, s.ops)) && Maintenance.AccountInv(State(sh, s.ops)) && Revocation.Inv(State(sh, s.ops))
    ensures Inv(State(sh, s.ops))
  {
    hide AllShaped, Locks.Inv, SessionPart, Handles.Inv, Slots.Inv, Supersession.Inv, ScanRecords.Inv, Revocation.Inv;
    hide Maintenance.StoppedInv, Maintenance.StoppingInv, Maintenance.ConnsInv, Maintenance.AccountInv;
  }

  lemma RecordPathInv(s: State, path: Path)
    requires Inv(s) && Enabled(s, RecordPath(path))
    ensures Inv(Apply(s, RecordPath(path)))
  {
    hide AllShaped, Locks.Inv, Handles.Inv, Slots.Inv, Supersession.Inv, ScanRecords.Inv, Revocation.Inv, Counting.Inv, Spares;
    hide Maintenance.StoppedInv, Maintenance.StoppingInv, Maintenance.ConnsInv, Maintenance.AccountInv, Sessions.LiveInv, Sessions.GenInv;
    var sh := s.sh.(db := D.SetPath(s.sh.db, path).value);
    RecordPathSpares(s.sh, path);
    SessionsSpared(s, sh);
    ScansSame(s, sh);
    RevocationSame(s, sh);
    AccountsSame(s, sh);
    ScanRecords.Same(s, State(sh, s.ops));
    Together(s, sh);
  }

  lemma UpstreamDropInv(s: State, i: CallId)
    requires Inv(s) && Enabled(s, UpstreamDrop(i))
    ensures Inv(Apply(s, UpstreamDrop(i)))
  {
    hide AllShaped, Locks.Inv, Handles.Inv, Slots.Inv, Supersession.Inv, ScanRecords.Inv, Revocation.Inv, Counting.Inv;
    hide Maintenance.StoppedInv, Maintenance.StoppingInv, Maintenance.ConnsInv, Maintenance.AccountInv, Sessions.LiveInv, Sessions.GenInv;
    hide D.Inv;
    var sh := DropKeys(s.sh, s.ops[i].call.wallet);
    SessionsSpared(s, sh);
    ScansSame(s, sh);
    RevocationSame(s, sh);
    AccountsSame(s, sh);
    ScanRecords.Same(s, State(sh, s.ops));
    Together(s, sh);
  }

  lemma SinkClosedInv(s: State, i: CallId)
    requires Inv(s) && Enabled(s, SinkClosed(i))
    ensures Inv(Apply(s, SinkClosed(i)))
  {
    hide AllShaped, Locks.Inv, Handles.Inv, Slots.Inv, Supersession.Inv, ScanRecords.Inv, Revocation.Inv, Counting.Inv;
    hide Maintenance.StoppedInv, Maintenance.StoppingInv, Maintenance.ConnsInv, Maintenance.AccountInv, Sessions.LiveInv, Sessions.GenInv;
    hide D.Inv;
    var sh := s.sh.(scans := T.CancelToken(s.sh.scans, i));
    SessionsSpared(s, sh);
    HandlesSame(s, sh);
    SlotsSame(s, sh);
    SupersessionSame(s, sh);
    CallsSame(s, sh);
    RevocationSame(s, sh);
    AccountsSame(s, sh);
    ScanRecords.Same(s, State(sh, s.ops));
    Together(s, sh);
  }

  lemma AddAccountInv(s: State, path: Path, w: Wallet)
    requires Inv(s) && Enabled(s, AddAccount(path, w))
    ensures Inv(Apply(s, AddAccount(path, w)))
  {
    hide AllShaped, Locks.Inv, Handles.Inv, Slots.Inv, Supersession.Inv, ScanRecords.Inv, Revocation.Inv, Counting.Inv;
    hide Maintenance.StoppedInv, Maintenance.StoppingInv, Maintenance.ConnsInv, Maintenance.AccountInv, Sessions.LiveInv, Sessions.GenInv;
    hide D.Inv;
    var sh := Apply(s, AddAccount(path, w)).sh;
    SessionsSpared(s, sh);
    ScansSame(s, sh);
    RevocationSame(s, sh);
    AccountsSame(s, sh);
    ScanRecords.Same(s, State(sh, s.ops));
    Together(s, sh);
  }

  // ----- every run -----

  lemma ApplyInv(s: State, a: Action)
    requires Inv(s) && Enabled(s, a)
    ensures Inv(Apply(s, a))
  {
    hide Inv;
    match a
    case Begin(i, call) => BeginInv(s, i, call);
    case Advance(i, ch) => AdvanceInv(s, i, ch);
    case RecordPath(path) => RecordPathInv(s, path);
    case UpstreamDrop(i) => UpstreamDropInv(s, i);
    case SinkClosed(i) => SinkClosedInv(s, i);
    case AddAccount(path, w) => AddAccountInv(s, path, w);
  }

  lemma {:induction false} RunInv(s: State, acts: seq<Action>)
    requires Inv(s) && Legal(s, acts)
    ensures Inv(After(s, acts))
    decreases |acts|
  {
    if acts == [] {
    } else {
      ApplyInv(s, acts[0]);
      RunInv(Apply(s, acts[0]), acts[1..]);
    }
  }
}
