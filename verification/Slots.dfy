/** Who owns a wallet's scan slot, in which order scans took it, and who has to wait for whom. */
module Slots {
  import opened Types
  import opened Protocol
  import opened Shape
  import T = ScanTable
  import Handles

  predicate TurnedBefore(a: Op, b: Op) {
    a.turn.Some? && b.turn.Some? && a.turn.value < b.turn.value
  }

  predicate TurnedBy(a: Op, b: Op) {
    a.turn.Some? && b.turn.Some? && a.turn.value <= b.turn.value
  }

  /** An active scan of wallet `w`. */
  predicate ActiveIn(op: Op, w: Wallet) {
    Active(op) && op.call.wallet == w
  }

  /** An active scan of the same wallet as `b` that took the slot before it. */
  predicate ActiveBefore(a: Op, b: Op) {
    ActiveIn(a, b.call.wallet) && TurnedBefore(a, b)
  }

  /** The scan has nothing more to wait for: it may scan, does, or has left the slot. */
  predicate PastWait(op: Op) {
    op.turn.Some? && !op.pc.AwaitPrevious? && (op.pc.Placed? ==> op.pc.previous.None?)
  }

  ghost predicate TurnsInv(s: State) {
    && (forall i :: i in s.ops && s.ops[i].turn.Some? ==> s.ops[i].turn.value < s.sh.nextTurn)
    && (forall i, j :: i in s.ops && j in s.ops && s.ops[i].turn.Some? && s.ops[i].turn == s.ops[j].turn ==>
          i == j)
  }

  /** The occupant of a slot is an active scan of that wallet, under its own handle. */
  ghost predicate OccupantInv(s: State) {
    forall w :: w in s.sh.scans.running ==>
                  var c := s.sh.scans.running[w];
                  && c.run in s.ops && ActiveIn(s.ops[c.run], w) && s.ops[c.run].call.Scan?
                  && c == T.Controller(s.ops[c.run].call.id, s.ops[c.run].call.priority, c.run)
  }

  /** The active scan took the slot no later than its wallet's occupant, and is cancelled unless it is
      the occupant. */
  predicate IsLatest(sh: Shared, ops: map<CallId, Op>, i: CallId)
    requires i in ops
  {
    var w := ops[i].call.wallet;
    && w in sh.scans.running && sh.scans.running[w].run in ops
    && TurnedBy(ops[i], ops[sh.scans.running[w].run])
    && (sh.scans.running[w].run != i ==> i in sh.scans.cancelled)
  }

  ghost predicate LatestInv(s: State) {
    forall i :: i in s.ops && Active(s.ops[i]) ==> IsLatest(s.sh, s.ops, i)
  }

  /** The scan that `op` still has to wait for. */
  function Awaits(op: Op): Option<CallId> {
    match op.pc
    case Placed(previous) => previous
    case AwaitPrevious(earlier) => Some(earlier)
    case _ => None
  }

  /** A waiting scan waits for a cancelled scan of its wallet that took the slot before it. */
  ghost predicate WaitInv(s: State) {
    forall i :: i in s.ops && Awaits(s.ops[i]).Some? ==>
                  var p := Awaits(s.ops[i]).value;
                  && p in s.ops && p in s.sh.scans.cancelled
                  && s.ops[p].call.wallet == s.ops[i].call.wallet
                  && TurnedBefore(s.ops[p], s.ops[i])
  }

  /** It is the last of the active scans that took the slot before the waiting one. */
  ghost predicate WaitLastInv(s: State) {
    forall i, j :: i in s.ops && j in s.ops && Awaits(s.ops[i]).Some? && ActiveBefore(s.ops[j], s.ops[i]) ==>
                     Awaits(s.ops[i]).value in s.ops && TurnedBy(s.ops[j], s.ops[Awaits(s.ops[i]).value])
  }

  /** Once a scan need not wait, no scan that took the slot before it is still active. */
  ghost predicate PastInv(s: State) {
    forall i, j :: i in s.ops && j in s.ops && PastWait(s.ops[i]) && ActiveIn(s.ops[j], s.ops[i].call.wallet) ==>
                     TurnedBy(s.ops[i], s.ops[j])
  }

  /** A scan's `stopped` token has fired exactly when it returned. */
  ghost predicate StoppedInv(s: State) {
    && (forall i :: i in s.sh.scans.stopped ==> i in s.ops && s.ops[i].pc.Done?)
    && (forall i :: i in s.ops && s.ops[i].call.Scan? && s.ops[i].pc.Done? ==> i in s.sh.scans.stopped)
  }

  /** A stop waits for a cancelled scan of its wallet that took the slot: `stop_scan` for the one
      started with its handle. */
  ghost predicate AwaitStopInv(s: State) {
    forall i :: i in s.ops && s.ops[i].pc.AwaitStop? ==>
                  var r := s.ops[i].pc.run;
                  && r in s.ops && s.ops[r].turn.Some? && r in s.sh.scans.cancelled
                  && s.ops[r].call.wallet == s.ops[i].call.wallet
                  && (s.ops[i].call.Stop? ==> StartedWith(s.ops[r], s.ops[i].call.id))
  }

  predicate StartedWith(op: Op, id: nat) {
    op.call.Scan? && op.call.id == id
  }

  ghost predicate Inv(s: State) {
    && TurnsInv(s) && OccupantInv(s) && LatestInv(s) && WaitInv(s) && WaitLastInv(s) && PastInv(s)
    && StoppedInv(s) && AwaitStopInv(s)
  }

  // ----- what one step does -----

  /** The step takes the slot of its wallet. */
  predicate Takes(sh: Shared, i: CallId, op: Op, sh': Shared, op': Op) {
    var w := op.call.wallet;
    && op.call.Scan? && op.pc.AtSlot? && op.turn.None?
    && sh'.nextTurn == sh.nextTurn + 1
    && op'.turn == Some(sh.nextTurn)
    && op'.pc == Placed(if w in sh.scans.running then Some(sh.scans.running[w].run) else None)
    && sh'.scans.running == sh.scans.running[w := T.Controller(op.call.id, op.call.priority, i)]
    && (w in sh.scans.running ==> sh.scans.running[w].run in sh'.scans.cancelled)
  }

  predicate Owns(sh: Shared, op: Op) {
    && op.call.Scan? && op.call.wallet in sh.scans.running
    && sh.scans.running[op.call.wallet].id == op.call.id
  }

  /** The step leaves a slot or changes none, and no scan starts to wait for another. */
  predicate Stays(sh: Shared, op: Op, sh': Shared, op': Op) {
    && sh'.nextTurn == sh.nextTurn
    && op'.turn == op.turn
    && (Active(op') <==> Active(op) && !op.pc.Leaving?)
    && sh'.scans.running ==
         (if op.pc.Leaving? && Owns(sh, op) then sh.scans.running - {op.call.wallet} else sh.scans.running)
    && (Awaits(op').Some? ==> Awaits(op') == Awaits(op))
    && (PastWait(op') ==> PastWait(op) || (op.pc.AwaitPrevious? && op.pc.earlier in sh.scans.stopped))
  }

  /** Tokens only ever fire; a stop starts to wait for the occupant it cancels. */
  predicate Fires(sh: Shared, i: CallId, op: Op, sh': Shared, op': Op) {
    && sh.scans.cancelled <= sh'.scans.cancelled
    && sh'.scans.stopped == (if op.pc.Sent? then sh.scans.stopped + {i} else sh.scans.stopped)
    && (op'.call.Scan? && op'.pc.Done? ==> op.pc.Sent?)
    && (op.pc.Sent? ==> op'.pc.Done?)
    && (op'.pc.AwaitStop? ==>
          op.call.wallet in sh.scans.running
          && op'.pc.run == sh.scans.running[op.call.wallet].run
          && (op.call.Stop? ==> sh.scans.running[op.call.wallet].id == op.call.id)
          && op'.pc.run in sh'.scans.cancelled)
  }

  predicate Move(sh: Shared, i: CallId, op: Op, sh': Shared, op': Op) {
    && op'.call == op.call
    && (Takes(sh, i, op, sh', op') || Stays(sh, op, sh', op'))
    && Fires(sh, i, op, sh', op')
  }

  lemma SlotEffect(sh: Shared, i: CallId, op: Op, ch: Choice)
    requires Shaped(op) && CanStep(sh, op)
    ensures var (sh', op') := (NextShared(sh, i, op, ch), NextOp(sh, i, op, ch));
            if TakesSlot(sh, i, op) then Takes(sh, i, op, sh', op') else Stays(sh, op, sh', op')
  {
    if op.call.Change? {
      ChangeStays(sh, i, op, ch);
    } else if Mains(op.call) {
      MainsStays(sh, i, op, ch);
    } else if !op.call.Scan? {
      OtherStays(sh, i, op, ch);
    } else if !op.pc.AtSlot? {
      ScanStays(sh, i, op, ch);
    }
  }

  lemma ChangeStays(sh: Shared, i: CallId, op: Op, ch: Choice)
    requires Shaped(op) && CanStep(sh, op) && op.call.Change?
    ensures Stays(sh, op, NextShared(sh, i, op, ch), NextOp(sh, i, op, ch))
  {
  }

  lemma MainsStays(sh: Shared, i: CallId, op: Op, ch: Choice)
    requires Shaped(op) && CanStep(sh, op) && Mains(op.call) && !op.call.Change?
    ensures Stays(sh, op, NextShared(sh, i, op, ch), NextOp(sh, i, op, ch))
  {
  }

  lemma OtherStays(sh: Shared, i: CallId, op: Op, ch: Choice)
    requires Shaped(op) && CanStep(sh, op) && !op.call.Scan? && !Mains(op.call)
    ensures Stays(sh, op, NextShared(sh, i, op, ch), NextOp(sh, i, op, ch))
  {
  }

  lemma ScanStays(sh: Shared, i: CallId, op: Op, ch: Choice)
    requires Shaped(op) && CanStep(sh, op) && op.call.Scan? && !op.pc.AtSlot?
    ensures Stays(sh, op, NextShared(sh, i, op, ch), NextOp(sh, i, op, ch))
  {
  }

  lemma TokenEffect(sh: Shared, i: CallId, op: Op, ch: Choice)
    requires Shaped(op) && CanStep(sh, op)
    ensures Fires(sh, i, op, NextShared(sh, i, op, ch), NextOp(sh, i, op, ch))
  {
    if op.call.Scan? {
      ScanFires(sh, i, op, ch);
    } else if Mains(op.call) {
      MainsFires(sh, i, op, ch);
    } else {
      OtherFires(sh, i, op, ch);
    }
  }

  lemma ScanFires(sh: Shared, i: CallId, op: Op, ch: Choice)
    requires Shaped(op) && CanStep(sh, op) && op.call.Scan?
    ensures Fires(sh, i, op, NextShared(sh, i, op, ch), NextOp(sh, i, op, ch))
  {
    hide NextDb, NextKeys, NextGates, NextMaint, NextFiles, NextReplacedBy, NextLedger,
         NextGen, NextAccount, NextConns, NextEpochSeen;
  }

  lemma MainsFires(sh: Shared, i: CallId, op: Op, ch: Choice)
    requires Shaped(op) && CanStep(sh, op) && Mains(op.call)
    ensures Fires(sh, i, op, NextShared(sh, i, op, ch), NextOp(sh, i, op, ch))
  {
    hide NextDb, NextKeys, NextGates, NextMaint, NextFiles, NextReplacedBy, NextLedger,
         NextGen, NextAccount, NextConns, NextEpochSeen;
  }

  lemma OtherFires(sh: Shared, i: CallId, op: Op, ch: Choice)
    requires Shaped(op) && CanStep(sh, op) && !op.call.Scan? && !Mains(op.call)
    ensures Fires(sh, i, op, NextShared(sh, i, op, ch), NextOp(sh, i, op, ch))
  {
    hide NextDb, NextKeys, NextGates, NextMaint, NextFiles, NextReplacedBy, NextLedger,
         NextGen, NextAccount, NextConns, NextEpochSeen;
  }

  lemma StepMoves(sh: Shared, i: CallId, op: Op, ch: Choice)
    requires Shaped(op) && CanStep(sh, op)
    ensures Move(sh, i, op, NextShared(sh, i, op, ch), NextOp(sh, i, op, ch))
  {
    SlotEffect(sh, i, op, ch);
    TokenEffect(sh, i, op, ch);
  }

  // ----- every move keeps the invariant -----

  function Moved(s: State, i: CallId, sh': Shared, op': Op): State {
    State(sh', s.ops[i := op'])
  }

  lemma TurnsKept(s: State, i: CallId, sh': Shared, op': Op)
    requires i in s.ops && Move(s.sh, i, s.ops[i], sh', op')
    requires TurnsInv(s)
    ensures TurnsInv(Moved(s, i, sh', op'))
  {
  }

  lemma OccupantKept(s: State, i: CallId, sh': Shared, op': Op)
    requires i in s.ops && Move(s.sh, i, s.ops[i], sh', op')
    requires OccupantInv(s)
    ensures OccupantInv(Moved(s, i, sh', op'))
  {
  }

  /** Of the active scans of a wallet only the first can have nothing to wait for. */
  lemma OnePast(s: State, i: CallId, j: CallId)
    requires TurnsInv(s) && PastInv(s) && i in s.ops && j in s.ops
    requires PastWait(s.ops[i]) && PastWait(s.ops[j])
    requires ActiveIn(s.ops[i], s.ops[j].call.wallet) && ActiveIn(s.ops[j], s.ops[i].call.wallet)
    ensures i == j
  {
  }

  /** A scan that clears its slot is its occupant and the only active scan of its wallet. */
  lemma LeavingAlone(s: State, i: CallId, j: CallId)
    requires AllShaped(s) && Handles.ClaimedOnce(s)
    requires TurnsInv(s) && OccupantInv(s) && LatestInv(s) && PastInv(s)
    requires i in s.ops && s.ops[i].pc.Leaving? && Owns(s.sh, s.ops[i])
    requires j in s.ops && ActiveIn(s.ops[j], s.ops[i].call.wallet)
    ensures j == i
  {
    var c := s.sh.scans.running[s.ops[i].call.wallet];
    assert Handles.ClaimedAs(s.ops[i], c.id);
    assert Handles.ClaimedAs(s.ops[c.run], c.id);
  }

  lemma LatestFor(s: State, i: CallId, sh': Shared, op': Op, j: CallId)
    requires i in s.ops && Move(s.sh, i, s.ops[i], sh', op') && j in s.ops
    requires s.ops[i].pc.Leaving? && Owns(s.sh, s.ops[i]) && s.ops[j].call.wallet == s.ops[i].call.wallet ==>
               !Active(s.ops[j]) || j == i
    requires TurnsInv(s) && OccupantInv(s) && LatestInv(s) && Active(Moved(s, i, sh', op').ops[j])
    ensures IsLatest(sh', Moved(s, i, sh', op').ops, j)
  {
    if Stays(s.sh, s.ops[i], sh', op') {
      assert Active(s.ops[j]);
    }
  }

  lemma LatestKept(s: State, i: CallId, sh': Shared, op': Op)
    requires i in s.ops && Move(s.sh, i, s.ops[i], sh', op')
    requires AllShaped(s) && Handles.ClaimedOnce(s)
    requires TurnsInv(s) && OccupantInv(s) && LatestInv(s) && PastInv(s)
    ensures LatestInv(Moved(s, i, sh', op'))
  {
    hide Move, AllShaped, Handles.ClaimedOnce, TurnsInv, OccupantInv, PastInv;
    var op := s.ops[i];
    var after := Moved(s, i, sh', op');
    forall j | j in after.ops && Active(after.ops[j])
      ensures IsLatest(after.sh, after.ops, j)
    {
      if op.pc.Leaving? && Owns(s.sh, op) && ActiveIn(s.ops[j], op.call.wallet) {
        LeavingAlone(s, i, j);
      }
      LatestFor(s, i, sh', op', j);
    }
  }

  lemma WaitKept(s: State, i: CallId, sh': Shared, op': Op)
    requires i in s.ops && Move(s.sh, i, s.ops[i], sh', op')
    requires TurnsInv(s) && OccupantInv(s) && LatestInv(s) && WaitInv(s)
    ensures WaitInv(Moved(s, i, sh', op'))
  {
  }

  /** The scan that just took the slot waits for the last of the scans before it. */
  lemma TakerWaitsForLast(s: State, i: CallId, sh': Shared, op': Op, k: CallId)
    requires i in s.ops && op'.call == s.ops[i].call && Takes(s.sh, i, s.ops[i], sh', op')
    requires LatestInv(s)
    requires k in s.ops && k != i && Awaits(op').Some? && ActiveBefore(s.ops[k], op')
    ensures var p := Awaits(op').value;
            p != i && p in s.ops && TurnedBy(s.ops[k], s.ops[p])
  {
  }

  /** The scans that were waiting already wait for the same one. */
  lemma OthersWaitForLast(s: State, i: CallId, j: CallId, k: CallId)
    requires WaitLastInv(s) && i in s.ops && s.ops[i].turn.None?
    requires j in s.ops && k in s.ops && Awaits(s.ops[j]).Some? && ActiveBefore(s.ops[k], s.ops[j])
    ensures var p := Awaits(s.ops[j]).value;
            p != i && p in s.ops && TurnedBy(s.ops[k], s.ops[p])
  {
  }

  lemma WaitLastFor(s: State, i: CallId, sh': Shared, op': Op, j: CallId, k: CallId)
    requires i in s.ops && op'.call == s.ops[i].call && Takes(s.sh, i, s.ops[i], sh', op')
    requires TurnsInv(s) && LatestInv(s) && WaitLastInv(s) && j in s.ops && k in s.ops
    requires var after := Moved(s, i, sh', op');
             Awaits(after.ops[j]).Some? && ActiveBefore(after.ops[k], after.ops[j])
    ensures var after := Moved(s, i, sh', op');
            && Awaits(after.ops[j]).value in s.ops
            && TurnedBy(after.ops[k], after.ops[Awaits(after.ops[j]).value])
  {
    TakerIsNotBefore(s, i, sh', op', j, k);
    hide TurnsInv;
    if j == i {
      hide WaitLastInv;
      TakerWaitsForLast(s, i, sh', op', k);
    } else {
      hide LatestInv;
      OthersWaitForLast(s, i, j, k);
    }
  }

  lemma TakerIsNotBefore(s: State, i: CallId, sh': Shared, op': Op, j: CallId, k: CallId)
    requires i in s.ops && Takes(s.sh, i, s.ops[i], sh', op') && TurnsInv(s) && j in s.ops && k in s.ops
    requires var after := Moved(s, i, sh', op');
             ActiveBefore(after.ops[k], after.ops[j])
    ensures k != i
  {
  }

  lemma WaitLastAfterTake(s: State, i: CallId, sh': Shared, op': Op)
    requires i in s.ops && op'.call == s.ops[i].call && Takes(s.sh, i, s.ops[i], sh', op')
    requires TurnsInv(s) && OccupantInv(s) && LatestInv(s) && WaitLastInv(s)
    ensures WaitLastInv(Moved(s, i, sh', op'))
  {
    hide Takes, TurnsInv, OccupantInv, LatestInv;
    var after := Moved(s, i, sh', op');
    forall j, k | j in after.ops && k in after.ops && Awaits(after.ops[j]).Some? && ActiveBefore(after.ops[k], after.ops[j])
      ensures Awaits(after.ops[j]).value in after.ops && TurnedBy(after.ops[k], after.ops[Awaits(after.ops[j]).value])
    {
      WaitLastFor(s, i, sh', op', j, k);
    }
  }

  lemma WaitLastAfterStay(s: State, i: CallId, sh': Shared, op': Op)
    requires i in s.ops && op'.call == s.ops[i].call && Stays(s.sh, s.ops[i], sh', op')
    requires WaitLastInv(s)
    ensures WaitLastInv(Moved(s, i, sh', op'))
  {
    var after := Moved(s, i, sh', op');
    forall j, k | j in after.ops && k in after.ops && Awaits(after.ops[j]).Some? && ActiveBefore(after.ops[k], after.ops[j])
      ensures Awaits(after.ops[j]).value in after.ops && TurnedBy(after.ops[k], after.ops[Awaits(after.ops[j]).value])
    {
      assert ActiveBefore(s.ops[k], s.ops[j]);
    }
  }

  /** When the scan that `i` waits for has stopped, every active scan that took the slot before
      `i` is gone. */
  lemma WaitOver(s: State, i: CallId, j: CallId)
    requires TurnsInv(s) && WaitInv(s) && WaitLastInv(s) && PastInv(s) && StoppedInv(s)
    requires i in s.ops && s.ops[i].pc.AwaitPrevious? && s.ops[i].pc.earlier in s.sh.scans.stopped
    requires s.ops[i].turn.Some? && j in s.ops && ActiveIn(s.ops[j], s.ops[i].call.wallet) && s.ops[j].turn.Some?
    ensures TurnedBy(s.ops[i], s.ops[j])
  {
    var p := s.ops[i].pc.earlier;
    assert Awaits(s.ops[i]) == Some(p);
    assert PastWait(s.ops[p]);
    assert ActiveBefore(s.ops[j], s.ops[i]) ==> TurnedBy(s.ops[j], s.ops[p]);
  }

  lemma PastFor(s: State, i: CallId, sh': Shared, op': Op, j: CallId, k: CallId)
    requires i in s.ops && Move(s.sh, i, s.ops[i], sh', op') && j in s.ops && k in s.ops
    requires AllShaped(s) && TurnsInv(s) && LatestInv(s) && PastInv(s)
    requires var after := Moved(s, i, sh', op');
             PastWait(after.ops[j]) && ActiveIn(after.ops[k], after.ops[j].call.wallet)
    requires j == i && Stays(s.sh, s.ops[i], sh', op') && !PastWait(s.ops[i]) ==> TurnedBy(s.ops[i], s.ops[k])
    ensures var after := Moved(s, i, sh', op');
            TurnedBy(after.ops[j], after.ops[k])
  {
  }

  lemma PastKept(s: State, i: CallId, sh': Shared, op': Op)
    requires i in s.ops && Move(s.sh, i, s.ops[i], sh', op')
    requires AllShaped(s)
    requires TurnsInv(s) && LatestInv(s) && WaitInv(s) && WaitLastInv(s) && PastInv(s) && StoppedInv(s)
    ensures PastInv(Moved(s, i, sh', op'))
  {
    var op := s.ops[i];
    assert Shaped(op);
    var after := Moved(s, i, sh', op');
    hide TurnsInv, LatestInv, WaitInv, WaitLastInv, StoppedInv;
    forall j, k | j in after.ops && k in after.ops && PastWait(after.ops[j]) && ActiveIn(after.ops[k], after.ops[j].call.wallet)
      ensures TurnedBy(after.ops[j], after.ops[k])
    {
      if j == i && Stays(s.sh, op, sh', op') && !PastWait(op) {
        assert Shaped(s.ops[k]);
        WaitOver(s, i, k);
      }
      PastFor(s, i, sh', op', j, k);
    }
  }

  lemma StoppedKept(s: State, i: CallId, sh': Shared, op': Op)
    requires i in s.ops && !s.ops[i].pc.Done? && Move(s.sh, i, s.ops[i], sh', op')
    requires StoppedInv(s)
    ensures StoppedInv(Moved(s, i, sh', op'))
  {
  }

  lemma OccupantTurned(s: State, w: Wallet)
    requires AllShaped(s) && OccupantInv(s) && w in s.sh.scans.running
    ensures var r := s.sh.scans.running[w].run;
            && r in s.ops && s.ops[r].turn.Some? && s.ops[r].call.wallet == w
            && StartedWith(s.ops[r], s.sh.scans.running[w].id)
  {
    ActiveTurned(s.ops[s.sh.scans.running[w].run]);
    hide Shaped, Active;
  }

  lemma ActiveTurned(op: Op)
    requires Active(op) && Shaped(op)
    ensures op.turn.Some?
  {
  }

  lemma AwaitStopKept(s: State, i: CallId, sh': Shared, op': Op)
    requires i in s.ops && Move(s.sh, i, s.ops[i], sh', op')
    requires AllShaped(s) && OccupantInv(s) && AwaitStopInv(s)
    ensures AwaitStopInv(Moved(s, i, sh', op'))
  {
    if op'.pc.AwaitStop? {
      OccupantTurned(s, s.ops[i].call.wallet);
    }
    hide OccupantInv, AllShaped, Takes, Stays;
  }
}
