/** Maintenance operations (delete, rename, passphrase change, abandon) against scans. */
module Maintenance {
  import opened Types
  import opened Protocol
  import opened Shape
  import Locks
  import Slots

  /** A maintenance operation between the return of its scan stop and the drop of its guard. */
  predicate StopReturned(op: Op) {
    match op.call
    case Passphrase(_) | Abandon(_) => op.pc.WriteOpen? || op.pc.Write? || op.pc.MaintDrop?
    case Change(_) =>
      op.pc.Write? || op.pc.MaintDrop? || (op.round == Second && HoldsMaint(op))
    case _ => false
  }

  ghost predicate StoppedInv(s: State) {
    forall i, j :: i in s.ops && j in s.ops && StopReturned(s.ops[i]) ==>
                     !Slots.ActiveIn(s.ops[j], s.ops[i].call.wallet)
  }

  predicate Stopping(op: Op) {
    Mains(op.call) && op.pc.AwaitStop?
  }

  ghost predicate StoppingInv(s: State) {
    forall i, j :: i in s.ops && j in s.ops && Stopping(s.ops[i])
                   && Slots.ActiveIn(s.ops[j], s.ops[i].call.wallet) ==>
                     s.ops[i].pc.run in s.ops && Slots.TurnedBy(s.ops[j], s.ops[s.ops[i].pc.run])
  }

  /** How a maintenance operation moves with respect to its stop. */
  predicate Effect(sh: Shared, op: Op, op': Op) {
    && op'.call == op.call
    && (StopReturned(op') ==>
          || StopReturned(op)
          || (Mains(op.call) && op.pc.StopScans? && op.call.wallet !in sh.scans.running)
          || (Stopping(op) && op.pc.run in sh.scans.stopped))
    && (Stopping(op') ==>
          && op.pc.StopScans? && op.call.wallet in sh.scans.running
          && op'.pc.run == sh.scans.running[op.call.wallet].run)
  }

  lemma StopHolds(op: Op)
    requires Shaped(op) && (StopReturned(op) || Stopping(op))
    ensures HoldsMaint(op)
  {
  }

  lemma StepEffect(sh: Shared, i: CallId, op: Op, ch: Choice)
    requires Shaped(op) && CanStep(sh, op)
    ensures Effect(sh, op, NextOp(sh, i, op, ch))
  {
  }

  /** No scan takes a slot while a maintenance operation on its wallet holds the lock. */
  lemma HeldOut(s: State, i: CallId, m: CallId)
    requires Locks.Inv(s) && i in s.ops && m in s.ops
    requires s.ops[i].call.Scan? && s.ops[i].pc.AtSlot?
    requires Mains(s.ops[m].call) && HoldsMaint(s.ops[m])
    ensures s.ops[i].call.wallet != s.ops[m].call.wallet
  {
  }

  /** When the scan a maintenance operation stops has stopped, its wallet has no active scan. */
  lemma StopOver(s: State, i: CallId, j: CallId)
    requires AllShaped(s) && Slots.Inv(s) && StoppingInv(s)
    requires i in s.ops && Stopping(s.ops[i]) && s.ops[i].pc.run in s.sh.scans.stopped
    requires j in s.ops
    ensures !Slots.ActiveIn(s.ops[j], s.ops[i].call.wallet)
  {
    var r := s.ops[i].pc.run;
    assert Slots.PastWait(s.ops[r]);
  }

  /** The operation whose stop returns in this step finds its wallet without an active scan. */
  lemma StoppedBegins(s: State, i: CallId, sh': Shared, op': Op, j: CallId)
    requires i in s.ops && Slots.Stays(s.sh, s.ops[i], sh', op') && Effect(s.sh, s.ops[i], op')
    requires AllShaped(s) && Slots.Inv(s) && StoppedInv(s) && StoppingInv(s)
    requires StopReturned(op') && j in s.ops
    ensures !Slots.ActiveIn(Slots.Moved(s, i, sh', op').ops[j], op'.call.wallet)
  {
    if Stopping(s.ops[i]) && s.ops[i].pc.run in s.sh.scans.stopped {
      StopOver(s, i, j);
    }
  }

  lemma StoppedGoesOn(s: State, i: CallId, sh': Shared, op': Op, m: CallId, j: CallId)
    requires i in s.ops && Slots.Move(s.sh, i, s.ops[i], sh', op')
    requires AllShaped(s) && Locks.Inv(s) && StoppedInv(s)
    requires m in s.ops && m != i && StopReturned(s.ops[m]) && j in s.ops
    ensures !Slots.ActiveIn(Slots.Moved(s, i, sh', op').ops[j], s.ops[m].call.wallet)
  {
    if Slots.Takes(s.sh, i, s.ops[i], sh', op') {
      StopHolds(s.ops[m]);
      HeldOut(s, i, m);
    }
  }

  lemma StoppedKept(s: State, i: CallId, sh': Shared, op': Op)
    requires i in s.ops && Slots.Move(s.sh, i, s.ops[i], sh', op') && Effect(s.sh, s.ops[i], op')
    requires AllShaped(s) && Locks.Inv(s) && Slots.Inv(s) && StoppedInv(s) && StoppingInv(s)
    ensures StoppedInv(Slots.Moved(s, i, sh', op'))
  {
    hide AllShaped, Locks.Inv, Slots.Inv, StoppingInv, HoldsMaint;
    var after := Slots.Moved(s, i, sh', op');
    forall m, j | m in after.ops && j in after.ops && StopReturned(after.ops[m])
      ensures !Slots.ActiveIn(after.ops[j], after.ops[m].call.wallet)
    {
      if m == i {
        StoppedBegins(s, i, sh', op', j);
      } else {
        StoppedGoesOn(s, i, sh', op', m, j);
      }
    }
  }

  /** A stop that starts to wait waits for the last of its wallet's active scans. */
  lemma StoppingStarts(s: State, i: CallId, sh': Shared, op': Op, j: CallId)
    requires i in s.ops && Slots.Stays(s.sh, s.ops[i], sh', op') && Effect(s.sh, s.ops[i], op')
    requires Slots.LatestInv(s) && Slots.OccupantInv(s)
    requires var after := Slots.Moved(s, i, sh', op');
             j in after.ops && Stopping(op') && Slots.ActiveIn(after.ops[j], op'.call.wallet)
    ensures op'.pc.run in s.ops
    ensures var after := Slots.Moved(s, i, sh', op');
            Slots.TurnedBy(after.ops[j], after.ops[op'.pc.run])
  {
    assert Active(s.ops[j]);
  }

  /** While it waits, scans of its wallet only leave the slot. */
  lemma StoppingGoesOn(s: State, i: CallId, sh': Shared, op': Op, m: CallId, j: CallId)
    requires i in s.ops && Slots.Move(s.sh, i, s.ops[i], sh', op')
    requires Locks.Inv(s) && StoppingInv(s)
    requires m in s.ops && m != i && Stopping(s.ops[m])
    requires var after := Slots.Moved(s, i, sh', op');
             j in after.ops && Slots.ActiveIn(after.ops[j], s.ops[m].call.wallet)
    ensures s.ops[m].pc.run in s.ops
    ensures var after := Slots.Moved(s, i, sh', op');
            Slots.TurnedBy(after.ops[j], after.ops[s.ops[m].pc.run])
  {
    if Slots.Takes(s.sh, i, s.ops[i], sh', op') && s.ops[i].call.wallet == s.ops[m].call.wallet {
      HeldOut(s, i, m);
    } else {
      assert Slots.ActiveIn(s.ops[j], s.ops[m].call.wallet);
    }
  }

  lemma StoppingKept(s: State, i: CallId, sh': Shared, op': Op)
    requires i in s.ops && Slots.Move(s.sh, i, s.ops[i], sh', op') && Effect(s.sh, s.ops[i], op')
    requires AllShaped(s) && Locks.Inv(s) && StoppingInv(s)
    requires Slots.LatestInv(s) && Slots.OccupantInv(s)
    ensures StoppingInv(Slots.Moved(s, i, sh', op'))
  {
    hide AllShaped, Locks.Inv, Slots.LatestInv, Slots.OccupantInv, HoldsMaint;
    var after := Slots.Moved(s, i, sh', op');
    forall m, j | m in after.ops && j in after.ops && Stopping(after.ops[m])
                  && Slots.ActiveIn(after.ops[j], after.ops[m].call.wallet)
      ensures after.ops[m].pc.run in after.ops && Slots.TurnedBy(after.ops[j], after.ops[after.ops[m].pc.run])
    {
      if m == i {
        StoppingStarts(s, i, sh', op', j);
      } else {
        StoppingGoesOn(s, i, sh', op', m, j);
      }
    }
  }

  // ----- the databases a call opens -----

  /** How many databases a call has opened. */
  predicate ConnsShaped(op: Op) {
    match op.call
    case Abandon(_) =>
      match op.pc {
        case Entry => |op.conns| == 0
        case PassCheck | MaintWait | MaintOpen => |op.conns| == 1
        case MaintCheck | StopScans | AwaitStop(_) | WriteOpen => |op.conns| == 2
        case Write => |op.conns| == 3
        case _ => true
      }
    case Change(_) =>
      if op.pc.Entry? || op.pc.MaintWait? || op.pc.MaintOpen? then |op.conns| == 0
      else op.pc.Done? || op.pc.MaintAbort? || |op.conns| == 1
    case Scan(_, _, _) =>
      match op.pc {
        case Entry | Claimed => |op.conns| == 0
        case PathKnown => |op.conns| == 1
        case Connected | Ready | AtSlot => |op.conns| == 2
        case Placed(_) | AwaitPrevious(_) | InSlot | Scanning => |op.conns| == 2
        case _ => true
      }
    case _ => true
  }

  ghost predicate ConnsInv(s: State) {
    forall i :: i in s.ops ==> ConnsShaped(s.ops[i])
  }

  lemma ConnsEffect(sh: Shared, i: CallId, op: Op, ch: Choice)
    requires Shaped(op) && ConnsShaped(op) && !op.pc.Done? && !op.call.Scan?
    ensures ConnsShaped(NextOp(sh, i, op, ch))
  {
  }

  lemma ScanConnsEffect(sh: Shared, i: CallId, op: Op, ch: Choice)
    requires Shaped(op) && ConnsShaped(op) && !op.pc.Done? && op.call.Scan?
    ensures ConnsShaped(NextOp(sh, i, op, ch))
  {
  }

  lemma ConnsStep(s: State, i: CallId, ch: Choice)
    requires AllShaped(s) && ConnsInv(s) && Enabled(s, Advance(i, ch))
    ensures ConnsInv(Apply(s, Advance(i, ch)))
  {
    hide Shaped, NextOp, ConnsShaped;
    if s.ops[i].call.Scan? {
      ScanConnsEffect(s.sh, i, s.ops[i], ch);
    } else {
      ConnsEffect(s.sh, i, s.ops[i], ch);
    }
  }

  // ----- the account an abandon acts on -----

  predicate PassedCheck(op: Op) {
    op.call.Abandon? && (op.pc.StopScans? || op.pc.AwaitStop? || op.pc.WriteOpen? || op.pc.Write?)
  }

  /** In the database that `same_account` read the wallet's name still means the abandon's account. */
  predicate StillFound(files: map<Path, Accounts>, op: Op) {
    && op.account.Some? && |op.conns| >= 2
    && Lookup(files, op.conns[1], op.call.wallet) == op.account
  }

  ghost predicate AccountInv(s: State) {
    forall i :: i in s.ops && PassedCheck(s.ops[i]) ==> StillFound(s.sh.files, s.ops[i])
  }

  /** Only a delete or rename of a wallet, which holds its maintenance lock, changes what its name
      means in a database. */
  lemma FilesEffect(sh: Shared, op: Op, ch: Choice, path: Path, w: Wallet)
    requires Shaped(op) && CanStep(sh, op) && Lookup(sh.files, path, w).Some?
    ensures Lookup(NextFiles(sh, op, ch), path, w) == Lookup(sh.files, path, w)
            || (op.call.Change? && HoldsMaint(op) && w == op.call.wallet)
  {
  }

  lemma CheckEffect(sh: Shared, i: CallId, op: Op, ch: Choice)
    requires Shaped(op) && ConnsShaped(op) && CanStep(sh, op) && (PassedCheck(op) ==> StillFound(sh.files, op))
    ensures PassedCheck(NextOp(sh, i, op, ch)) ==> StillFound(NextFiles(sh, op, ch), NextOp(sh, i, op, ch))
    ensures PassedCheck(op) ==> HoldsMaint(op)
  {
  }

  lemma OtherAccountKept(s: State, i: CallId, ch: Choice, j: CallId)
    requires AllShaped(s) && Locks.Inv(s) && Enabled(s, Advance(i, ch))
    requires j in s.ops && j != i && PassedCheck(s.ops[j]) && StillFound(s.sh.files, s.ops[j])
    ensures StillFound(NextFiles(s.sh, s.ops[i], ch), s.ops[j])
  {
    FilesEffect(s.sh, s.ops[i], ch, s.ops[j].conns[1], s.ops[j].call.wallet);
    assert HoldsMaint(s.ops[j]);
  }

  lemma AccountStep(s: State, i: CallId, ch: Choice)
    requires AllShaped(s) && ConnsInv(s) && Locks.Inv(s) && AccountInv(s) && Enabled(s, Advance(i, ch))
    ensures AccountInv(Apply(s, Advance(i, ch)))
  {
    var after := Apply(s, Advance(i, ch));
    CheckEffect(s.sh, i, s.ops[i], ch);
    hide NextOp, NextFiles, Shaped, CanStep;
    forall j | j in after.ops && PassedCheck(after.ops[j])
      ensures StillFound(after.sh.files, after.ops[j])
    {
      if j != i {
        OtherAccountKept(s, i, ch, j);
      }
    }
  }
}
