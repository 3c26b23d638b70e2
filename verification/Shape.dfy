/** Which program points each call can be at, and what a call holds there. */
module Shape {
  import opened Types
  import opened Protocol

  predicate HoldsGate(op: Op) {
    match op.pc
    case Probe | Verify | Reprobe | KeyUnlock | Confirm | GiveBack => true
    case LockCheck | LockKeys | CancelScans | GateDrop(_) => true
    case _ => false
  }

  predicate HoldsMaint(op: Op) {
    match op.call
    case Change(_) | Passphrase(_) | Abandon(_) => !op.pc.Entry? && !op.pc.PassCheck? && !op.pc.MaintWait? && !op.pc.Done?
    case Scan(_, _, _) => op.pc.AtSlot? || op.pc.Placed? || op.pc.Dismissed?
    case _ => false
  }

  /** The scan has taken its wallet's slot and has not left it. */
  predicate Active(op: Op) {
    op.pc.Placed? || op.pc.AwaitPrevious? || op.pc.InSlot? || op.pc.Scanning? || op.pc.Leaving?
  }

  /** Inside `scan_in_slot`. */
  predicate InBody(op: Op) {
    op.pc.InSlot? || op.pc.Scanning?
  }

  /** Before its slot step. */
  predicate PreSlot(op: Op) {
    op.pc.Claimed? || op.pc.PathKnown? || op.pc.Connected? || op.pc.Ready? || op.pc.AtSlot?
  }

  predicate Mains(call: Call) {
    call.Change? || call.Passphrase? || call.Abandon?
  }

  predicate Evicts(call: Call) {
    call.Lock? || call.ForceLock? || call.Change?
  }

  /** What a call's own variables say about it. */
  predicate LocalsShaped(op: Op) {
    && (op.gen.Some? ==> op.call.Unlock? && !op.pc.Entry?)
    && (op.turn.Some? ==> op.call.Scan? && op.claimed && !PreSlot(op) && !op.pc.Entry? && !op.pc.Dismissed?)
    && (op.epoch.Some? ==> op.call.Scan? && op.claimed)
    && (op.claimed ==> op.call.Scan? && !op.pc.Entry?)
    && (op.call.Abandon? && !op.pc.Entry? && !op.pc.PassCheck? && !op.pc.Done? ==> op.account.Some?)
    && (op.pc.Entry? || op.pc.PassCheck? ==> op.account.None?)
    && (op.pc.Entry? || op.pc.PassCheck? || op.pc.MaintWait? || op.pc.MaintOpen? || op.pc.MaintCheck? || op.pc.MaintAbort? ==> op.round.First?)
    && (op.pc.Write? && op.call.Change? ==> op.round.First?)
    && (op.call.Change? && (op.pc.MaintDrop? || op.pc == Done(Returned)) ==> op.round.Second?)
    && (op.wrote ==> Mains(op.call) && (op.pc.MaintDrop? || op.pc == Done(Returned) || (op.call.Change? && op.round.Second?)))
    && (Mains(op.call) && op.pc.Done? ==> (op.pc == Done(Returned) <==> op.wrote))
  }

  /** Which calls can be at a program point. */
  predicate PcShaped(op: Op) {
    match op.pc
    case Entry => true
    case Queued | Probe | Verify | Reprobe | KeyUnlock | Confirm | GiveBack => op.call.Unlock? && op.gen.Some?
    case GateWait => Evicts(op.call)
    case LockCheck | LockKeys | CancelScans => Evicts(op.call) || op.call.Unlock?
    case GateDrop(verdict) =>
      && (Evicts(op.call) || op.call.Unlock?)
      && (verdict.Opened? ==> op.call.Unlock? && op.gen.Some?)
    case StopScans => Evicts(op.call) || Mains(op.call)
    case AwaitStop(_) => Evicts(op.call) || Mains(op.call) || op.call.Stop?
    case PassCheck | WriteOpen => op.call.Passphrase? || op.call.Abandon?
    case MaintWait => Mains(op.call)
    case MaintCheck => op.call.Abandon?
    case MaintOpen | MaintAbort => op.call.Change? || op.call.Abandon?
    case Evict => op.call.Change?
    case Write | MaintDrop => Mains(op.call)
    case IssueId(_) => op.call.Create?
    case Claimed | PathKnown | Connected => op.call.Scan? && op.claimed
    case Ready | AtSlot | Dismissed(_) => op.call.Scan? && op.claimed
    case Placed(_) | AwaitPrevious(_) | InSlot | Scanning | Leaving(_) =>
      op.call.Scan? && op.claimed && op.turn.Some?
    case Unclaim(_) => op.call.Scan? && op.claimed
    case Finish(_) | Sent(_) => op.call.Scan?
    case Done(outcome) => OutcomeShaped(op.call, outcome) && (outcome.UnlockOk? ==> op.gen.Some?)
  }

  /** What a call can return. */
  predicate OutcomeShaped(call: Call, outcome: Outcome) {
    match call
    case Unlock(_, _) => outcome.UnlockOk? || outcome.Refused?
    case Lock(_) => outcome.Locked?
    case ForceLock(_) | Stop(_, _) => outcome.Returned?
    case Change(_) | Passphrase(_) | Abandon(_) => outcome.Returned? || outcome.Refused?
    case Create(_) => outcome.Issued?
    case Scan(_, _, _) => outcome.Streamed?
  }

  predicate Shaped(op: Op) {
    LocalsShaped(op) && PcShaped(op)
  }

  ghost predicate AllShaped(s: State) {
    forall i :: i in s.ops ==> Shaped(s.ops[i])
  }

  lemma LocalsStep(sh: Shared, i: CallId, op: Op, ch: Choice)
    requires Shaped(op) && !op.pc.Done?
    ensures LocalsShaped(NextOp(sh, i, op, ch))
  {
    if op.call.Scan? {
      ScanLocalsStep(sh, i, op, ch);
    } else {
      OtherLocalsStep(sh, i, op, ch);
    }
    hide NextOp, LocalsShaped, PcShaped;
  }

  lemma ScanLocalsStep(sh: Shared, i: CallId, op: Op, ch: Choice)
    requires Shaped(op) && !op.pc.Done? && op.call.Scan?
    ensures LocalsShaped(NextOp(sh, i, op, ch))
  {
    hide NextConns;
  }

  lemma OtherLocalsStep(sh: Shared, i: CallId, op: Op, ch: Choice)
    requires Shaped(op) && !op.pc.Done? && !op.call.Scan?
    ensures LocalsShaped(NextOp(sh, i, op, ch))
  {
    hide NextConns, Slot;
  }

  lemma EntryPcStep(sh: Shared, i: CallId, op: Op, ch: Choice)
    requires Shaped(op) && op.pc.Entry?
    ensures PcShaped(NextOp(sh, i, op, ch))
  {
    hide NextAccount, NextConns, NextEpochSeen;
  }

  lemma ScanPcStep(sh: Shared, i: CallId, op: Op, ch: Choice)
    requires Shaped(op) && !op.pc.Entry? && (op.call.Scan? || op.call.Create?)
    ensures PcShaped(NextOp(sh, i, op, ch))
  {
    hide NextAccount, NextConns, NextEpochSeen;
  }

  lemma MainsPcStep(sh: Shared, i: CallId, op: Op, ch: Choice)
    requires Shaped(op) && !op.pc.Entry? && Mains(op.call)
    ensures PcShaped(NextOp(sh, i, op, ch))
  {
    hide NextAccount, NextConns, NextEpochSeen;
  }

  lemma OtherPcStep(sh: Shared, i: CallId, op: Op, ch: Choice)
    requires Shaped(op) && !op.pc.Entry? && !op.call.Scan? && !op.call.Create? && !Mains(op.call)
    ensures PcShaped(NextOp(sh, i, op, ch))
  {
    hide NextAccount, NextConns, NextEpochSeen;
  }

  lemma StepShaped(s: State, i: CallId, ch: Choice)
    requires AllShaped(s) && Enabled(s, Advance(i, ch))
    ensures AllShaped(Apply(s, Advance(i, ch)))
  {
    LocalsStep(s.sh, i, s.ops[i], ch);
    if s.ops[i].pc.Entry? {
      EntryPcStep(s.sh, i, s.ops[i], ch);
    } else if s.ops[i].call.Scan? || s.ops[i].call.Create? {
      ScanPcStep(s.sh, i, s.ops[i], ch);
    } else if Mains(s.ops[i].call) {
      MainsPcStep(s.sh, i, s.ops[i], ch);
    } else {
      OtherPcStep(s.sh, i, s.ops[i], ch);
    }
  }
}
