/** `Superseded` is truthful, and a Background start never cuts off a Foreground scan. */
module Supersession {
  import opened Types
  import opened Protocol
  import opened Shape
  import T = ScanTable
  import Slots

  /** A later start of the same wallet took the slot from scan `r`, by the priority rules. */
  ghost predicate ReplacedBy(s: State, r: CallId, q: CallId) {
    && r in s.ops && q in s.ops && s.ops[r].call.Scan? && s.ops[q].call.Scan?
    && s.ops[r].call.wallet == s.ops[q].call.wallet
    && Slots.TurnedBefore(s.ops[r], s.ops[q])
    && r in s.sh.scans.cancelled
    && (s.ops[r].call.priority == T.Foreground ==> s.ops[q].call.priority == T.Foreground)
  }

  ghost predicate FlagsInv(s: State) {
    && (forall r :: r in s.sh.scans.superseded <==> r in s.sh.replacedBy)
    && (forall r :: r in s.sh.replacedBy ==> ReplacedBy(s, r, s.sh.replacedBy[r]))
  }

  /** How the scan's stream ends, once that is decided. */
  function EndingOf(op: Op): Option<Ending> {
    match op.pc
    case Leaving(ending) => Some(ending)
    case Unclaim(ending) => Some(ending)
    case Finish(ending) => Some(ending)
    case Sent(ending) => Some(ending)
    case Dismissed(ending) => Some(ending)
    case Done(Streamed(ending)) => Some(ending)
    case _ => None
  }

  ghost predicate EndingInv(s: State) {
    forall i :: i in s.ops && EndingOf(s.ops[i]) == Some(Superseded) ==> i in s.sh.scans.superseded
  }

  ghost predicate Inv(s: State) {
    FlagsInv(s) && EndingInv(s)
  }

  predicate Cuts(sh: Shared, op: Op, r: CallId) {
    && op.call.wallet in sh.scans.running
    && sh.scans.running[op.call.wallet].run == r
    && op.call.Scan?
    && (sh.scans.running[op.call.wallet].priority == T.Foreground && r !in sh.scans.stopped ==>
          op.call.priority == T.Foreground)
  }

  predicate Effect(sh: Shared, i: CallId, op: Op, sh': Shared, op': Op) {
    && (EndingOf(op') == Some(Superseded) ==> EndingOf(op) == Some(Superseded) || i in sh.scans.superseded)
    && match CutOff(sh, i, op)
       case None => sh'.replacedBy == sh.replacedBy && sh'.scans.superseded == sh.scans.superseded
       case Some(r) =>
         && Slots.Takes(sh, i, op, sh', op')
         && sh'.replacedBy == sh.replacedBy[r := i] && sh'.scans.superseded == sh.scans.superseded + {r}
         && Cuts(sh, op, r)
  }

  lemma StepEffect(sh: Shared, i: CallId, op: Op, ch: Choice)
    requires Shaped(op) && CanStep(sh, op)
    ensures Effect(sh, i, op, NextShared(sh, i, op, ch), NextOp(sh, i, op, ch))
  {
    if op.pc.AtSlot? {
      Slots.SlotEffect(sh, i, op, ch);
    } else {
      QuietEffect(sh, i, op, ch);
    }
  }

  lemma QuietEffect(sh: Shared, i: CallId, op: Op, ch: Choice)
    requires Shaped(op) && CanStep(sh, op) && !op.pc.AtSlot?
    ensures Effect(sh, i, op, NextShared(sh, i, op, ch), NextOp(sh, i, op, ch))
  {
    if !op.call.Scan? {
      NoEnding(sh, i, op, ch);
    }
  }

  /** Only scans end a stream. */
  lemma NoEnding(sh: Shared, i: CallId, op: Op, ch: Choice)
    requires Shaped(op) && CanStep(sh, op) && !op.call.Scan?
    ensures EndingOf(NextOp(sh, i, op, ch)) != Some(Superseded)
    ensures NextScans(sh, i, op, ch).superseded == sh.scans.superseded
  {
  }

  lemma ReplacedByKept(s: State, i: CallId, sh': Shared, op': Op, r: CallId, q: CallId)
    requires i in s.ops && Slots.Move(s.sh, i, s.ops[i], sh', op')
    requires ReplacedBy(s, r, q)
    ensures ReplacedBy(Slots.Moved(s, i, sh', op'), r, q)
  {
  }

  /** The occupant a start replaces has not stopped, so the priority rule was applied to it. */
  lemma NewlyReplaced(s: State, i: CallId, sh': Shared, op': Op, r: CallId)
    requires i in s.ops && op'.call == s.ops[i].call
    requires Slots.Takes(s.sh, i, s.ops[i], sh', op') && Cuts(s.sh, s.ops[i], r)
    requires r in s.ops && s.ops[r].turn.Some?
    requires Slots.TurnsInv(s) && Slots.OccupantInv(s) && Slots.StoppedInv(s)
    ensures ReplacedBy(Slots.Moved(s, i, sh', op'), r, i)
  {
  }

  lemma FlagsKept(s: State, i: CallId, sh': Shared, op': Op)
    requires i in s.ops && Slots.Move(s.sh, i, s.ops[i], sh', op') && Effect(s.sh, i, s.ops[i], sh', op')
    requires AllShaped(s) && Slots.TurnsInv(s) && Slots.OccupantInv(s) && Slots.StoppedInv(s) && FlagsInv(s)
    ensures FlagsInv(Slots.Moved(s, i, sh', op'))
  {
    var after := Slots.Moved(s, i, sh', op');
    if CutOff(s.sh, i, s.ops[i]).Some? {
      var r := CutOff(s.sh, i, s.ops[i]).value;
      Slots.OccupantTurned(s, s.ops[i].call.wallet);
      NewlyReplaced(s, i, sh', op', r);
    }
    forall r | r in sh'.replacedBy
      ensures ReplacedBy(after, r, sh'.replacedBy[r])
    {
      if CutOff(s.sh, i, s.ops[i]) != Some(r) {
        ReplacedByKept(s, i, sh', op', r, s.sh.replacedBy[r]);
      }
    }
  }

  lemma EndingKept(s: State, i: CallId, sh': Shared, op': Op)
    requires i in s.ops && Effect(s.sh, i, s.ops[i], sh', op') && EndingInv(s)
    ensures EndingInv(Slots.Moved(s, i, sh', op'))
  {
  }
}
