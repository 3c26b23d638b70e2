/** No cyclic wait: every chain of waiting calls ends at one that can step. */
module WaitGraph {
  import opened Types
  import opened Protocol
  import opened Shape
  import Locks
  import Slots

  /** Which kind of wait a call is in. */
  function Level(op: Op): nat {
    match op.pc
    case MaintWait | Ready => 3
    case Queued | GateWait | AwaitStop(_) => 2
    case AwaitPrevious(_) => 1
    case _ => 0
  }

  function Turn(op: Op): nat {
    if op.turn.Some? then op.turn.value else 0
  }

  ghost predicate Waits(s: State, i: CallId, j: CallId) {
    i in s.ops && WaitsFor(s.sh, s.ops[i]) == Some(j)
  }

  ghost predicate RanksBelow(a: Op, b: Op) {
    Level(a) < Level(b) || (Level(a) == Level(b) && Turn(a) < Turn(b))
  }

  /** The call has taken its first step and not its last. */
  predicate Underway(op: Op) {
    !op.pc.Entry? && !op.pc.Done?
  }

  lemma HolderRank(op: Op)
    requires Shaped(op)
    ensures HoldsGate(op) ==> Level(op) == 0 && Underway(op) && !InBody(op)
    ensures HoldsMaint(op) ==> Level(op) <= 2 && Underway(op) && !InBody(op)
    ensures op.turn.Some? ==> Level(op) <= 1 && !op.pc.Entry?
  {
  }

  lemma LockEdge(s: State, i: CallId, j: CallId)
    requires AllShaped(s) && Locks.Inv(s) && Waits(s, i, j)
    requires Level(s.ops[i]) == 3 || s.ops[i].pc.Queued? || s.ops[i].pc.GateWait?
    ensures j in s.ops && Underway(s.ops[j]) && RanksBelow(s.ops[j], s.ops[i]) && !InBody(s.ops[j])
  {
    HolderRank(s.ops[j]);
  }

  lemma StopEdge(s: State, i: CallId, j: CallId)
    requires AllShaped(s) && Slots.WaitInv(s) && Slots.StoppedInv(s) && Slots.AwaitStopInv(s) && Waits(s, i, j)
    requires s.ops[i].pc.AwaitStop? || s.ops[i].pc.AwaitPrevious?
    ensures j in s.ops && Underway(s.ops[j]) && RanksBelow(s.ops[j], s.ops[i]) && j in s.sh.scans.cancelled
  {
    if s.ops[i].pc.AwaitPrevious? {
      assert Slots.Awaits(s.ops[i]) == Some(j);
    }
    HolderRank(s.ops[j]);
  }

  /** A wait is always for a call in flight of lower rank, and never for a scan that runs on
      uncancelled. */
  lemma EdgeDescends(s: State, i: CallId, j: CallId)
    requires AllShaped(s) && Locks.Inv(s) && Slots.Inv(s) && Waits(s, i, j)
    ensures j in s.ops && Underway(s.ops[j])
    ensures RanksBelow(s.ops[j], s.ops[i])
    ensures InBody(s.ops[j]) ==> j in s.sh.scans.cancelled
  {
    if s.ops[i].pc.AwaitStop? || s.ops[i].pc.AwaitPrevious? {
      StopEdge(s, i, j);
    } else {
      LockEdge(s, i, j);
    }
  }

  /** Follows the waits from `i` to a call that does not wait. */
  ghost function ChainEnd(s: State, i: CallId): (e: CallId)
    requires AllShaped(s) && Locks.Inv(s) && Slots.Inv(s) && i in s.ops && !s.ops[i].pc.Done?
    ensures e in s.ops && !s.ops[e].pc.Done? && WaitsFor(s.sh, s.ops[e]).None?
    ensures e != i ==> InBody(s.ops[e]) ==> e in s.sh.scans.cancelled
    ensures e != i ==> RanksBelow(s.ops[e], s.ops[i]) && Underway(s.ops[e])
    ensures e != i ==> WaitsFor(s.sh, s.ops[i]).Some?
    decreases Level(s.ops[i]), Turn(s.ops[i])
  {
    match WaitsFor(s.sh, s.ops[i])
    case None => i
    case Some(j) =>
      EdgeDescends(s, i, j);
      ChainEnd(s, j)
  }

  /** Consecutive calls on a path wait for each other. */
  ghost predicate WaitPath(s: State, path: seq<CallId>) {
    && |path| > 0
    && (forall k :: 0 <= k < |path| ==> path[k] in s.ops)
    && (forall k :: 0 <= k < |path| - 1 ==> Waits(s, path[k], path[k + 1]))
  }

  lemma {:induction false} PathDescends(s: State, path: seq<CallId>)
    requires AllShaped(s) && Locks.Inv(s) && Slots.Inv(s)
    requires WaitPath(s, path) && |path| > 1
    ensures RanksBelow(s.ops[path[|path| - 1]], s.ops[path[0]])
    decreases |path|
  {
    EdgeDescends(s, path[0], path[1]);
    if |path| > 2 {
      var rest := path[1..];
      assert forall k :: 0 <= k < |rest| ==> rest[k] == path[k + 1];
      PathDescends(s, rest);
    }
  }
}
