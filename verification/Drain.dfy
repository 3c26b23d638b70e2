/** Every call can finish: steps are bounded, and while a call is in flight some call can step. */
module Drain {
  import opened Types
  import opened Protocol
  import opened Shape
  import D = Database
  import Counting
  import Locks
  import Sessions
  import Slots
  import Invariant
  import WaitGraph

  /** A bound on the steps a call still takes. */
  function Remaining(op: Op): nat {
    var again := if op.call.Change? && op.round.First? then 12 else 0;
    match op.pc
    case Done(_) => 0
    case MaintDrop | MaintAbort | Sent(_) | IssueId(_) => again + 1
    case Write | Finish(_) => again + 2
    case WriteOpen | Unclaim(_) => again + 3
    case AwaitStop(_) | Leaving(_) | Dismissed(_) => again + 4
    case StopScans | Scanning => again + 5
    case GateDrop(_) | InSlot => again + 6
    case CancelScans | AwaitPrevious(_) => again + 7
    case LockKeys | Placed(_) => again + 8
    case LockCheck | AtSlot => again + 9
    case GateWait | Ready => again + 10
    case Evict | MaintCheck | Connected => again + 11
    case MaintOpen | PathKnown => again + 12
    case MaintWait | Claimed => again + 13
    case PassCheck => again + 14
    case Confirm | GiveBack => 16
    case KeyUnlock => 17
    case Reprobe => 18
    case Verify => 19
    case Probe => 20
    case Queued => 21
    case Entry => 40
  }

  lemma ScanSpends(sh: Shared, i: CallId, op: Op, ch: Choice)
    requires Shaped(op) && CanStep(sh, op) && op.call.Scan?
    ensures Remaining(NextOp(sh, i, op, ch)) < Remaining(op)
  {
  }

  lemma ChangeSpends(sh: Shared, i: CallId, op: Op, ch: Choice)
    requires Shaped(op) && CanStep(sh, op) && op.call.Change?
    ensures Remaining(NextOp(sh, i, op, ch)) < Remaining(op)
  {
  }

  lemma MainsSpends(sh: Shared, i: CallId, op: Op, ch: Choice)
    requires Shaped(op) && CanStep(sh, op) && Mains(op.call) && !op.call.Change?
    ensures Remaining(NextOp(sh, i, op, ch)) < Remaining(op)
  {
  }

  lemma OtherSpends(sh: Shared, i: CallId, op: Op, ch: Choice)
    requires Shaped(op) && CanStep(sh, op) && !op.call.Scan? && !Mains(op.call)
    ensures Remaining(NextOp(sh, i, op, ch)) < Remaining(op)
  {
  }

  lemma StepSpends(sh: Shared, i: CallId, op: Op, ch: Choice)
    requires Shaped(op) && CanStep(sh, op)
    ensures Remaining(NextOp(sh, i, op, ch)) < Remaining(op)
    ensures !NextOp(sh, i, op, ch).pc.Entry?
  {
    if op.call.Scan? {
      ScanSpends(sh, i, op, ch);
    } else if op.call.Change? {
      ChangeSpends(sh, i, op, ch);
    } else if Mains(op.call) {
      MainsSpends(sh, i, op, ch);
    } else {
      OtherSpends(sh, i, op, ch);
    }
  }

  ghost function Total(ops: map<CallId, Op>): nat
    decreases |ops|
  {
    if ops == map[] then 0
    else
      var i :| i in ops;
      Remaining(ops[i]) + Total(ops - {i})
  }

  lemma {:induction false} TotalWithout(ops: map<CallId, Op>, i: CallId)
    requires i in ops
    ensures Total(ops) == Remaining(ops[i]) + Total(ops - {i})
    decreases |ops|
  {
    var k :| k in ops && Total(ops) == Remaining(ops[k]) + Total(ops - {k});
    if k != i {
      TotalWithout(ops - {k}, i);
      TotalWithout(ops - {i}, k);
      assert ops - {k} - {i} == ops - {i} - {k};
    }
  }

  lemma TotalUpdate(ops: map<CallId, Op>, i: CallId, op: Op)
    requires i in ops && Remaining(op) < Remaining(ops[i])
    ensures Total(ops[i := op]) < Total(ops)
  {
    TotalWithout(ops, i);
    TotalWithout(ops[i := op], i);
    assert ops[i := op] - {i} == ops - {i};
  }

  ghost predicate Idle(s: State) {
    forall i :: i in s.ops ==> s.ops[i].pc.Done?
  }

  /** Every call is at its end, but for unlocks that have yet to count (they may find the counters
      exhausted). */
  ghost predicate Settled(s: State) {
    forall i :: i in s.ops ==> s.ops[i].pc.Done? || (s.ops[i].pc.Entry? && s.ops[i].call.Unlock?)
  }

  /** While a call is in flight, some call can step. */
  lemma SomeoneCanStep(s: State) returns (e: CallId)
    requires AllShaped(s) && Locks.Inv(s) && Slots.Inv(s) && !Settled(s)
    ensures e in s.ops && CanStep(s.sh, s.ops[e])
  {
    var i :| i in s.ops && !s.ops[i].pc.Done? && !(s.ops[i].pc.Entry? && s.ops[i].call.Unlock?);
    e := WaitGraph.ChainEnd(s, i);
  }

  /** Each step of a call brings the end nearer. */
  lemma AdvanceSpends(s: State, i: CallId, ch: Choice)
    requires AllShaped(s) && i in s.ops && CanStep(s.sh, s.ops[i])
    ensures Total(s.ops[i := NextOp(s.sh, i, s.ops[i], ch)]) < Total(s.ops)
  {
    StepSpends(s.sh, i, s.ops[i], ch);
    TotalUpdate(s.ops, i, NextOp(s.sh, i, s.ops[i], ch));
  }

  // ----- unlocks that have yet to count -----

  predicate YetToCount(op: Op) {
    op.pc.Entry? && op.call.Unlock?
  }

  function Uncounted(ops: map<CallId, Op>): set<CallId> {
    set i | i in ops && YetToCount(ops[i])
  }

  /** The counters have room for every unlock that has yet to count. */
  predicate Room(s: State) {
    var n := |Uncounted(s.ops)|;
    && s.sh.db.nextGeneration + n < D.GENERATIONS && n <= D.MAX_COUNT
    && forall w :: w in s.sh.db.sessions ==> s.sh.db.sessions[w].count + n <= D.MAX_COUNT
  }

  lemma OtherCountsFall(sh: Shared, op: Op, ch: Choice)
    requires Shaped(op) && CanStep(sh, op) && D.Inv(sh.db) && !YetToCount(op)
    ensures var db := NextDb(sh, op, ch);
            && db.nextGeneration == sh.db.nextGeneration
            && forall w :: w in db.sessions ==> w in sh.db.sessions && db.sessions[w].count <= sh.db.sessions[w].count
  {
    NoNewGeneration(sh, op, ch);
    hide NextDb, Shaped;
    Sessions.DbStep(sh, op, ch);
    Counting.CountEffect(sh, op, ch);
    forall w | w in NextDb(sh, op, ch).sessions && w != op.call.wallet
      ensures Get(NextDb(sh, op, ch).sessions, w) == Get(sh.db.sessions, w)
    {
    }
  }

  lemma NoNewGeneration(sh: Shared, op: Op, ch: Choice)
    requires D.Inv(sh.db) && !YetToCount(op)
    ensures NextDb(sh, op, ch).nextGeneration == sh.db.nextGeneration
  {
  }

  lemma UnlockCountsOne(sh: Shared, op: Op, ch: Choice)
    requires Shaped(op) && CanStep(sh, op) && D.Inv(sh.db) && YetToCount(op)
    ensures var db := NextDb(sh, op, ch);
            && db.nextGeneration <= sh.db.nextGeneration + 1
            && forall w :: w in db.sessions ==>
                 db.sessions[w].count <= (if w in sh.db.sessions then sh.db.sessions[w].count else 0) + 1
  {
    D.EnterUnlockCounts(sh.db, op.call.wallet, op.call.path, ch.ok);
    forall w | w in NextDb(sh, op, ch).sessions && w != op.call.wallet
      ensures Get(NextDb(sh, op, ch).sessions, w) == Get(sh.db.sessions, w)
    {
    }
  }

  lemma UncountedMoves(ops: map<CallId, Op>, i: CallId, op: Op)
    requires i in ops && !YetToCount(op)
    ensures Uncounted(ops[i := op]) == Uncounted(ops) - {i}
    ensures |Uncounted(ops[i := op])| == |Uncounted(ops)| - (if YetToCount(ops[i]) then 1 else 0)
  {
    assert Uncounted(ops[i := op]) == Uncounted(ops) - {i};
    if !YetToCount(ops[i]) {
      assert Uncounted(ops) - {i} == Uncounted(ops);
    }
  }

  lemma RoomKept(s: State, i: CallId, ch: Choice)
    requires AllShaped(s) && D.Inv(s.sh.db) && Room(s) && Enabled(s, Advance(i, ch))
    ensures Room(Apply(s, Advance(i, ch)))
  {
    StepSpends(s.sh, i, s.ops[i], ch);
    UncountedMoves(s.ops, i, NextOp(s.sh, i, s.ops[i], ch));
    if YetToCount(s.ops[i]) {
      UnlockCountsOne(s.sh, s.ops[i], ch);
    } else {
      OtherCountsFall(s.sh, s.ops[i], ch);
    }
  }

  /** With room, such an unlock can count. */
  lemma CanCount(s: State, i: CallId)
    requires Room(s) && i in s.ops && YetToCount(s.ops[i])
    ensures CanStep(s.sh, s.ops[i])
  {
    assert i in Uncounted(s.ops);
    assert |Uncounted(s.ops)| > 0;
  }

  /** Nothing is left to do: all calls are at their ends, or only unlocks that have no room to count
      are not. */
  ghost predicate Drained(s: State) {
    Settled(s) && (Room(s) ==> Idle(s))
  }

  lemma NextToStep(s: State) returns (i: CallId)
    requires AllShaped(s) && Locks.Inv(s) && Slots.Inv(s) && !Drained(s)
    ensures i in s.ops && CanStep(s.sh, s.ops[i])
  {
    if !Settled(s) {
      i := SomeoneCanStep(s);
    } else {
      i :| i in s.ops && !s.ops[i].pc.Done?;
      CanCount(s, i);
    }
  }

  /** While something is left to do, some step is possible that brings the end nearer. */
  lemma NearerStep(s: State) returns (a: Action)
    requires Invariant.Inv(s) && !Drained(s)
    ensures Enabled(s, a)
    ensures Invariant.Inv(Apply(s, a)) && Total(Apply(s, a).ops) < Total(s.ops) && (Room(s) ==> Room(Apply(s, a)))
  {
    var i := NextToStep(s);
    a := Advance(i, Choice(true, Completed, None));
    AdvanceSpends(s, i, a.choice);
    if Room(s) {
      RoomKept(s, i, a.choice);
    }
    Invariant.ApplyInv(s, a);
  }

  /** From every state of every run the calls in flight can be driven to their ends. */
  lemma {:induction false} CanDrain(s: State) returns (acts: seq<Action>)
    requires Invariant.Inv(s)
    ensures Legal(s, acts) && Settled(After(s, acts)) && (Room(s) ==> Idle(After(s, acts)))
    decreases Total(s.ops)
  {
    hide Invariant.Inv;
    if Drained(s) {
      acts := [];
    } else {
      var a := NearerStep(s);
      var rest := CanDrain(Apply(s, a));
      acts := [a] + rest;
      assert acts[1..] == rest;
    }
  }

  predicate NoArrivals(acts: seq<Action>) {
    forall k :: 0 <= k < |acts| ==> !acts[k].Begin?
  }

  /** How many of the actions are steps of calls. */
  function Steps(acts: seq<Action>): nat {
    if acts == [] then 0 else (if acts[0].Advance? then 1 else 0) + Steps(acts[1..])
  }

  lemma ActionSpends(s: State, a: Action)
    requires AllShaped(s) && Enabled(s, a) && !a.Begin?
    ensures Total(Apply(s, a).ops) + (if a.Advance? then 1 else 0) <= Total(s.ops)
  {
    if a.Advance? {
      AdvanceSpends(s, a.i, a.choice);
    }
  }

  /** Until another call arrives, the calls in flight take no more steps than `Total` says. */
  lemma {:induction false} StepsAreBounded(s: State, acts: seq<Action>)
    requires Invariant.Inv(s) && Legal(s, acts) && NoArrivals(acts)
    ensures Steps(acts) + Total(After(s, acts).ops) <= Total(s.ops)
    decreases |acts|
  {
    if acts == [] {
    } else {
      assert NoArrivals(acts[1..]) by {
        assert forall k :: 0 <= k < |acts[1..]| ==> acts[1..][k] == acts[k + 1];
      }
      assert !acts[0].Begin?;
      ActionSpends(s, acts[0]);
      Invariant.ApplyInv(s, acts[0]);
      StepsAreBounded(Apply(s, acts[0]), acts[1..]);
    }
  }
}
