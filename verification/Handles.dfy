/** The life cycle of scan handles. */
module Handles {
  import opened Types
  import opened Protocol
  import opened Shape
  import T = ScanTable

  predicate AtStation(t: T.Table, id: nat) {
    id in t.issued || id in t.stoppedBeforeStart || id in t.starting
  }

  /** No handle is at two stations, and every handle at one was drawn from the counter. */
  ghost predicate StationsInv(t: T.Table, nextHandle: nat) {
    && t.issued !! t.stoppedBeforeStart
    && t.issued !! t.starting.Keys
    && t.stoppedBeforeStart !! t.starting.Keys
    && (forall id: nat :: AtStation(t, id) ==> id < nextHandle)
  }

  predicate Draws(op: Op, id: nat) {
    op.pc == IssueId(id)
  }

  predicate ClaimedAs(op: Op, id: nat) {
    op.call.Scan? && op.call.id == id && op.claimed
  }

  /** A handle drawn but not yet recorded as issued is nowhere else. */
  ghost predicate DrawnNowhere(s: State) {
    forall i, id: nat {:trigger Draws(s.ops[i], id)} :: i in s.ops && Draws(s.ops[i], id) ==>
      id < s.sh.nextHandle && !AtStation(s.sh.scans, id)
  }

  ghost predicate DrawnOnce(s: State) {
    forall i, j, id: nat :: i in s.ops && j in s.ops && Draws(s.ops[i], id) && Draws(s.ops[j], id) ==>
                              i == j
  }

  /** A claimed handle can never be issued again. */
  ghost predicate ClaimedGone(s: State) {
    forall i, id: nat {:trigger ClaimedAs(s.ops[i], id)} :: i in s.ops && ClaimedAs(s.ops[i], id) ==>
                           && id < s.sh.nextHandle
                           && id !in s.sh.scans.issued
                           && id !in s.sh.scans.stoppedBeforeStart
  }

  ghost predicate ClaimedNotDrawn(s: State) {
    forall i, j, id: nat :: i in s.ops && j in s.ops && ClaimedAs(s.ops[i], id) ==> !Draws(s.ops[j], id)
  }

  /** Each handle starts at most one scan. */
  ghost predicate ClaimedOnce(s: State) {
    forall i, j, id: nat :: i in s.ops && j in s.ops && ClaimedAs(s.ops[i], id) && ClaimedAs(s.ops[j], id) ==>
                              i == j
  }

  ghost predicate StartingInv(s: State) {
    forall i, id: nat {:trigger ClaimedAs(s.ops[i], id)} :: i in s.ops && ClaimedAs(s.ops[i], id) && id in s.sh.scans.starting ==>
                      s.sh.scans.starting[id] == s.ops[i].call.wallet && s.ops[i].turn.None?
  }

  ghost predicate Inv(s: State) {
    && StationsInv(s.sh.scans, s.sh.nextHandle)
    && DrawnNowhere(s) && DrawnOnce(s) && StartingInv(s)
    && ClaimedGone(s) && ClaimedNotDrawn(s) && ClaimedOnce(s)
  }

  /** A step brings a handle to a station only by recording the one it drew. */
  lemma StationEffect(sh: Shared, i: CallId, op: Op, ch: Choice, id: nat)
    requires Shaped(op) && CanStep(sh, op)
    ensures var t := NextScans(sh, i, op, ch);
            && (AtStation(t, id) ==> AtStation(sh.scans, id) || Draws(op, id))
            && (id in t.issued ==> id in sh.scans.issued || Draws(op, id))
            && (id in t.stoppedBeforeStart ==> id in sh.scans.stoppedBeforeStart || id in sh.scans.issued)
            && (id in t.starting ==>
                  || (id in sh.scans.starting && t.starting[id] == sh.scans.starting[id])
                  || (Claims(sh, op, ch) && id == op.call.id && t.starting[id] == op.call.wallet))
  {
  }

  lemma StationsStep(sh: Shared, i: CallId, op: Op, ch: Choice)
    requires Shaped(op) && CanStep(sh, op)
    requires StationsInv(sh.scans, sh.nextHandle)
    requires forall id: nat :: Draws(op, id) ==> id < sh.nextHandle && !AtStation(sh.scans, id)
    ensures var after := NextShared(sh, i, op, ch);
            StationsInv(after.scans, after.nextHandle) && sh.nextHandle <= after.nextHandle
  {
    var after := NextShared(sh, i, op, ch);
    if op.pc.IssueId? {
      assert Draws(op, op.pc.id);
    }
    forall id: nat | AtStation(after.scans, id)
      ensures id < after.nextHandle
    {
      StationEffect(sh, i, op, ch, id);
    }
  }

  lemma OpEffect(sh: Shared, i: CallId, op: Op, ch: Choice, id: nat)
    requires Shaped(op) && CanStep(sh, op)
    ensures var after := NextOp(sh, i, op, ch);
            var t := NextScans(sh, i, op, ch);
            && (Draws(after, id) ==>
                  id == sh.nextHandle && NextShared(sh, i, op, ch).nextHandle == sh.nextHandle + 1
                  && op.pc.Entry? && t == sh.scans)
            && (ClaimedAs(op, id) ==> ClaimedAs(after, id))
            && (ClaimedAs(after, id) && !ClaimedAs(op, id) ==>
                  id in sh.scans.issued && id !in t.issued && id !in t.stoppedBeforeStart
                  && (id in t.starting ==> t.starting[id] == op.call.wallet)
                  && after.turn.None? && Claims(sh, op, ch))
            && (after.turn != op.turn ==> op.call.Scan? && op.call.id !in t.starting)
            && (Claims(sh, op, ch) ==> ClaimedAs(after, op.call.id) && op.call.id in sh.scans.issued)
  {
    if !op.call.Scan? {
      OtherOpEffect(sh, i, op, ch, id);
    }
  }

  lemma OtherOpEffect(sh: Shared, i: CallId, op: Op, ch: Choice, id: nat)
    requires Shaped(op) && CanStep(sh, op) && !op.call.Scan?
    ensures var after := NextOp(sh, i, op, ch);
            && (Draws(after, id) ==>
                  id == sh.nextHandle && NextShared(sh, i, op, ch).nextHandle == sh.nextHandle + 1
                  && op.pc.Entry? && NextScans(sh, i, op, ch) == sh.scans)
            && !ClaimedAs(op, id) && !ClaimedAs(after, id) && !Claims(sh, op, ch) && after.turn == op.turn
  {
    hide NextDb, NextKeys, NextGates, NextMaint, NextFiles, NextReplacedBy, NextLedger,
         NextGen, NextAccount, NextConns, NextEpochSeen;
  }

  lemma StationsKept(s: State, i: CallId, ch: Choice)
    requires AllShaped(s) && StationsInv(s.sh.scans, s.sh.nextHandle) && DrawnNowhere(s)
    requires Enabled(s, Advance(i, ch))
    ensures var after := NextShared(s.sh, i, s.ops[i], ch);
            StationsInv(after.scans, after.nextHandle) && s.sh.nextHandle <= after.nextHandle
  {
    StationsStep(s.sh, i, s.ops[i], ch);
  }

  lemma DrawnNowhereStep(s: State, i: CallId, ch: Choice)
    requires AllShaped(s) && StationsInv(s.sh.scans, s.sh.nextHandle) && DrawnNowhere(s) && DrawnOnce(s)
    requires Enabled(s, Advance(i, ch))
    ensures DrawnNowhere(Apply(s, Advance(i, ch)))
  {
    hide NextScans, Shaped, CanStep;
    var op := s.ops[i];
    var after := Apply(s, Advance(i, ch));
    StationsKept(s, i, ch);
    forall j, id: nat | j in after.ops && Draws(after.ops[j], id)
      ensures id < after.sh.nextHandle && !AtStation(after.sh.scans, id)
    {
      StationEffect(s.sh, i, op, ch, id);
      OpEffect(s.sh, i, op, ch, id);
    }
  }

  lemma DrawnOnceStep(s: State, i: CallId, ch: Choice)
    requires AllShaped(s) && DrawnNowhere(s) && DrawnOnce(s)
    requires Enabled(s, Advance(i, ch))
    ensures DrawnOnce(Apply(s, Advance(i, ch)))
  {
    hide NextScans, Shaped, CanStep;
    var op := s.ops[i];
    var after := Apply(s, Advance(i, ch));
    forall j, k, id: nat | j in after.ops && k in after.ops && Draws(after.ops[j], id) && Draws(after.ops[k], id)
      ensures j == k
    {
      OpEffect(s.sh, i, op, ch, id);
    }
  }

  lemma ClaimedGoneFor(s: State, i: CallId, ch: Choice, j: CallId, id: nat)
    requires AllShaped(s) && Inv(s) && Enabled(s, Advance(i, ch))
    requires j in s.ops && ClaimedAs(Apply(s, Advance(i, ch)).ops[j], id)
    ensures id < s.sh.nextHandle
    ensures var t := NextScans(s.sh, i, s.ops[i], ch);
            id !in t.issued && id !in t.stoppedBeforeStart
  {
    StationEffect(s.sh, i, s.ops[i], ch, id);
    OpEffect(s.sh, i, s.ops[i], ch, id);
    if ClaimedAs(s.ops[j], id) {
      assert !Draws(s.ops[i], id);
    } else {
      assert AtStation(s.sh.scans, id);
    }
  }

  lemma ClaimedGoneStep(s: State, i: CallId, ch: Choice)
    requires AllShaped(s) && Inv(s) && Enabled(s, Advance(i, ch))
    ensures ClaimedGone(Apply(s, Advance(i, ch)))
  {
    var after := Apply(s, Advance(i, ch));
    StationsKept(s, i, ch);
    forall j, id: nat {:trigger ClaimedAs(after.ops[j], id)} | j in after.ops && ClaimedAs(after.ops[j], id)
      ensures id < after.sh.nextHandle && id !in after.sh.scans.issued && id !in after.sh.scans.stoppedBeforeStart
    {
      ClaimedGoneFor(s, i, ch, j, id);
    }
  }

  lemma ClaimedNotDrawnStep(s: State, i: CallId, ch: Choice)
    requires AllShaped(s) && Inv(s) && Enabled(s, Advance(i, ch))
    ensures ClaimedNotDrawn(Apply(s, Advance(i, ch)))
  {
    hide NextScans, Shaped, CanStep;
    var op := s.ops[i];
    var after := Apply(s, Advance(i, ch));
    forall j, k, id: nat | j in after.ops && k in after.ops && ClaimedAs(after.ops[j], id)
      ensures !Draws(after.ops[k], id)
    {
      OpEffect(s.sh, i, op, ch, id);
      if id in s.sh.scans.issued {
        assert AtStation(s.sh.scans, id);
      }
    }
  }

  lemma ClaimedOnceStep(s: State, i: CallId, ch: Choice)
    requires AllShaped(s) && Inv(s) && Enabled(s, Advance(i, ch))
    ensures ClaimedOnce(Apply(s, Advance(i, ch)))
  {
    hide NextScans, Shaped, CanStep;
    var op := s.ops[i];
    var after := Apply(s, Advance(i, ch));
    forall j, k, id: nat | j in after.ops && k in after.ops && ClaimedAs(after.ops[j], id) && ClaimedAs(after.ops[k], id)
      ensures j == k
    {
      OpEffect(s.sh, i, op, ch, id);
    }
  }

  lemma StartingStep(s: State, i: CallId, ch: Choice)
    requires AllShaped(s) && Inv(s) && Enabled(s, Advance(i, ch))
    ensures StartingInv(Apply(s, Advance(i, ch)))
  {
    hide NextScans, Shaped, CanStep;
    var op := s.ops[i];
    var after := Apply(s, Advance(i, ch));
    forall j, id: nat | j in after.ops && ClaimedAs(after.ops[j], id) && id in after.sh.scans.starting
      ensures after.sh.scans.starting[id] == after.ops[j].call.wallet && after.ops[j].turn.None?
    {
      StationEffect(s.sh, i, op, ch, id);
      OpEffect(s.sh, i, op, ch, id);
    }
  }
}
