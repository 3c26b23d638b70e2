/** What scans and their handles leave on record: the key session a scan saw, the handle a call made,
    and who is behind each entry of `starting`. */
module ScanRecords {
  import opened Types
  import opened Protocol
  import opened Shape
  import Handles

  // ----- key sessions -----

  /** A scan that may take a slot, or took one, saw a key session of its wallet. */
  predicate SawKeys(op: Op) {
    && (op.turn.Some? || op.pc.Ready? || op.pc.AtSlot? ==> op.epoch.Some?)
    && (op.pc.Entry? || op.pc.Claimed? || op.pc.PathKnown? || op.pc.Connected? ==> op.epoch.None?)
  }

  ghost predicate SeenInv(s: State) {
    forall i :: i in s.ops ==> SawKeys(s.ops[i])
  }

  lemma SeenEffect(sh: Shared, i: CallId, op: Op, ch: Choice)
    requires Shaped(op) && CanStep(sh, op) && SawKeys(op)
    ensures SawKeys(NextOp(sh, i, op, ch))
  {
  }

  // ----- handles -----

  /** The call has drawn the handle, and may have returned it. */
  predicate Names(op: Op, id: nat) {
    op.call.Create? && (op.pc == IssueId(id) || op.pc == Done(Issued(id)))
  }

  ghost predicate NamesInv(s: State) {
    && (forall i, id: nat {:trigger Names(s.ops[i], id)} :: i in s.ops && Names(s.ops[i], id) ==> id < s.sh.nextHandle)
    && (forall i, j, id: nat :: i in s.ops && j in s.ops && Names(s.ops[i], id) && Names(s.ops[j], id) ==> i == j)
  }

  lemma NamesEffect(sh: Shared, i: CallId, op: Op, ch: Choice, id: nat)
    requires Shaped(op) && CanStep(sh, op)
    ensures var after := NextShared(sh, i, op, ch).nextHandle;
            && sh.nextHandle <= after
            && (Names(NextOp(sh, i, op, ch), id) ==> Names(op, id) || (id == sh.nextHandle && id < after))
  {
  }

  lemma NamesStep(s: State, i: CallId, ch: Choice)
    requires AllShaped(s) && NamesInv(s) && Enabled(s, Advance(i, ch))
    ensures NamesInv(Apply(s, Advance(i, ch)))
  {
    hide NextOp, NextScans, Shaped, CanStep;
    var t := Apply(s, Advance(i, ch));
    forall j, id: nat {:trigger Names(t.ops[j], id)} | j in t.ops && Names(t.ops[j], id)
      ensures id < t.sh.nextHandle
      ensures j == i || Names(s.ops[j], id)
      ensures j == i ==> Names(s.ops[i], id) || id == s.sh.nextHandle
    {
      NamesEffect(s.sh, i, s.ops[i], ch, id);
    }
    forall j, k, id: nat {:trigger Names(t.ops[j], id), Names(t.ops[k], id)}
      | j in t.ops && k in t.ops && Names(t.ops[j], id) && Names(t.ops[k], id)
      ensures j == k
    {
      assert j == i || Names(s.ops[j], id);
      assert k == i || Names(s.ops[k], id);
    }
  }

  // ----- starting -----

  /** The scan is between its claim and its slot step, or about to clean up after them. */
  predicate Starts(op: Op, id: nat) {
    && op.call.Scan? && op.call.id == id
    && (op.pc.Claimed? || op.pc.PathKnown? || op.pc.Connected? || op.pc.Ready? || op.pc.AtSlot? || op.pc.Unclaim?)
  }

  ghost predicate Started(s: State, id: nat) {
    exists i :: i in s.ops && Starts(s.ops[i], id)
  }

  ghost predicate StartedInv(s: State) {
    forall id :: id in s.sh.scans.starting ==> Started(s, id)
  }

  lemma StartsEffect(sh: Shared, i: CallId, op: Op, ch: Choice, id: nat)
    requires Shaped(op) && CanStep(sh, op) && id in NextScans(sh, i, op, ch).starting
    ensures Starts(NextOp(sh, i, op, ch), id) || (id in sh.scans.starting && !Starts(op, id))
  {
  }

  lemma StartedStep(s: State, i: CallId, ch: Choice)
    requires AllShaped(s) && StartedInv(s) && Enabled(s, Advance(i, ch))
    ensures StartedInv(Apply(s, Advance(i, ch)))
  {
    hide NextOp, NextScans, Shaped, CanStep, Starts;
    var t := Apply(s, Advance(i, ch));
    forall id | id in t.sh.scans.starting ensures Started(t, id) {
      StartsEffect(s.sh, i, s.ops[i], ch, id);
      if !Starts(t.ops[i], id) {
        var k :| k in s.ops && Starts(s.ops[k], id);
        assert t.ops[k] == s.ops[k];
      }
    }
  }

  // ----- all of it -----

  ghost predicate Inv(s: State) {
    SeenInv(s) && NamesInv(s) && StartedInv(s)
  }

  lemma Step(s: State, i: CallId, ch: Choice)
    requires AllShaped(s) && Inv(s) && Enabled(s, Advance(i, ch))
    ensures Inv(Apply(s, Advance(i, ch)))
  {
    SeenEffect(s.sh, i, s.ops[i], ch);
    NamesStep(s, i, ch);
    StartedStep(s, i, ch);
    hide NextOp, NextShared, NamesInv, StartedInv, SawKeys;
  }

  /** Calls that arrive and steps of the environment leave the records alone. */
  lemma Same(s: State, after: State)
    requires Inv(s) && after.sh.nextHandle == s.sh.nextHandle && after.sh.scans.starting == s.sh.scans.starting
    requires forall i :: i in s.ops ==> i in after.ops && after.ops[i] == s.ops[i]
    requires forall i :: i in after.ops && i !in s.ops ==> after.ops[i] == NewOp(after.ops[i].call)
    ensures Inv(after)
  {
    forall j, id: nat {:trigger Names(after.ops[j], id)} | j in after.ops && Names(after.ops[j], id)
      ensures j in s.ops && Names(s.ops[j], id) && id < s.sh.nextHandle
    {
      assert j in s.ops && Names(s.ops[j], id);
    }
    forall id | id in after.sh.scans.starting ensures Started(after, id) {
      var k :| k in s.ops && Starts(s.ops[k], id);
      assert Starts(after.ops[k], id);
    }
  }
}
