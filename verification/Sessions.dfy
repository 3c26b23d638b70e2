/** Counts, generations and key sessions under every interleaving. */
module Sessions {
  import opened Types
  import opened Protocol
  import opened Shape
  import D = Database
  import Locks

  // ----- DB_STATE -----

  /** Every unlock knows a generation already drawn; while it is counted the path is its own. */
  ghost predicate GenInv(s: State) {
    forall i :: i in s.ops && s.ops[i].gen.Some? ==>
                  && s.ops[i].gen.value < s.sh.db.nextGeneration
                  && (StillCounted(s.sh, s.ops[i]) && s.ops[i].call.Unlock? ==>
                        s.sh.db.path == Some(s.ops[i].call.path))
  }

  lemma DbStep(sh: Shared, op: Op, ch: Choice)
    requires Shaped(op) && CanStep(sh, op) && D.Inv(sh.db)
    ensures D.Moves(sh.db, NextDb(sh, op, ch), op.call.wallet)
  {
    var w := op.call.wallet;
    D.ReleaseOneMoves(sh.db, w);
    D.EvictMoves(sh.db, w);
    if op.pc.Entry? && op.call.Unlock? {
      D.EnterUnlockMoves(sh.db, w, op.call.path, ch.ok);
    }
  }

  /** A generation once gone from its wallet's entry never comes back to it. */
  lemma StillCountedBefore(sh: Shared, op: Op, ch: Choice, other: Op)
    requires Shaped(op) && CanStep(sh, op) && D.Inv(sh.db)
    requires other.gen.Some? && other.gen.value < sh.db.nextGeneration
    requires other.gen.Some? && D.CountedAs(NextDb(sh, op, ch), other.call.wallet, other.gen.value)
    ensures StillCounted(sh, other)
  {
    DbStep(sh, op, ch);
    assert Get(NextDb(sh, op, ch).sessions, other.call.wallet) == Some(NextDb(sh, op, ch).sessions[other.call.wallet]);
    if other.call.wallet != op.call.wallet {
      assert Get(sh.db.sessions, other.call.wallet).Some?;
    }
  }

  lemma GenStep(s: State, i: CallId, ch: Choice)
    requires AllShaped(s) && D.Inv(s.sh.db) && GenInv(s)
    requires Enabled(s, Advance(i, ch))
    ensures GenInv(Apply(s, Advance(i, ch)))
  {
    var op := s.ops[i];
    var after := Apply(s, Advance(i, ch));
    DbStep(s.sh, op, ch);
    if op.pc.Entry? && op.call.Unlock? {
      D.EnterUnlockCounts(s.sh.db, op.call.wallet, op.call.path, ch.ok);
    }
    forall j | j in after.ops && after.ops[j].gen.Some?
      ensures after.ops[j].gen.value < after.sh.db.nextGeneration
      ensures StillCounted(after.sh, after.ops[j]) && after.ops[j].call.Unlock? ==>
                after.sh.db.path == Some(after.ops[j].call.path)
    {
      if j in s.ops && s.ops[j].gen == after.ops[j].gen && StillCounted(after.sh, after.ops[j]) {
        StillCountedBefore(s.sh, op, ch, s.ops[j]);
      }
    }
  }

  // ----- live holders -----

  /** The unlock has passed its last check, so it returns (or has returned) `Ok`. */
  predicate Opens(op: Op) {
    op.pc == GateDrop(Opened) || op.pc == Done(UnlockOk)
  }

  predicate KeysOrLost(sh: Shared, w: Wallet) {
    w in sh.keys || w in sh.lost
  }

  /** A holder still counted under its own generation has its key session. */
  ghost predicate HoldersLive(s: State) {
    forall i :: i in s.ops && Opens(s.ops[i]) && StillCounted(s.sh, s.ops[i]) ==>
                  KeysOrLost(s.sh, s.ops[i].call.wallet)
  }

  ghost predicate ConfirmsLive(s: State) {
    forall i :: i in s.ops && s.ops[i].pc.Confirm? ==> KeysOrLost(s.sh, s.ops[i].call.wallet)
  }

  /** A call about to wipe a key session spares every counted holder, also those that counted
      since it looked. */
  ghost predicate LocksSpareHolders(s: State) {
    forall i, j :: i in s.ops && j in s.ops && s.ops[i].pc.LockKeys? && Opens(s.ops[j])
                   && s.ops[i].call.wallet == s.ops[j].call.wallet ==>
                     !StillCounted(s.sh, s.ops[j])
  }

  /** An unlock about to make a key session finds none: nobody else makes one under its gate. */
  ghost predicate MakersFindNone(s: State) {
    forall i :: i in s.ops && s.ops[i].pc.KeyUnlock? ==> s.ops[i].call.wallet !in s.sh.keys
  }

  ghost predicate LiveInv(s: State) {
    HoldersLive(s) && ConfirmsLive(s) && LocksSpareHolders(s) && MakersFindNone(s)
  }

  /** Only the gate-held lock takes key sessions away, and only its own wallet's. */
  lemma KeysEffect(sh: Shared, i: CallId, op: Op, ch: Choice, w: Wallet)
    requires KeysOrLost(sh, w) && !(op.pc.LockKeys? && op.call.wallet == w)
    ensures KeysOrLost(NextShared(sh, i, op, ch), w)
  {
  }

  lemma OpensEffect(sh: Shared, i: CallId, op: Op, ch: Choice)
    requires Shaped(op) && CanStep(sh, op)
    ensures var after := NextOp(sh, i, op, ch);
            && after.call == op.call
            && (Opens(after) ==> after.gen == op.gen && (Opens(op) || (op.pc.Confirm? && StillCounted(sh, op))))
            && (after.pc.Confirm? ==> KeysOrLost(NextShared(sh, i, op, ch), op.call.wallet))
            && (after.pc.LockKeys? ==> op.pc.LockCheck? && op.call.wallet !in sh.db.sessions)
  {
    if op.call.Unlock? {
      UnlockOpens(sh, i, op, ch);
    } else {
      OtherNeverOpens(sh, i, op, ch);
    }
    hide NextPc, NextShared, Shaped;
  }

  lemma UnlockOpens(sh: Shared, i: CallId, op: Op, ch: Choice)
    requires Shaped(op) && CanStep(sh, op) && op.call.Unlock?
    ensures var after := NextOp(sh, i, op, ch);
            && (Opens(after) ==> after.gen == op.gen && (Opens(op) || (op.pc.Confirm? && StillCounted(sh, op))))
            && (after.pc.Confirm? ==> KeysOrLost(NextShared(sh, i, op, ch), op.call.wallet))
            && (after.pc.LockKeys? ==> op.pc.LockCheck? && op.call.wallet !in sh.db.sessions)
  {
  }

  lemma OtherNeverOpens(sh: Shared, i: CallId, op: Op, ch: Choice)
    requires Shaped(op) && CanStep(sh, op) && !op.call.Unlock?
    ensures var after := NextOp(sh, i, op, ch);
            && !Opens(after) && !after.pc.Confirm?
            && (after.pc.LockKeys? ==> op.pc.LockCheck? && op.call.wallet !in sh.db.sessions)
  {
  }

  lemma SameGate(s: State, i: CallId, j: CallId)
    requires Locks.Inv(s) && i in s.ops && j in s.ops
    requires HoldsGate(s.ops[i]) && HoldsGate(s.ops[j]) && s.ops[i].call.wallet == s.ops[j].call.wallet
    ensures i == j
  {
  }

  lemma MakeEffect(sh: Shared, i: CallId, op: Op, ch: Choice, w: Wallet)
    requires Shaped(op) && CanStep(sh, op)
    ensures w in NextKeys(sh, op, ch) && w !in sh.keys ==> op.pc.KeyUnlock? && w == op.call.wallet
    ensures NextOp(sh, i, op, ch).pc.KeyUnlock? ==> op.call.wallet !in NextKeys(sh, op, ch)
  {
  }

  lemma MakersFindNoneStep(s: State, i: CallId, ch: Choice)
    requires AllShaped(s) && Locks.Inv(s) && MakersFindNone(s)
    requires Enabled(s, Advance(i, ch))
    ensures MakersFindNone(Apply(s, Advance(i, ch)))
  {
    var after := Apply(s, Advance(i, ch));
    forall j | j in after.ops && after.ops[j].pc.KeyUnlock?
      ensures after.ops[j].call.wallet !in after.sh.keys
    {
      MakeEffect(s.sh, i, s.ops[i], ch, s.ops[j].call.wallet);
      if j != i && s.ops[j].call.wallet in after.sh.keys {
        SameGate(s, i, j);
      }
    }
  }

  lemma HoldersLiveStep(s: State, i: CallId, ch: Choice)
    requires AllShaped(s) && D.Inv(s.sh.db) && GenInv(s) && LiveInv(s)
    requires Enabled(s, Advance(i, ch))
    ensures HoldersLive(Apply(s, Advance(i, ch)))
  {
    hide NextDb, NextOp, Shaped, CanStep;
    var op := s.ops[i];
    var after := Apply(s, Advance(i, ch));
    OpensEffect(s.sh, i, op, ch);
    forall j | j in after.ops && Opens(after.ops[j]) && StillCounted(after.sh, after.ops[j])
      ensures KeysOrLost(after.sh, after.ops[j].call.wallet)
    {
      StillCountedBefore(s.sh, op, ch, s.ops[j]);
      KeysEffect(s.sh, i, op, ch, s.ops[j].call.wallet);
    }
  }

  lemma ConfirmsLiveStep(s: State, i: CallId, ch: Choice)
    requires AllShaped(s) && Locks.Inv(s) && ConfirmsLive(s)
    requires Enabled(s, Advance(i, ch))
    ensures ConfirmsLive(Apply(s, Advance(i, ch)))
  {
    hide NextDb, NextOp, Shaped, CanStep;
    var op := s.ops[i];
    var after := Apply(s, Advance(i, ch));
    OpensEffect(s.sh, i, op, ch);
    forall j | j in after.ops && after.ops[j].pc.Confirm?
      ensures KeysOrLost(after.sh, after.ops[j].call.wallet)
    {
      if j != i {
        if op.pc.LockKeys? && op.call.wallet == s.ops[j].call.wallet {
          SameGate(s, i, j);
        }
        KeysEffect(s.sh, i, op, ch, s.ops[j].call.wallet);
      }
    }
  }

  /** A holder stays spared by the call `j` about to wipe the key session. */
  lemma HolderSpared(s: State, i: CallId, ch: Choice, j: CallId, k: CallId)
    requires AllShaped(s) && D.Inv(s.sh.db) && GenInv(s) && Locks.Inv(s) && LocksSpareHolders(s)
    requires Enabled(s, Advance(i, ch)) && j in s.ops && k in s.ops
    requires s.ops[j].call.wallet == s.ops[k].call.wallet
    requires var after := Apply(s, Advance(i, ch));
             after.ops[j].pc.LockKeys? && Opens(after.ops[k])
    ensures var after := Apply(s, Advance(i, ch));
            !StillCounted(after.sh, after.ops[k])
  {
    hide NextDb, NextOp, Shaped, CanStep;
    var op := s.ops[i];
    var after := Apply(s, Advance(i, ch));
    OpensEffect(s.sh, i, op, ch);
    if StillCounted(after.sh, after.ops[k]) {
      StillCountedBefore(s.sh, op, ch, s.ops[k]);
      if j != i && k == i && !Opens(op) {
        SameGate(s, i, j);
      }
    }
  }

  lemma LocksSpareHoldersStep(s: State, i: CallId, ch: Choice)
    requires AllShaped(s) && D.Inv(s.sh.db) && GenInv(s) && Locks.Inv(s) && LocksSpareHolders(s)
    requires Enabled(s, Advance(i, ch))
    ensures LocksSpareHolders(Apply(s, Advance(i, ch)))
  {
    var after := Apply(s, Advance(i, ch));
    forall j, k | j in after.ops && k in after.ops && after.ops[j].pc.LockKeys? && Opens(after.ops[k])
                  && after.ops[j].call.wallet == after.ops[k].call.wallet
      ensures !StillCounted(after.sh, after.ops[k])
    {
      HolderSpared(s, i, ch, j, k);
    }
  }

  // ----- orphaned key sessions -----

  /** The call has yet to reach the gate-held lock step of its wallet. */
  predicate OwesLock(op: Op) {
    op.pc.GateWait? || op.pc.LockCheck? || op.pc.LockKeys? || op.pc.Confirm?
  }

  ghost predicate SomeoneOwes(s: State, w: Wallet) {
    exists i :: i in s.ops && OwesLock(s.ops[i]) && s.ops[i].call.wallet == w
  }

  ghost predicate OrphanInv(s: State) {
    forall w :: w in s.sh.keys ==> w in s.sh.db.sessions || SomeoneOwes(s, w)
  }

  /** Who owes the wallet a lock after the step, if its key session has no count then. */
  predicate OwedAfter(sh: Shared, i: CallId, op: Op, ch: Choice) {
    var w := op.call.wallet;
    var after := NextShared(sh, i, op, ch);
    w in after.keys ==>
      || OwesLock(NextOp(sh, i, op, ch))
      || w in after.db.sessions
      || (w in sh.keys && w !in sh.db.sessions && !OwesLock(op))
  }

  lemma OrphanEffect(sh: Shared, i: CallId, op: Op, ch: Choice)
    requires Shaped(op) && CanStep(sh, op) && D.Inv(sh.db)
    ensures OwedAfter(sh, i, op, ch)
  {
    if op.call.Unlock? && op.pc.Entry? {
      EntryOrphanEffect(sh, i, op, ch);
    } else if op.call.Unlock? {
      UnlockOrphanEffect(sh, i, op, ch);
    } else {
      OtherOrphanEffect(sh, i, op, ch);
    }
    hide NextShared, NextOp, Shaped;
  }

  lemma EntryOrphanEffect(sh: Shared, i: CallId, op: Op, ch: Choice)
    requires Shaped(op) && CanStep(sh, op) && D.Inv(sh.db) && op.call.Unlock? && op.pc.Entry?
    ensures OwedAfter(sh, i, op, ch)
  {
    D.EnterUnlockCounts(sh.db, op.call.wallet, op.call.path, ch.ok);
    hide D.EnterUnlock, NextPc, NextScans;
  }

  lemma UnlockOrphanEffect(sh: Shared, i: CallId, op: Op, ch: Choice)
    requires Shaped(op) && CanStep(sh, op) && D.Inv(sh.db) && op.call.Unlock? && !op.pc.Entry?
    ensures OwedAfter(sh, i, op, ch)
  {
    hide NextGates, NextMaint, NextScans, NextFiles, NextReplacedBy, NextLedger;
    D.ReleaseOneKeeps(sh.db, op.call.wallet);
  }

  lemma OtherOrphanEffect(sh: Shared, i: CallId, op: Op, ch: Choice)
    requires Shaped(op) && CanStep(sh, op) && D.Inv(sh.db) && !op.call.Unlock?
    ensures OwedAfter(sh, i, op, ch)
  {
    D.ReleaseOneKeeps(sh.db, op.call.wallet);
  }

  lemma OrphanStep(s: State, i: CallId, ch: Choice)
    requires AllShaped(s) && D.Inv(s.sh.db) && OrphanInv(s)
    requires Enabled(s, Advance(i, ch))
    ensures OrphanInv(Apply(s, Advance(i, ch)))
  {
    var op := s.ops[i];
    var after := Apply(s, Advance(i, ch));
    DbStep(s.sh, op, ch);
    OrphanEffect(s.sh, i, op, ch);
    assert OwedAfter(s.sh, i, op, ch);
    forall w | w in after.sh.keys && w !in after.sh.db.sessions
      ensures SomeoneOwes(after, w)
    {
      if w == op.call.wallet && OwesLock(after.ops[i]) {
      } else {
        assert Get(after.sh.db.sessions, w) == None;
        var k :| k in s.ops && OwesLock(s.ops[k]) && s.ops[k].call.wallet == w;
        assert k != i;
        assert after.ops[k] == s.ops[k];
      }
    }
  }
}
