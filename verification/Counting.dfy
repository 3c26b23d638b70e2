/** Conservation of open counts: what the `u32` in a wallet's entry is made of. */
module Counting {
  import opened Types
  import opened Protocol
  import opened Shape
  import D = Database
  import Sessions

  function Outstanding(l: Ledger): int {
    |l.acquired| - |l.givenBack| - |l.locks|
  }

  /** The unlock failed and has released what it counted, if that was still its own. */
  predicate GaveBack(op: Op) {
    && op.gen.Some?
    && (op.pc.LockCheck? || op.pc.LockKeys? || op.pc.CancelScans?
        || op.pc == GateDrop(Kept) || op.pc == GateDrop(Wiped) || op.pc == Done(Refused))
  }

  ghost predicate CountsMatch(s: State) {
    forall w :: w in s.sh.db.sessions ==>
                  var session := s.sh.db.sessions[w];
                  session.generation in s.sh.ledger
                  && session.count == Outstanding(s.sh.ledger[session.generation])
  }

  ghost predicate GensKnown(s: State) {
    && (forall g :: g in s.sh.ledger ==> g < s.sh.db.nextGeneration)
    && (forall i :: i in s.ops && s.ops[i].gen.Some? ==> s.ops[i].gen.value in s.sh.ledger)
  }

  /** The ledger's unlocks of a generation are exactly the unlocks that counted in it. */
  ghost predicate AcquiredMatch(s: State) {
    forall g, i :: g in s.sh.ledger ==>
                     (i in s.sh.ledger[g].acquired <==> i in s.ops && s.ops[i].gen == Some(g))
  }

  /** A failed unlock gives back at most the one count it took, in the generation it took it in. */
  ghost predicate GivenBackMatch(s: State) {
    forall g, i :: g in s.sh.ledger && i in s.sh.ledger[g].givenBack ==>
                     i in s.ops && s.ops[i].gen == Some(g) && GaveBack(s.ops[i])
  }

  ghost predicate LocksMatch(s: State) {
    forall g, i :: g in s.sh.ledger && i in s.sh.ledger[g].locks ==>
                     i in s.ops && s.ops[i].call.Lock? && !s.ops[i].pc.Entry?
  }

  /** All unlocks that counted in a wallet's generation are unlocks of that wallet. */
  ghost predicate GenOwner(s: State) {
    forall i, w :: i in s.ops && w in s.sh.db.sessions && s.ops[i].gen == Some(s.sh.db.sessions[w].generation) ==>
                     s.ops[i].call.wallet == w
  }

  /** The locks recorded in a wallet's generation are locks of that wallet. */
  ghost predicate LocksOwn(s: State) {
    forall w, i :: w in s.sh.db.sessions && LockedIn(s.sh.ledger, s.sh.db.sessions[w].generation, i) ==>
                     i in s.ops && s.ops[i].call == Lock(w)
  }

  predicate LockedIn(ledger: map<nat, Ledger>, g: nat, i: CallId) {
    g in ledger && i in ledger[g].locks
  }

  /** A failed unlock whose generation is still counted has its release recorded. */
  ghost predicate GivenBackKnown(s: State) {
    forall i :: i in s.ops && GaveBack(s.ops[i]) && StillCounted(s.sh, s.ops[i]) ==>
                  GivenBackIn(s.sh.ledger, s.ops[i].gen.value, i)
  }

  predicate GivenBackIn(ledger: map<nat, Ledger>, g: nat, i: CallId) {
    g in ledger && i in ledger[g].givenBack
  }

  ghost predicate Inv(s: State) {
    && CountsMatch(s) && GensKnown(s) && AcquiredMatch(s) && GivenBackMatch(s) && LocksMatch(s)
    && GenOwner(s) && LocksOwn(s) && GivenBackKnown(s)
  }

  lemma OpEffect(sh: Shared, i: CallId, op: Op, ch: Choice)
    requires Shaped(op) && CanStep(sh, op)
    ensures var after := NextOp(sh, i, op, ch);
            && (GaveBack(op) ==> GaveBack(after))
            && (op.pc.GiveBack? ==> GaveBack(after))
            && !(after.pc.Entry?)
            && after.call == op.call
            && (op.pc.Entry? && op.call.Unlock? ==> after.gen == NextGen(sh, op, ch))
            && (op.gen.Some? ==> after.gen == op.gen)
            && (after.gen != op.gen ==> op.pc.Entry? && op.call.Unlock?)
  {
  }

  /** Which ledger a step writes. */
  function Written(sh: Shared, op: Op, ch: Choice): Option<nat> {
    if op.pc.Entry? && op.call.Unlock? then NextGen(sh, op, ch)
    else if op.pc.Entry? && op.call.Lock? && op.call.wallet in sh.db.sessions
    then Some(sh.db.sessions[op.call.wallet].generation)
    else if op.pc.GiveBack? && StillCounted(sh, op) then op.gen
    else None
  }

  /** What it writes there. */
  predicate Writes(sh: Shared, i: CallId, op: Op, was: Ledger, becomes: Ledger) {
    if op.call.Unlock? && op.pc.Entry? then becomes == was.(acquired := was.acquired + {i})
    else if op.call.Lock? then becomes == was.(locks := was.locks + {i})
    else becomes == was.(givenBack := was.givenBack + {i})
  }

  lemma LedgerEffect(sh: Shared, i: CallId, op: Op, ch: Choice)
    requires Shaped(op) && CanStep(sh, op)
    ensures match Written(sh, op, ch)
            case None => NextLedger(sh, i, op, ch) == sh.ledger
            case Some(g) =>
              && g in NextLedger(sh, i, op, ch)
              && Writes(sh, i, op, LedgerOf(sh, g), NextLedger(sh, i, op, ch)[g])
              && NextLedger(sh, i, op, ch) == sh.ledger[g := NextLedger(sh, i, op, ch)[g]]
  {
  }

  /** The entry of `w` goes from what it is in `db` to what it is in `after`: an unlock counts one
      more in `g`, a lock or failed unlock takes one off in `g`. */
  predicate Counted(db: D.Db, after: D.Db, w: Wallet, g: nat, more: bool) {
    if !more then
      && D.CountedAs(db, w, g)
      && (w in after.sessions ==> D.CountedAs(after, w, g) && after.sessions[w].count + 1 == db.sessions[w].count)
    else if w in db.sessions then
      g == db.sessions[w].generation
      && after.sessions == db.sessions[w := D.Session(db.sessions[w].count + 1, g)]
    else
      g == db.nextGeneration && after.sessions == db.sessions[w := D.Session(1, g)]
  }

  lemma UnlockCounts(sh: Shared, op: Op, ch: Choice)
    requires op.pc.Entry? && op.call.Unlock? && D.Headroom(sh.db, op.call.wallet) && D.Inv(sh.db)
    ensures match NextGen(sh, op, ch)
            case None => NextDb(sh, op, ch) == sh.db
            case Some(g) => Counted(sh.db, NextDb(sh, op, ch), op.call.wallet, g, true)
  {
    D.EnterUnlockCounts(sh.db, op.call.wallet, op.call.path, ch.ok);
  }

  lemma ReleaseCounts(sh: Shared, op: Op, ch: Choice)
    requires Shaped(op) && D.Inv(sh.db) && !(op.pc.Entry? && op.call.Unlock?)
    ensures var w, db := op.call.wallet, NextDb(sh, op, ch);
            match Written(sh, op, ch)
            case None => w in db.sessions ==> w in sh.db.sessions && db.sessions[w] == sh.db.sessions[w]
            case Some(g) => Counted(sh.db, db, w, g, false)
  {
    D.ReleaseOneKeeps(sh.db, op.call.wallet);
  }

  /** A step that writes the ledger of `g` moves its wallet's count by one, in `g`; any other step
      leaves a count alone or removes the entry. */
  lemma CountEffect(sh: Shared, op: Op, ch: Choice)
    requires Shaped(op) && CanStep(sh, op) && D.Inv(sh.db)
    ensures var w, db := op.call.wallet, NextDb(sh, op, ch);
            match Written(sh, op, ch)
            case None => w in db.sessions ==> w in sh.db.sessions && db.sessions[w] == sh.db.sessions[w]
            case Some(g) => Counted(sh.db, db, w, g, op.call.Unlock? && op.pc.Entry?)
  {
    if op.pc.Entry? && op.call.Unlock? {
      UnlockCounts(sh, op, ch);
    } else {
      ReleaseCounts(sh, op, ch);
    }
  }

  lemma OutstandingMoves(s: State, i: CallId, ch: Choice)
    requires AllShaped(s) && D.Inv(s.sh.db) && Inv(s) && Enabled(s, Advance(i, ch))
    requires Written(s.sh, s.ops[i], ch).Some?
    ensures var g := Written(s.sh, s.ops[i], ch).value;
            var op := s.ops[i];
            var after := NextLedger(s.sh, i, op, ch);
            g in after && Outstanding(after[g]) ==
              Outstanding(LedgerOf(s.sh, g)) + (if op.call.Unlock? && op.pc.Entry? then 1 else -1)
  {
    var op := s.ops[i];
    LedgerEffect(s.sh, i, op, ch);
  }

  lemma OwnCount(s: State, i: CallId, ch: Choice)
    requires AllShaped(s) && D.Inv(s.sh.db) && Inv(s) && Enabled(s, Advance(i, ch))
    requires s.ops[i].call.wallet in NextDb(s.sh, s.ops[i], ch).sessions
    ensures var session := NextDb(s.sh, s.ops[i], ch).sessions[s.ops[i].call.wallet];
            var ledger := NextLedger(s.sh, i, s.ops[i], ch);
            session.generation in ledger && session.count == Outstanding(ledger[session.generation])
  {
    LedgerEffect(s.sh, i, s.ops[i], ch);
    CountEffect(s.sh, s.ops[i], ch);
    if Written(s.sh, s.ops[i], ch).Some? {
      OutstandingMoves(s, i, ch);
    }
  }

  lemma CountsStep(s: State, i: CallId, ch: Choice)
    requires AllShaped(s) && D.Inv(s.sh.db) && Inv(s)
    requires Enabled(s, Advance(i, ch))
    ensures CountsMatch(Apply(s, Advance(i, ch)))
  {
    var op := s.ops[i];
    var db, ledger := NextDb(s.sh, op, ch), NextLedger(s.sh, i, op, ch);
    Sessions.DbStep(s.sh, op, ch);
    forall v | v in db.sessions
      ensures db.sessions[v].generation in ledger
              && db.sessions[v].count == Outstanding(ledger[db.sessions[v].generation])
    {
      if v == op.call.wallet {
        OwnCount(s, i, ch);
      } else {
        OtherCount(s, i, ch, v);
      }
    }
  }

  lemma OtherCount(s: State, i: CallId, ch: Choice, v: Wallet)
    requires AllShaped(s) && D.Inv(s.sh.db) && Inv(s) && Enabled(s, Advance(i, ch))
    requires v != s.ops[i].call.wallet && v in NextDb(s.sh, s.ops[i], ch).sessions
    ensures var session := NextDb(s.sh, s.ops[i], ch).sessions[v];
            var ledger := NextLedger(s.sh, i, s.ops[i], ch);
            session.generation in ledger && session.count == Outstanding(ledger[session.generation])
  {
    Sessions.DbStep(s.sh, s.ops[i], ch);
    LedgerEffect(s.sh, i, s.ops[i], ch);
    CountEffect(s.sh, s.ops[i], ch);
    assert Get(NextDb(s.sh, s.ops[i], ch).sessions, v) == Get(s.sh.db.sessions, v);
  }

  lemma GensKnownStep(s: State, i: CallId, ch: Choice)
    requires AllShaped(s) && D.Inv(s.sh.db) && GensKnown(s) && CountsMatch(s)
    requires Enabled(s, Advance(i, ch))
    ensures GensKnown(Apply(s, Advance(i, ch)))
  {
    hide NextOp, NextLedger, NextDb, NextScans, NextKeys, NextGates, NextMaint, Shaped, CanStep;
    Sessions.DbStep(s.sh, s.ops[i], ch);
    OpEffect(s.sh, i, s.ops[i], ch);
    LedgerEffect(s.sh, i, s.ops[i], ch);
    CountEffect(s.sh, s.ops[i], ch);
  }

  lemma AcquiredStep(s: State, i: CallId, ch: Choice)
    requires AllShaped(s) && D.Inv(s.sh.db) && GensKnown(s) && AcquiredMatch(s)
    requires Enabled(s, Advance(i, ch))
    ensures AcquiredMatch(Apply(s, Advance(i, ch)))
  {
    hide NextOp, NextLedger, NextDb, NextScans, NextKeys, NextGates, NextMaint, Shaped, CanStep;
    OpEffect(s.sh, i, s.ops[i], ch);
    LedgerEffect(s.sh, i, s.ops[i], ch);
  }

  lemma GivenBackStep(s: State, i: CallId, ch: Choice)
    requires AllShaped(s) && GivenBackMatch(s)
    requires Enabled(s, Advance(i, ch))
    ensures GivenBackMatch(Apply(s, Advance(i, ch)))
  {
    hide NextOp, NextLedger, NextDb, NextScans, NextKeys, NextGates, NextMaint, Shaped, CanStep;
    OpEffect(s.sh, i, s.ops[i], ch);
    LedgerEffect(s.sh, i, s.ops[i], ch);
  }

  lemma LocksStep(s: State, i: CallId, ch: Choice)
    requires AllShaped(s) && LocksMatch(s)
    requires Enabled(s, Advance(i, ch))
    ensures LocksMatch(Apply(s, Advance(i, ch)))
  {
    hide NextOp, NextLedger, NextDb, NextScans, NextKeys, NextGates, NextMaint, Shaped, CanStep;
    OpEffect(s.sh, i, s.ops[i], ch);
    LedgerEffect(s.sh, i, s.ops[i], ch);
  }

  // ----- whose counts they are -----

  /** An unlock gets its generation in its first step: its wallet's, or a new one. */
  lemma GenEffect(sh: Shared, i: CallId, op: Op, ch: Choice)
    requires Shaped(op) && CanStep(sh, op) && D.Inv(sh.db)
    ensures var after := NextOp(sh, i, op, ch);
            after.gen == op.gen
            || (after.gen.Some? && D.CountedAs(NextDb(sh, op, ch), op.call.wallet, after.gen.value))
  {
    if op.pc.Entry? && op.call.Unlock? {
      UnlockCounts(sh, op, ch);
    }
  }

  /** A generation that a wallet has after the step was its own before, or is new. */
  lemma GenBefore(sh: Shared, op: Op, ch: Choice, w: Wallet)
    requires Shaped(op) && CanStep(sh, op) && D.Inv(sh.db)
    requires w in NextDb(sh, op, ch).sessions
    ensures var g := NextDb(sh, op, ch).sessions[w].generation;
            D.CountedAs(sh.db, w, g) || (w == op.call.wallet && sh.db.nextGeneration <= g)
  {
    Sessions.DbStep(sh, op, ch);
    assert Get(NextDb(sh, op, ch).sessions, w) == Some(NextDb(sh, op, ch).sessions[w]);
    if w == op.call.wallet {
      assert D.CountedAs(NextDb(sh, op, ch), w, NextDb(sh, op, ch).sessions[w].generation);
    } else {
      assert Get(sh.db.sessions, w).Some?;
    }
  }

  lemma GenOwnerFor(s: State, i: CallId, ch: Choice, j: CallId, w: Wallet)
    requires AllShaped(s) && D.Inv(s.sh.db) && Sessions.GenInv(s) && GenOwner(s) && Enabled(s, Advance(i, ch))
    requires var after := Apply(s, Advance(i, ch));
             && j in s.ops && w in after.sh.db.sessions
             && after.ops[j].gen == Some(after.sh.db.sessions[w].generation)
    ensures s.ops[j].call.wallet == w
  {
    var op := s.ops[i];
    var db := NextDb(s.sh, op, ch);
    var g := db.sessions[w].generation;
    GenBefore(s.sh, op, ch, w);
    if j == i && NextOp(s.sh, i, op, ch).gen != op.gen {
      GenEffect(s.sh, i, op, ch);
      Sessions.DbStep(s.sh, op, ch);
    } else {
      assert s.ops[j].gen == Some(g);
    }
  }

  lemma GenOwnerStep(s: State, i: CallId, ch: Choice)
    requires AllShaped(s) && D.Inv(s.sh.db) && Sessions.GenInv(s) && GenOwner(s) && Enabled(s, Advance(i, ch))
    ensures GenOwner(Apply(s, Advance(i, ch)))
  {
    var after := Apply(s, Advance(i, ch));
    forall j, w | j in after.ops && w in after.sh.db.sessions
                  && after.ops[j].gen == Some(after.sh.db.sessions[w].generation)
      ensures after.ops[j].call.wallet == w
    {
      GenOwnerFor(s, i, ch, j, w);
    }
  }

  /** A step that records a lock records its own, in its wallet's generation. */
  lemma LockEffect(sh: Shared, i: CallId, op: Op, ch: Choice, g: nat, j: CallId)
    requires Shaped(op) && CanStep(sh, op)
    ensures var before, after := LockedIn(sh.ledger, g, j), LockedIn(NextLedger(sh, i, op, ch), g, j);
            && (before ==> after)
            && (after && !before ==>
                  j == i && op.pc.Entry? && op.call.Lock? && D.CountedAs(sh.db, op.call.wallet, g))
            && (op.pc.Entry? && op.call.Lock? && D.CountedAs(sh.db, op.call.wallet, g) ==>
                  LockedIn(NextLedger(sh, i, op, ch), g, i))
  {
    LedgerEffect(sh, i, op, ch);
  }

  lemma LocksOwnFor(s: State, i: CallId, ch: Choice, w: Wallet, j: CallId)
    requires AllShaped(s) && D.Inv(s.sh.db) && GensKnown(s) && LocksOwn(s) && Enabled(s, Advance(i, ch))
    requires var after := Apply(s, Advance(i, ch));
             w in after.sh.db.sessions && LockedIn(after.sh.ledger, after.sh.db.sessions[w].generation, j)
    ensures j in s.ops && s.ops[j].call == Lock(w)
  {
    hide NextDb, NextOp, NextLedger, Shaped, CanStep;
    var op := s.ops[i];
    var g := NextDb(s.sh, op, ch).sessions[w].generation;
    GenBefore(s.sh, op, ch, w);
    LockEffect(s.sh, i, op, ch, g, j);
    if LockedIn(s.sh.ledger, g, j) {
      assert D.CountedAs(s.sh.db, w, g);
    }
  }

  lemma LocksOwnStep(s: State, i: CallId, ch: Choice)
    requires AllShaped(s) && D.Inv(s.sh.db) && GensKnown(s) && LocksOwn(s) && Enabled(s, Advance(i, ch))
    ensures LocksOwn(Apply(s, Advance(i, ch)))
  {
    var after := Apply(s, Advance(i, ch));
    forall w, j {:trigger LockedIn(after.sh.ledger, after.sh.db.sessions[w].generation, j)}
      | w in after.sh.db.sessions && LockedIn(after.sh.ledger, after.sh.db.sessions[w].generation, j)
      ensures j in after.ops && after.ops[j].call == Lock(w)
    {
      LocksOwnFor(s, i, ch, w, j);
    }
  }

  /** An unlock turns out failed by its release, or because its generation is gone. */
  lemma GaveBackEffect(sh: Shared, i: CallId, op: Op, ch: Choice)
    requires Shaped(op) && CanStep(sh, op) && !GaveBack(op)
    ensures GaveBack(NextOp(sh, i, op, ch)) ==>
              NextOp(sh, i, op, ch).gen == op.gen && (op.pc.GiveBack? || !StillCounted(sh, op))
  {
  }

  lemma GivenBackGrows(sh: Shared, i: CallId, op: Op, ch: Choice, g: nat, j: CallId)
    requires Shaped(op) && CanStep(sh, op)
    ensures GivenBackIn(sh.ledger, g, j) ==> GivenBackIn(NextLedger(sh, i, op, ch), g, j)
    ensures op.pc.GiveBack? && StillCounted(sh, op) ==> GivenBackIn(NextLedger(sh, i, op, ch), op.gen.value, i)
  {
    LedgerEffect(sh, i, op, ch);
  }

  lemma GivenBackFor(s: State, i: CallId, ch: Choice, j: CallId)
    requires AllShaped(s) && D.Inv(s.sh.db) && Sessions.GenInv(s) && GivenBackKnown(s) && Enabled(s, Advance(i, ch))
    requires j in s.ops
    requires var after := Apply(s, Advance(i, ch));
             GaveBack(after.ops[j]) && StillCounted(after.sh, after.ops[j])
    ensures var after := Apply(s, Advance(i, ch));
            GivenBackIn(after.sh.ledger, after.ops[j].gen.value, j)
  {
    var op := s.ops[i];
    OpEffect(s.sh, i, op, ch);
    if j == i && !GaveBack(op) {
      GaveBackEffect(s.sh, i, op, ch);
    }
    Sessions.StillCountedBefore(s.sh, op, ch, s.ops[j]);
    GivenBackGrows(s.sh, i, op, ch, s.ops[j].gen.value, j);
  }

  lemma GivenBackKnownStep(s: State, i: CallId, ch: Choice)
    requires AllShaped(s) && D.Inv(s.sh.db) && Sessions.GenInv(s) && GivenBackKnown(s) && Enabled(s, Advance(i, ch))
    ensures GivenBackKnown(Apply(s, Advance(i, ch)))
  {
    var after := Apply(s, Advance(i, ch));
    forall j | j in after.ops && GaveBack(after.ops[j]) && StillCounted(after.sh, after.ops[j])
      ensures GivenBackIn(after.sh.ledger, after.ops[j].gen.value, j)
    {
      GivenBackFor(s, i, ch, j);
    }
  }
}
