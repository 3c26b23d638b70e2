/** What the session protocol guarantees in every run. */
module SessionTheorems {
  import opened Types
  import opened Protocol
  import opened Shape
  import opened Runs
  import D = Database
  import Sessions
  import Counting

  // ----- key sessions -----

  /** An unlock that returned `Ok` and is still counted in its own generation has its wallet's key
      session, through every lock, force lock, failed unlock and late gate: only an upstream drop
      by a delete, rename or passphrase change of the same wallet can take it away. */
  lemma LiveHolderKeepsKeys(s: State, i: CallId)
    requires Reachable(s) && i in s.ops && s.ops[i].pc == Done(UnlockOk)
    requires s.ops[i].gen.Some? && D.CountedAs(s.sh.db, s.ops[i].call.wallet, s.ops[i].gen.value)
    ensures s.ops[i].call.wallet in s.sh.keys || s.ops[i].call.wallet in s.sh.lost
  {
    ReachedSessions(s);
    assert Sessions.Opens(s.ops[i]);
  }

  predicate NoDrops(acts: seq<Action>) {
    forall k :: 0 <= k < |acts| ==> !acts[k].UpstreamDrop?
  }

  lemma {:induction false} NothingLost(s: State, acts: seq<Action>)
    requires Legal(s, acts) && NoDrops(acts) && s.sh.lost == {}
    ensures After(s, acts).sh.lost == {}
    decreases |acts|
  {
    if acts == [] {
    } else {
      assert !acts[0].UpstreamDrop?;
      assert forall k :: 0 <= k < |acts[1..]| ==> acts[1..][k] == acts[1 + k];
      NothingLost(Apply(s, acts[0]), acts[1..]);
    }
  }

  /** Without upstream drops a live holder always has its keys. */
  lemma LiveHolderKeepsKeysWithoutDrops(acts: seq<Action>, i: CallId)
    requires Legal(Init(), acts) && NoDrops(acts)
    requires var s := After(Init(), acts);
             && i in s.ops && s.ops[i].pc == Done(UnlockOk)
             && s.ops[i].gen.Some? && D.CountedAs(s.sh.db, s.ops[i].call.wallet, s.ops[i].gen.value)
    ensures var s := After(Init(), acts);
            s.ops[i].call.wallet in s.sh.keys
  {
    var s := After(Init(), acts);
    NothingLost(Init(), acts);
    assert Reachable(s);
    LiveHolderKeepsKeys(s, i);
  }

  /** A key session without a count is always about to be locked. */
  lemma NoOrphanedKeys(s: State, w: Wallet) returns (i: CallId)
    requires Reachable(s) && w in s.sh.keys && w !in s.sh.db.sessions
    ensures i in s.ops && !s.ops[i].pc.Done? && s.ops[i].call.wallet == w && Sessions.OwesLock(s.ops[i])
  {
    ReachedSessions(s);
    i :| i in s.ops && Sessions.OwesLock(s.ops[i]) && s.ops[i].call.wallet == w;
  }

  // ----- counts -----

  /** The unlocks of `w` that counted in generation `g`, those of them that failed and gave their
      count back, and the `lock_wallet` calls on `w` in it are exactly what `l` holds. */
  ghost predicate Tallied(s: State, w: Wallet, g: nat, l: Ledger) {
    && (forall i :: i in l.acquired <==> i in s.ops && s.ops[i].gen == Some(g))
    && (forall i :: i in l.acquired ==> s.ops[i].call.Unlock? && s.ops[i].call.wallet == w)
    && (forall i :: i in l.givenBack <==> i in s.ops && s.ops[i].gen == Some(g) && Counting.GaveBack(s.ops[i]))
    && (forall i :: i in l.locks ==> i in s.ops && s.ops[i].call == Lock(w) && !s.ops[i].pc.Entry?)
  }

  lemma TalliedOf(s: State, w: Wallet)
    requires AllShaped(s) && Counting.Inv(s) && w in s.sh.db.sessions
    ensures s.sh.db.sessions[w].generation in s.sh.ledger
    ensures var g := s.sh.db.sessions[w].generation;
            Tallied(s, w, g, s.sh.ledger[g])
  {
    var g := s.sh.db.sessions[w].generation;
    var l := s.sh.ledger[g];
    forall i | i in s.ops && s.ops[i].gen == Some(g)
      ensures s.ops[i].call.Unlock? && s.ops[i].call.wallet == w && StillCounted(s.sh, s.ops[i])
      ensures Counting.GaveBack(s.ops[i]) ==> i in l.givenBack
    {
      assert Shaped(s.ops[i]);
      if Counting.GaveBack(s.ops[i]) {
        assert Counting.GivenBackIn(s.sh.ledger, g, i);
      }
    }
    forall i | i in l.locks ensures i in s.ops && s.ops[i].call == Lock(w) && !s.ops[i].pc.Entry? {
      assert Counting.LockedIn(s.sh.ledger, g, i);
    }
  }

  /** A wallet's count is the number of its unlocks that counted in its generation, less those of
      them that failed and gave their count back and less the `lock_wallet` calls on it; it is never
      zero. */
  lemma CountConservation(s: State, w: Wallet)
    requires Reachable(s) && w in s.sh.db.sessions
    ensures var session := s.sh.db.sessions[w];
            && session.count >= 1
            && session.generation in s.sh.ledger
            && var l := s.sh.ledger[session.generation];
               && session.count == |l.acquired| - |l.givenBack| - |l.locks|
               && l.givenBack <= l.acquired
               && Tallied(s, w, session.generation, l)
  {
    assert AllShaped(s) && D.Inv(s.sh.db) && Counting.Inv(s) by {
      ReachedSessions(s);
    }
    TalliedOf(s, w);
  }

  /** Step `k` of the run is the state step of a `lock_wallet` that finds its wallet counted in `g`. */
  ghost predicate LocksAt(s: State, acts: seq<Action>, k: nat, g: nat, i: CallId)
    requires k < |acts| && Legal(s, acts[..k])
  {
    var t := After(s, acts[..k]);
    && acts[k].Advance? && acts[k].i == i && i in t.ops
    && t.ops[i].call.Lock? && t.ops[i].pc.Entry?
    && D.CountedAs(t.sh.db, t.ops[i].call.wallet, g)
  }

  ghost predicate LockTook(s: State, acts: seq<Action>, k: nat, g: nat, i: CallId) {
    k < |acts| && Legal(s, acts[..k]) && LocksAt(s, acts, k, g, i)
  }

  lemma LockRecordStep(s: State, a: Action, g: nat, i: CallId)
    requires AllShaped(s) && Enabled(s, a)
    ensures Counting.LockedIn(Apply(s, a).sh.ledger, g, i) <==>
              || Counting.LockedIn(s.sh.ledger, g, i)
              || (a.Advance? && a.i == i && s.ops[i].call.Lock? && s.ops[i].pc.Entry?
                  && D.CountedAs(s.sh.db, s.ops[i].call.wallet, g))
  {
    if a.Advance? {
      Counting.LockEffect(s.sh, a.i, s.ops[a.i], a.choice, g, i);
    }
  }

  /** Dropping the first step of a run moves every later step one place forward. */
  lemma LockTookLater(s: State, acts: seq<Action>, k: nat, g: nat, i: CallId)
    requires Legal(s, acts) && acts != [] && k > 0
    ensures LockTook(s, acts, k, g, i) <==> LockTook(Apply(s, acts[0]), acts[1..], k - 1, g, i)
  {
    if k < |acts| {
      assert acts[..k][1..] == acts[1..][..k - 1];
      assert acts[..k] != [] && acts[..k][0] == acts[0];
    }
  }

  lemma LockTookFirst(s: State, acts: seq<Action>, g: nat, i: CallId)
    requires Legal(s, acts) && acts != []
    ensures LockTook(s, acts, 0, g, i) <==>
              acts[0].Advance? && acts[0].i == i && s.ops[i].call.Lock? && s.ops[i].pc.Entry?
              && D.CountedAs(s.sh.db, s.ops[i].call.wallet, g)
  {
    assert acts[..0] == [];
  }

  lemma {:induction false} LocksAreStepsFrom(s: State, acts: seq<Action>, g: nat, i: CallId)
    requires Reachable(s) && Legal(s, acts)
    ensures Counting.LockedIn(After(s, acts).sh.ledger, g, i) <==>
              Counting.LockedIn(s.sh.ledger, g, i) || exists k: nat :: LockTook(s, acts, k, g, i)
    decreases |acts|
  {
    if acts == [] {
    } else {
      assert AllShaped(s) by {
        ReachedSessions(s);
      }
      var next := Apply(s, acts[0]);
      LockRecordStep(s, acts[0], g, i);
      LockTookFirst(s, acts, g, i);
      ReachableApply(s, acts[0]);
      LocksAreStepsFrom(next, acts[1..], g, i);
      if k: nat :| LockTook(next, acts[1..], k, g, i) {
        LockTookLater(s, acts, k + 1, g, i);
        assert LockTook(s, acts, k + 1, g, i);
      }
      if k: nat :| LockTook(s, acts, k, g, i) && k > 0 {
        LockTookLater(s, acts, k, g, i);
        assert LockTook(next, acts[1..], k - 1, g, i);
      }
    }
  }

  /** The locks in the ledger of a generation are exactly the `lock_wallet` calls whose state step
      found their wallet counted in it. */
  lemma LocksAreSteps(acts: seq<Action>, g: nat, i: CallId)
    requires Legal(Init(), acts)
    ensures Counting.LockedIn(After(Init(), acts).sh.ledger, g, i) <==>
              exists k: nat :: LockTook(Init(), acts, k, g, i)
  {
    InitReachable();
    LocksAreStepsFrom(Init(), acts, g, i);
  }

  /** `g` was drawn and no wallet is counted in it any more. */
  ghost predicate Gone(s: State, g: nat) {
    g < s.sh.db.nextGeneration && forall w :: w in s.sh.db.sessions ==> s.sh.db.sessions[w].generation != g
  }

  lemma GoneStep(s: State, a: Action, g: nat)
    requires AllShaped(s) && D.Inv(s.sh.db) && Enabled(s, a) && Gone(s, g)
    ensures Gone(Apply(s, a), g)
  {
    if a.Advance? {
      var op := s.ops[a.i];
      var db := NextDb(s.sh, op, a.choice);
      Sessions.DbStep(s.sh, op, a.choice);
      forall w | w in db.sessions ensures db.sessions[w].generation != g {
        if w != op.call.wallet {
          assert Get(db.sessions, w) == Get(s.sh.db.sessions, w);
        } else if db.sessions[w].generation == g {
          assert D.CountedAs(db, w, g);
        }
      }
    }
  }

  /** A generation whose entry is gone never comes back. */
  lemma {:induction false} GenerationNeverReused(s: State, acts: seq<Action>, g: nat)
    requires Reachable(s) && Legal(s, acts) && Gone(s, g)
    ensures Gone(After(s, acts), g)
    decreases |acts|
  {
    if acts == [] {
    } else {
      assert AllShaped(s) && D.Inv(s.sh.db) by {
        ReachedSessions(s);
      }
      GoneStep(s, acts[0], g);
      ReachableApply(s, acts[0]);
      GenerationNeverReused(Apply(s, acts[0]), acts[1..], g);
    }
  }

  /** A failed unlock takes one off its own generation's count if that is still counted, and
      touches nothing otherwise: never a newer holder's count, never another wallet's. */
  lemma FailedUnlockGivesBackItsOwn(s: State, i: CallId, ch: Choice)
    requires Reachable(s) && Enabled(s, Advance(i, ch)) && s.ops[i].pc.GiveBack?
    ensures var op := s.ops[i];
            var w := op.call.wallet;
            var before, after := s.sh.db, Apply(s, Advance(i, ch)).sh.db;
            && op.gen.Some?
            && (!D.CountedAs(before, w, op.gen.value) ==> after == before)
            && (D.CountedAs(before, w, op.gen.value) ==>
                  if before.sessions[w].count == 1 then w !in after.sessions
                  else D.CountedAs(after, w, op.gen.value)
                       && after.sessions[w].count + 1 == before.sessions[w].count)
            && (forall v :: v != w ==> Get(after.sessions, v) == Get(before.sessions, v))
  {
    hide NextScans, NextKeys, NextGates, NextMaint, NextFiles, NextLedger, NextOp;
    assert AllShaped(s) && D.Inv(s.sh.db) by {
      ReachedSessions(s);
    }
    D.ReleaseOneKeeps(s.sh.db, s.ops[i].call.wallet);
  }

  // ----- a force lock wins -----

  /** The state step of `lock_wallet_everywhere`: a force lock, or either pass of a delete or
      rename. */
  predicate ForcesOut(op: Op) {
    op.pc.Evict? || (op.pc.Entry? && op.call.ForceLock?)
  }

  /** The unlock counted in a generation that is gone and has not returned `Ok`. */
  ghost predicate LostOut(s: State, j: CallId) {
    j in s.ops && s.ops[j].gen.Some? && !Sessions.Opens(s.ops[j]) && Gone(s, s.ops[j].gen.value)
  }

  lemma LostOutStep(s: State, a: Action, j: CallId)
    requires AllShaped(s) && D.Inv(s.sh.db) && Enabled(s, a) && LostOut(s, j)
    ensures LostOut(Apply(s, a), j)
  {
    GoneStep(s, a, s.ops[j].gen.value);
    if a.Advance? && a.i == j {
      Sessions.OpensEffect(s.sh, j, s.ops[j], a.choice);
      Counting.OpEffect(s.sh, j, s.ops[j], a.choice);
    }
  }

  lemma {:induction false} LostOutForever(s: State, acts: seq<Action>, j: CallId)
    requires Reachable(s) && Legal(s, acts) && LostOut(s, j)
    ensures LostOut(After(s, acts), j)
    decreases |acts|
  {
    if acts == [] {
    } else {
      assert AllShaped(s) && D.Inv(s.sh.db) by {
        ReachedSessions(s);
      }
      LostOutStep(s, acts[0], j);
      ReachableApply(s, acts[0]);
      LostOutForever(Apply(s, acts[0]), acts[1..], j);
    }
  }

  lemma ForceEndsGeneration(s: State, i: CallId, ch: Choice, j: CallId)
    requires AllShaped(s) && D.Inv(s.sh.db) && Sessions.GenInv(s)
    requires Enabled(s, Advance(i, ch)) && ForcesOut(s.ops[i])
    requires j in s.ops && s.ops[j].gen.Some? && s.ops[j].call.wallet == s.ops[i].call.wallet
    requires StillCounted(s.sh, s.ops[j])
    ensures Gone(Apply(s, Advance(i, ch)), s.ops[j].gen.value)
    ensures Apply(s, Advance(i, ch)).ops[j] == s.ops[j]
  {
    D.EvictKeeps(s.sh.db, s.ops[i].call.wallet);
  }

  /** Once a force lock, delete or rename has taken its state step, an unlock of the wallet that
      had counted is never counted again, and one that had not returned `Ok` by then never does. */
  lemma ForceWins(s: State, i: CallId, ch: Choice, acts: seq<Action>, j: CallId)
    requires Reachable(s) && Enabled(s, Advance(i, ch)) && ForcesOut(s.ops[i])
    requires Legal(Apply(s, Advance(i, ch)), acts)
    requires j in s.ops && StillCounted(s.sh, s.ops[j]) && s.ops[j].call.wallet == s.ops[i].call.wallet
    ensures var t := After(Apply(s, Advance(i, ch)), acts);
            && Gone(t, s.ops[j].gen.value)
            && (!Sessions.Opens(s.ops[j]) ==> j in t.ops && !Sessions.Opens(t.ops[j]))
  {
    assert AllShaped(s) && D.Inv(s.sh.db) && Sessions.GenInv(s) by {
      ReachedSessions(s);
    }
    ForceEndsGeneration(s, i, ch, j);
    var forced := Apply(s, Advance(i, ch));
    assert After(s, [Advance(i, ch)]) == forced;
    ReachableAfter(s, [Advance(i, ch)]);
    GenerationNeverReused(forced, acts, s.ops[j].gen.value);
    if !Sessions.Opens(s.ops[j]) {
      LostOutForever(forced, acts, j);
    }
  }

  // ----- pool and path -----

  /** The pool is open exactly while a wallet is counted, at the recorded path, which is what
      `get_db_path` reports; so an unlock never finds it open elsewhere without a count. */
  lemma PoolFollowsCounts(s: State)
    requires Reachable(s)
    ensures s.sh.db.open.Some? <==> s.sh.db.sessions != map[]
    ensures s.sh.db.open.Some? ==> s.sh.db.open == s.sh.db.path
    ensures D.DbPath(s.sh.db) == s.sh.db.path
  {
    ReachedSessions(s);
  }

  /** An unlock that passes its last check, and one that returned `Ok` and is still counted, has
      the database open at the path it asked for. */
  lemma OpenAtItsPath(s: State, i: CallId)
    requires Reachable(s) && i in s.ops && s.ops[i].call.Unlock? && StillCounted(s.sh, s.ops[i])
    ensures s.sh.db.open == Some(s.ops[i].call.path)
  {
    ReachedSessions(s);
  }

  /** While a wallet is counted no action changes the recorded path. */
  lemma PathFixedWhileCounted(s: State, a: Action)
    requires Reachable(s) && Enabled(s, a) && s.sh.db.sessions != map[]
    ensures Apply(s, a).sh.db.path == s.sh.db.path
  {
    assert AllShaped(s) && D.Inv(s.sh.db) by {
      ReachedSessions(s);
    }
    if a.Advance? {
      Sessions.DbStep(s.sh, s.ops[a.i], a.choice);
    }
  }
}
