/** `src/api/db.rs`: the state behind `DB_STATE` and what each of its critical sections does. */
module Database {
  import opened Types

  const MAX_COUNT: nat := 0xFFFF_FFFF
  const GENERATIONS: nat := 0x1_0000_0000_0000_0000

  datatype Session = Session(count: nat, generation: nat)

  /** `DbState`; the open pool is represented by the path it was opened on. */
  datatype Db = Db(path: Option<Path>,
                   open: Option<Path>,
                   sessions: map<Wallet, Session>,
                   nextGeneration: nat)

  function Initial(): Db {
    Db(None, None, map[], 0)
  }

  /** `acquire_session`: the count saturates at `u32::MAX`, the generation counter wraps at 2^64. */
  function Acquire(db: Db, w: Wallet): Db {
    var next := db.nextGeneration;
    var found := if w in db.sessions then db.sessions[w] else Session(0, next);
    db.(sessions := db.sessions[w := found.(count := if found.count < MAX_COUNT then found.count + 1 else MAX_COUNT)],
        nextGeneration := if found.generation == next then (next + 1) % GENERATIONS else next)
  }

  function CloseIfUnused(db: Db): Db {
    if db.sessions == map[] then db.(open := None) else db
  }

  /** `release_one`: the new state, and whether the count reached zero. */
  function ReleaseOne(db: Db, w: Wallet): (Db, bool) {
    if w !in db.sessions then
      (db, false)
    else
      var session := db.sessions[w];
      var count := if session.count == 0 then 0 else session.count - 1;
      if count > 0 then
        (db.(sessions := db.sessions[w := session.(count := count)]), false)
      else
        (CloseIfUnused(db.(sessions := db.sessions - {w})), true)
  }

  predicate CountedAs(db: Db, w: Wallet, generation: nat) {
    w in db.sessions && db.sessions[w].generation == generation
  }

  /** The critical section of `release_failed_unlock`. */
  function ReleaseFailed(db: Db, w: Wallet, generation: nat): (Db, bool) {
    if CountedAs(db, w, generation) then ReleaseOne(db, w) else (db, false)
  }

  /** The critical section of `lock_wallet_everywhere`. */
  function Evict(db: Db, w: Wallet): Db {
    if w in db.sessions then CloseIfUnused(db.(sessions := db.sessions - {w})) else db
  }

  /** The critical section of `set_database_path`; `None` is its `Another database is open`. */
  function SetPath(db: Db, path: Path): Option<Db> {
    if db.open.Some? && db.open.value != path then None else Some(db.(path := Some(path)))
  }

  /** The critical section of `unlock_wallet`; `opens` says whether `open_pool` would succeed.
      The generation is `None` when the call fails here. */
  function EnterUnlock(db: Db, w: Wallet, path: Path, opens: bool): (Db, Option<nat>) {
    var other := db.open.Some? && db.open.value != path;
    if other && db.sessions != map[] then
      (db, None)
    else
      var closed := if other then db.(open := None) else db;
      if closed.open.None? && !opens then
        (closed, None)
      else
        var entered := Acquire(closed.(open := Some(path), path := Some(path)), w);
        (entered, Some(entered.sessions[w].generation))
  }

  /** `get_db_path`; `None` is `NotInitialized`. */
  function DbPath(db: Db): Option<Path> {
    if db.open.Some? then db.open else db.path
  }

  // ----- what holds whenever the state lock is free -----

  ghost predicate CountsInv(db: Db) {
    && (forall w :: w in db.sessions ==> 1 <= db.sessions[w].count <= MAX_COUNT)
    && (forall w :: w in db.sessions ==> db.sessions[w].generation < db.nextGeneration)
    && (forall v, w :: v in db.sessions && w in db.sessions && v != w ==>
                         db.sessions[v].generation != db.sessions[w].generation)
  }

  predicate PoolInv(db: Db) {
    && (db.open.Some? <==> db.sessions != map[])
    && (db.open.Some? ==> db.path == db.open)
  }

  ghost predicate Inv(db: Db) {
    CountsInv(db) && PoolInv(db)
  }

  /** Fewer than 2^32 - 1 outstanding counts and fewer than 2^64 generations. */
  predicate Headroom(db: Db, w: Wallet) {
    && (w in db.sessions ==> db.sessions[w].count < MAX_COUNT)
    && db.nextGeneration + 1 < GENERATIONS
  }

  /** `acquire_session` keeps the counts and generations in order exactly unless it draws the last
      generation, after which the counter starts again. */
  lemma AcquireKeeps(db: Db, w: Wallet)
    requires CountsInv(db) && db.nextGeneration < GENERATIONS
    ensures var after := Acquire(db, w);
            && (CountsInv(after) <==> w in db.sessions || db.nextGeneration + 1 < GENERATIONS)
            && after.path == db.path && after.open == db.open && w in after.sessions
            && after.nextGeneration == (if w in db.sessions then db.nextGeneration else (db.nextGeneration + 1) % GENERATIONS)
            && (w !in db.sessions ==> after.sessions[w] == Session(1, db.nextGeneration))
            && (w in db.sessions ==>
                  && after.sessions[w].generation == db.sessions[w].generation
                  && after.sessions[w].count == if db.sessions[w].count < MAX_COUNT then db.sessions[w].count + 1 else MAX_COUNT)
            && (forall v :: v != w ==> Get(after.sessions, v) == Get(db.sessions, v))
  {
    var after := Acquire(db, w);
    if w !in db.sessions && db.nextGeneration + 1 == GENERATIONS {
      assert after.sessions[w].generation >= after.nextGeneration;
    }
  }

  /** The pool is never open elsewhere without a count, so an unlock that counts is `acquire_session`
      with the pool open at its path. */
  lemma EnterUnlockAcquires(db: Db, w: Wallet, path: Path, opens: bool)
    requires PoolInv(db)
    ensures var (after, g) := EnterUnlock(db, w, path, opens);
            match g {
              case None => after == db
              case Some(g) =>
                && after == Acquire(db.(open := Some(path), path := Some(path)), w)
                && w in after.sessions && g == after.sessions[w].generation
                && (db.sessions != map[] ==> db.open == Some(path))
            }
  {
  }

  /** While a wallet is counted an unlock counts exactly if it asks for the open database, and else
      exactly if the database at its path can be opened. */
  lemma EnterUnlockCountsWhen(db: Db, w: Wallet, path: Path, opens: bool)
    requires PoolInv(db)
    ensures EnterUnlock(db, w, path, opens).1.Some? <==>
              if db.sessions != map[] then db.open == Some(path) else opens
  {
  }

  /** The locked part of `unlock_wallet` without any bound on the counters: it counts one more, up to
      the ceiling, in the wallet's generation or draws a new one. It keeps the invariant exactly unless
      it draws the last generation. */
  lemma EnterUnlockKeeps(db: Db, w: Wallet, path: Path, opens: bool)
    requires Inv(db) && db.nextGeneration < GENERATIONS
    ensures var (after, g) := EnterUnlock(db, w, path, opens);
            && (Inv(after) <==> !(g.Some? && w !in db.sessions && db.nextGeneration + 1 == GENERATIONS))
            && match g {
                 case None => after == db
                 case Some(g) =>
                   && CountedAs(after, w, g)
                   && after.open == Some(path) && after.path == Some(path)
                   && after.nextGeneration == (if w in db.sessions then db.nextGeneration else (g + 1) % GENERATIONS)
                   && (w !in db.sessions ==> g == db.nextGeneration && after.sessions[w].count == 1)
                   && (w in db.sessions ==> g == db.sessions[w].generation
                                            && after.sessions[w].count ==
                                               if db.sessions[w].count < MAX_COUNT then db.sessions[w].count + 1 else MAX_COUNT)
                   && (forall v :: v != w ==> Get(after.sessions, v) == Get(db.sessions, v))
                   && (db.sessions != map[] ==> db.open == Some(path))
               }
  {
    EnterUnlockAcquires(db, w, path, opens);
    AcquireKeeps(db.(open := Some(path), path := Some(path)), w);
    hide EnterUnlock, Acquire, CountsInv;
  }

  /** While the counters have room it keeps the invariant and counts exactly one more. */
  lemma EnterUnlockCounts(db: Db, w: Wallet, path: Path, opens: bool)
    requires Inv(db) && Headroom(db, w)
    ensures Inv(EnterUnlock(db, w, path, opens).0)
    ensures var (after, g) := EnterUnlock(db, w, path, opens);
            match g {
              case None => after == db
              case Some(g) =>
                && CountedAs(after, w, g)
                && after.open == Some(path)
                && after.nextGeneration == (if w in db.sessions then db.nextGeneration else g + 1)
                && (w !in db.sessions ==> g == db.nextGeneration && after.sessions[w].count == 1)
                && (w in db.sessions ==> g == db.sessions[w].generation
                                         && after.sessions[w].count == db.sessions[w].count + 1)
                && (forall v :: v != w ==> Get(after.sessions, v) == Get(db.sessions, v))
                && (db.sessions != map[] ==> db.open == Some(path))
            }
  {
    EnterUnlockKeeps(db, w, path, opens);
    hide EnterUnlock, Inv;
  }

  lemma ReleaseOneKeeps(db: Db, w: Wallet)
    requires Inv(db)
    ensures Inv(ReleaseOne(db, w).0)
    ensures var (after, zero) := ReleaseOne(db, w);
            && after.nextGeneration == db.nextGeneration
            && after.path == db.path
            && (forall v :: v != w ==> Get(after.sessions, v) == Get(db.sessions, v))
            && (zero <==> w in db.sessions && w !in after.sessions)
            && (w !in db.sessions ==> after == db)
            && (w in db.sessions && !zero ==>
                  after.sessions[w] == Session(db.sessions[w].count - 1, db.sessions[w].generation))
            && (zero ==> db.sessions[w].count == 1)
  {
    var after := ReleaseOne(db, w).0;
    if w in after.sessions {
      assert after.sessions != map[];
    }
  }

  lemma EvictKeeps(db: Db, w: Wallet)
    requires Inv(db)
    ensures Inv(Evict(db, w))
    ensures Evict(db, w).path == db.path && Evict(db, w).nextGeneration == db.nextGeneration
    ensures Evict(db, w).sessions == db.sessions - {w}
  {
    if w !in db.sessions {
      assert db.sessions - {w} == db.sessions;
    }
  }

  /** One more count and one off again give the state back, but for the generation that a first
      count draws: exactly when the count had not reached its ceiling. */
  lemma CountRoundTrip(db: Db, w: Wallet)
    requires Inv(db) && db.nextGeneration + 1 < GENERATIONS
    ensures ReleaseOne(Acquire(db, w), w).0.(nextGeneration := db.nextGeneration) == db <==>
              (w in db.sessions ==> db.sessions[w].count < MAX_COUNT)
    ensures ReleaseOne(Acquire(db, w), w).1 <==> w !in db.sessions
  {
    if w in db.sessions {
      assert ReleaseOne(Acquire(db, w), w).0.sessions[w].count ==
             (if db.sessions[w].count < MAX_COUNT then db.sessions[w].count else MAX_COUNT - 1);
      if db.sessions[w].count < MAX_COUNT {
        assert ReleaseOne(Acquire(db, w), w).0.sessions == db.sessions;
      }
    } else {
      assert db.sessions[w := Session(1, db.nextGeneration)] - {w} == db.sessions;
    }
  }

  /** What any critical section of a call on `w` may do to the state. */
  ghost predicate Moves(db: Db, after: Db, w: Wallet) {
    && Inv(after)
    && db.nextGeneration <= after.nextGeneration
    && (forall v :: v != w ==> Get(after.sessions, v) == Get(db.sessions, v))
    && (forall g: nat :: g < db.nextGeneration && CountedAs(after, w, g) ==> CountedAs(db, w, g))
    && (db.sessions != map[] ==> after.path == db.path)
  }

  lemma EnterUnlockMoves(db: Db, w: Wallet, path: Path, opens: bool)
    requires Inv(db) && Headroom(db, w)
    ensures Moves(db, EnterUnlock(db, w, path, opens).0, w)
  {
    EnterUnlockCounts(db, w, path, opens);
  }

  lemma ReleaseOneMoves(db: Db, w: Wallet)
    requires Inv(db)
    ensures Moves(db, ReleaseOne(db, w).0, w)
  {
    ReleaseOneKeeps(db, w);
  }

  lemma EvictMoves(db: Db, w: Wallet)
    requires Inv(db)
    ensures Moves(db, Evict(db, w), w)
  {
    EvictKeeps(db, w);
  }
}
