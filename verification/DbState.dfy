/** `DB_STATE` as the source updates it: in place, field by field, under its write lock. Each method
    is one critical section and leaves the state that `Database` says. */
module DbStateCell {
  import opened Types
  import D = Database

  class DbState {
    var path: Option<Path>
    var open: Option<Path>
    var sessions: map<Wallet, D.Session>
    var nextGeneration: nat

    function View(): D.Db
      reads this
    {
      D.Db(path, open, sessions, nextGeneration)
    }

    constructor ()
      ensures View() == D.Initial()
    {
      path, open, sessions, nextGeneration := None, None, map[], 0;
    }

    method AcquireSession(w: Wallet) returns (generation: nat)
      modifies this`sessions, this`nextGeneration
      ensures View() == D.Acquire(old(View()), w)
      ensures D.CountedAs(View(), w, generation)
    {
      var next := nextGeneration;
      var session := if w in sessions then sessions[w] else D.Session(0, next);
      if session.generation == next {
        nextGeneration := (next + 1) % D.GENERATIONS;
      }
      if session.count < D.MAX_COUNT {
        session := session.(count := session.count + 1);
      } else {
        session := session.(count := D.MAX_COUNT);
      }
      sessions := sessions[w := session];
      generation := session.generation;
    }

    method ClosePool()
      modifies this`open
      ensures open == None
    {
      open := None;
    }

    method ReleaseOne(w: Wallet) returns (zero: bool)
      modifies this`sessions, this`open
      ensures (View(), zero) == D.ReleaseOne(old(View()), w)
    {
      if w !in sessions {
        return false;
      }
      var session := sessions[w];
      if session.count > 0 {
        session := session.(count := session.count - 1);
      }
      if session.count > 0 {
        sessions := sessions[w := session];
        return false;
      }
      sessions := sessions - {w};
      if sessions == map[] {
        ClosePool();
      }
      return true;
    }

    /** The locked part of `release_failed_unlock`. */
    method ReleaseFailedUnlock(w: Wallet, generation: nat) returns (zero: bool)
      modifies this`sessions, this`open
      ensures (View(), zero) == D.ReleaseFailed(old(View()), w, generation)
    {
      zero := false;
      if w in sessions && sessions[w].generation == generation {
        zero := ReleaseOne(w);
      }
    }

    /** The locked part of `lock_wallet_everywhere`. */
    method RemoveEveryCount(w: Wallet)
      modifies this`sessions, this`open
      ensures View() == D.Evict(old(View()), w)
    {
      if w in sessions {
        sessions := sessions - {w};
        if sessions == map[] {
          ClosePool();
        }
      }
    }

    method SetDatabasePath(newPath: Path) returns (ok: bool)
      modifies this`path
      ensures match D.SetPath(old(View()), newPath)
              case None => !ok && View() == old(View())
              case Some(db) => ok && View() == db
    {
      if open.Some? && open.value != newPath {
        return false;
      }
      path := Some(newPath);
      return true;
    }

    /** The locked part of `unlock_wallet`; `opens` is whether `open_pool` succeeds. */
    method EnterUnlock(newPath: Path, w: Wallet, opens: bool) returns (generation: Option<nat>)
      modifies this
      ensures (View(), generation) == D.EnterUnlock(old(View()), w, newPath, opens)
    {
      if open.Some? && open.value != newPath {
        if sessions != map[] {
          return None;
        }
        ClosePool();
      }
      if open.None? {
        if !opens {
          return None;
        }
        open := Some(newPath);
      }
      path := Some(newPath);
      var g := AcquireSession(w);
      generation := Some(g);
    }

    method StillCounted(w: Wallet, generation: nat) returns (counted: bool)
      ensures counted == D.CountedAs(View(), w, generation)
    {
      counted := w in sessions && sessions[w].generation == generation;
    }

    method GetDbPath() returns (p: Option<Path>)
      ensures p == D.DbPath(View())
      ensures D.PoolInv(View()) ==> p == path
    {
      if open.Some? {
        return open;
      }
      return path;
    }
  }
}
