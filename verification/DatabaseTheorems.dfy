/** Which database a call acts on: connections follow the recorded path, and that can change. */
module DatabaseTheorems {
  import opened Types
  import opened Protocol
  import opened Shape
  import opened Runs
  import D = Database
  import Maintenance
  import SessionTheorems

  // ----- while a wallet is counted -----

  /** Some wallet is counted in every state of the run. */
  predicate CountedThroughout(s: State, acts: seq<Action>)
    requires Legal(s, acts)
    decreases |acts|
  {
    s.sh.db.sessions != map[] && (acts == [] || CountedThroughout(Apply(s, acts[0]), acts[1..]))
  }

  /** From the `n`-th on, every database the call opened is `path`. */
  predicate OpensOnly(op: Op, n: nat, path: Path) {
    |op.conns| >= n && forall k :: n <= k < |op.conns| ==> op.conns[k] == path
  }

  lemma OpensStep(s: State, a: Action, i: CallId, n: nat, path: Path)
    requires Enabled(s, a) && i in s.ops && D.DbPath(s.sh.db) == Some(path) && OpensOnly(s.ops[i], n, path)
    ensures var t := Apply(s, a);
            i in t.ops && t.ops[i].call == s.ops[i].call && OpensOnly(t.ops[i], n, path)
  {
    hide NextPc, NextShared, NextGen, NextEpochSeen, TakesSlot, Claims, CanStep;
  }

  /** As long as a wallet is counted, every connection that any call opens is to the one database that
      is open. */
  lemma {:induction false} SteadyConnections(s: State, acts: seq<Action>, i: CallId, n: nat, path: Path)
    requires Reachable(s) && Legal(s, acts) && CountedThroughout(s, acts)
    requires i in s.ops && D.DbPath(s.sh.db) == Some(path) && OpensOnly(s.ops[i], n, path)
    ensures var t := After(s, acts);
            && i in t.ops && t.ops[i].call == s.ops[i].call && OpensOnly(t.ops[i], n, path)
            && D.DbPath(t.sh.db) == Some(path)
    decreases |acts|
  {
    if acts == [] {
    } else {
      var next := Apply(s, acts[0]);
      SessionTheorems.PathFixedWhileCounted(s, acts[0]);
      SessionTheorems.PoolFollowsCounts(s);
      ReachableApply(s, acts[0]);
      SessionTheorems.PoolFollowsCounts(next);
      OpensStep(s, acts[0], i, n, path);
      SteadyConnections(next, acts[1..], i, n, path);
    }
  }

  /** Another path can be recorded exactly while no wallet is counted. */
  lemma PathCanMove(s: State, other: Path)
    requires Reachable(s) && D.DbPath(s.sh.db) != Some(other)
    ensures Enabled(s, RecordPath(other)) <==> s.sh.db.sessions == map[]
  {
    SessionTheorems.PoolFollowsCounts(s);
  }

  /** Recording is refused exactly for another path while some wallet is counted, and a recorded path
      is the one that calls then get; nothing else changes. */
  lemma RecordedIsUsed(s: State, path: Path)
    requires Reachable(s)
    ensures Enabled(s, RecordPath(path)) <==> D.DbPath(s.sh.db) == Some(path) || s.sh.db.sessions == map[]
    ensures Enabled(s, RecordPath(path)) ==>
              var t := Apply(s, RecordPath(path));
              && D.DbPath(t.sh.db) == Some(path) && t.ops == s.ops
              && t.sh == s.sh.(db := s.sh.db.(path := Some(path)))
  {
    SessionTheorems.PoolFollowsCounts(s);
  }

  // ----- abandon_send -----

  /** If some wallet is counted in every state from one in which the abandon has opened no database but
      the recorded one (such as its first) to its write, then it writes to the database whose passphrase
      it checked, and there the wallet's name still means the account it checked. */
  lemma AbandonActsOnItsAccount(s: State, acts: seq<Action>, i: CallId, path: Path)
    requires Reachable(s) && i in s.ops && s.ops[i].call.Abandon?
    requires D.DbPath(s.sh.db) == Some(path) && OpensOnly(s.ops[i], 0, path)
    requires Legal(s, acts) && CountedThroughout(s, acts)
    requires i in After(s, acts).ops && After(s, acts).ops[i].pc.Write?
    ensures var t := After(s, acts);
            var op := t.ops[i];
            && op.conns == [path, path, path]
            && op.account.Some? && Lookup(t.sh.files, path, op.call.wallet) == op.account
  {
    SteadyConnections(s, acts, i, 0, path);
    ReachableAfter(s, acts);
    AbandonAtWrite(After(s, acts), i);
  }

  /** At its first step a call has opened no database. */
  lemma OpensNoneAtFirst(s: State, i: CallId, path: Path)
    requires Reachable(s) && i in s.ops && s.ops[i].pc.Entry? && s.ops[i].call.Abandon?
    ensures OpensOnly(s.ops[i], 0, path)
  {
    assert Maintenance.ConnsShaped(s.ops[i]) by {
      ReachedDatabases(s);
    }
  }

  lemma ReachedDatabases(s: State)
    requires Reachable(s)
    ensures Maintenance.ConnsInv(s) && Maintenance.AccountInv(s)
  {
    ReachedScans(s);
  }

  /** In every run, the database of the account re-check still has the account under the wallet's name
      when the abandon writes. */
  lemma AbandonAtWrite(s: State, i: CallId)
    requires Reachable(s) && i in s.ops && s.ops[i].call.Abandon? && s.ops[i].pc.Write?
    ensures var op := s.ops[i];
            |op.conns| == 3 && op.account.Some? && Lookup(s.sh.files, op.conns[1], op.call.wallet) == op.account
  {
    assert Maintenance.ConnsShaped(s.ops[i]) by {
      ReachedDatabases(s);
    }
    assert Maintenance.StillFound(s.sh.files, s.ops[i]) by {
      ReachedDatabases(s);
      assert Maintenance.PassedCheck(s.ops[i]);
    }
  }

  // ----- the account it checked -----

  predicate HasAccount(op: Op) {
    op.account.Some?
  }

  lemma AccountReadStep(s: State, i: CallId, ch: Choice)
    requires Reachable(s) && Enabled(s, Advance(i, ch))
    ensures !HasAccount(s.ops[i]) && HasAccount(NextOp(s.sh, i, s.ops[i], ch)) ==>
              s.ops[i].pc.PassCheck? && NextOp(s.sh, i, s.ops[i], ch).account == Found(s.sh, s.ops[i])
    ensures HasAccount(s.ops[i]) ==> NextOp(s.sh, i, s.ops[i], ch).account == s.ops[i].account
    ensures s.ops[i].conns <= NextOp(s.sh, i, s.ops[i], ch).conns
  {
    assert Shaped(s.ops[i]) by {
      ReachedScans(s);
    }
  }

  lemma {:induction false} AccountStays(s: State, acts: seq<Action>, i: CallId)
    requires Reachable(s) && Legal(s, acts) && i in s.ops && HasAccount(s.ops[i])
    ensures var t := After(s, acts);
            i in t.ops && t.ops[i].account == s.ops[i].account && s.ops[i].conns <= t.ops[i].conns
    decreases |acts|
  {
    if acts == [] {
    } else {
      if acts[0].Advance? {
        AccountReadStep(s, acts[0].i, acts[0].choice);
      }
      ReachableApply(s, acts[0]);
      AccountStays(Apply(s, acts[0]), acts[1..], i);
    }
  }

  /** The account of an abandon is the one that its wallet's name meant when it checked the passphrase,
      in the first database it opened. */
  lemma AccountWasChecked(acts: seq<Action>, i: CallId) returns (k: nat)
    requires Legal(Init(), acts) && i in After(Init(), acts).ops
    requires After(Init(), acts).ops[i].call.Abandon? && HasAccount(After(Init(), acts).ops[i])
    ensures k < |acts| && Legal(Init(), acts[..k])
    ensures var t, op := After(Init(), acts[..k]), After(Init(), acts).ops[i];
            && i in t.ops && t.ops[i].pc.PassCheck? && acts[k].Advance? && acts[k].i == i
            && |op.conns| > 0 && t.ops[i].conns == [op.conns[0]]
            && Lookup(t.sh.files, op.conns[0], t.ops[i].call.wallet) == op.account
  {
    k := Crossed(Init(), acts, i, HasAccount);
    SplitRun(Init(), acts, k);
    assert acts[k..] == [acts[k]] + acts[k + 1..];
    var t := After(Init(), acts[..k]);
    assert Reachable(t);
    CallStays(t, acts[k..], i);
    AccountFrom(t, acts[k], acts[k + 1..], i);
  }

  /** The step that reads the account, and the run after it. */
  lemma AccountFrom(t: State, a: Action, rest: seq<Action>, i: CallId)
    requires Reachable(t) && Enabled(t, a) && a.Advance? && a.i == i && Legal(Apply(t, a), rest)
    requires t.ops[i].call.Abandon? && !HasAccount(t.ops[i]) && HasAccount(NextOp(t.sh, i, t.ops[i], a.choice))
    ensures i in After(Apply(t, a), rest).ops
    ensures var op := After(Apply(t, a), rest).ops[i];
            && t.ops[i].pc.PassCheck? && |op.conns| > 0 && t.ops[i].conns == [op.conns[0]]
            && Lookup(t.sh.files, op.conns[0], t.ops[i].call.wallet) == op.account
  {
    AccountReadStep(t, i, a.choice);
    ReachableApply(t, a);
    CallStays(Apply(t, a), rest, i);
    AccountStays(Apply(t, a), rest, i);
    assert Maintenance.ConnsShaped(t.ops[i]) by {
      ReachedDatabases(t);
    }
  }

  lemma {:induction false} CallStays(s: State, acts: seq<Action>, i: CallId)
    requires Legal(s, acts) && i in s.ops
    ensures i in After(s, acts).ops && After(s, acts).ops[i].call == s.ops[i].call
    decreases |acts|
  {
    if acts == [] {
    } else {
      CallStays(Apply(s, acts[0]), acts[1..], i);
    }
  }

  // ----- scans -----

  /** If some wallet is counted from before a scan takes the database path until it checks that its
      wallet is unlocked, it checks in the database that it will scan. */
  lemma ScanChecksWhatItReads(s: State, acts: seq<Action>, i: CallId, path: Path)
    requires Reachable(s) && i in s.ops && s.ops[i].call.Scan?
    requires D.DbPath(s.sh.db) == Some(path) && OpensOnly(s.ops[i], 0, path)
    requires Legal(s, acts) && CountedThroughout(s, acts)
    requires i in After(s, acts).ops && After(s, acts).ops[i].pc.Connected?
    ensures After(s, acts).ops[i].conns == [path, path]
  {
    SteadyConnections(s, acts, i, 0, path);
    ReachableAfter(s, acts);
    assert Maintenance.ConnsShaped(After(s, acts).ops[i]) by {
      ReachedDatabases(After(s, acts));
    }
  }
}
