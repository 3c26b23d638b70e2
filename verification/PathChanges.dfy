/** What a change of the recorded path can do to a call under way while no wallet is counted. */
module PathChanges {
  import opened Types
  import opened Protocol
  import opened Shape
  import opened Runs
  import opened DatabaseTheorems
  import D = Database
  import Locks
  import Slots
  import Maintenance
  import Handles
  import Invariant
  import Revocation
  import Supersession
  import SessionTheorems
  import WaitGraph
  import Drain

  // ----- abandon_send -----

  /** From the abandon's first step to the opening of the database it writes to. */
  predicate BeforeWrite(op: Op) {
    && op.call.Abandon?
    && (op.pc.Entry? || op.pc.PassCheck? || op.pc.MaintWait? || op.pc.MaintOpen? || op.pc.MaintCheck?
        || op.pc.StopScans? || op.pc.AwaitStop? || op.pc.WriteOpen?)
  }

  /** All went well so far: the abandon opened the recorded database only, and there the wallet's name
      means the account it read, or will read. */
  predicate OnPath(sh: Shared, op: Op, path: Path) {
    && BeforeWrite(op)
    && D.DbPath(sh.db) == Some(path)
    && (forall k :: 0 <= k < |op.conns| ==> op.conns[k] == path)
    && (var found := Lookup(sh.files, path, op.call.wallet);
        found.Some? && (op.pc.Entry? || op.pc.PassCheck? || op.account == found))
  }

  lemma OwnStepOnPath(sh: Shared, i: CallId, op: Op, path: Path)
    requires Shaped(op) && Maintenance.ConnsShaped(op) && OnPath(sh, op, path) && !op.pc.WriteOpen? && CanStep(sh, op)
    ensures var go := Choice(true, Completed, None);
            var after := NextShared(sh, i, op, go);
            OnPath(after, NextOp(sh, i, op, go), path) && after.db == sh.db && after.files == sh.files
  {
  }

  /** With no wallet counted only an unlock's first step touches the database state. */
  lemma OtherStepQuiet(sh: Shared, i: CallId, op: Op)
    requires Shaped(op) && CanStep(sh, op) && !op.pc.Entry? && sh.db.sessions == map[]
    ensures var after := NextShared(sh, i, op, Choice(false, Completed, None));
            after.db == sh.db && after.files == sh.files
  {
    hide NextKeys, NextGates, NextMaint, NextScans, NextReplacedBy, NextLedger;
  }

  lemma StepOnPath(s: State, i: CallId, path: Path) returns (a: Action)
    requires AllShaped(s) && Locks.Inv(s) && Slots.Inv(s)
    requires i in s.ops && Maintenance.ConnsShaped(s.ops[i])
    requires OnPath(s.sh, s.ops[i], path) && !s.ops[i].pc.WriteOpen?
    requires s.sh.db.sessions == map[]
    ensures Enabled(s, a) && Drain.Total(Apply(s, a).ops) < Drain.Total(s.ops)
    ensures var t := Apply(s, a);
            i in t.ops && OnPath(t.sh, t.ops[i], path) && t.sh.db == s.sh.db && t.sh.files == s.sh.files
  {
    var e := WaitGraph.ChainEnd(s, i);
    assert CanStep(s.sh, s.ops[e]) && (e != i ==> !s.ops[e].pc.Entry?);
    a := Advance(e, Choice(e == i, Completed, None));
    hide Locks.Inv, Slots.Inv, Maintenance.ConnsShaped, Shaped, OnPath;
    Drain.AdvanceSpends(s, e, a.choice);
    if e == i {
      OwnStepOnPath(s.sh, i, s.ops[i], path);
    } else {
      OtherStepQuiet(s.sh, e, s.ops[e]);
    }
  }

  lemma InvGives(s: State, i: CallId)
    requires Invariant.Inv(s) && i in s.ops
    ensures AllShaped(s) && Locks.Inv(s) && Slots.Inv(s) && Maintenance.ConnsShaped(s.ops[i]) && D.PoolInv(s.sh.db)
  {
    hide AllShaped, Locks.Inv, Slots.Inv, Maintenance.ConnsShaped, D.PoolInv, Handles.Inv, Revocation.Inv, Supersession.Inv;
  }

  lemma {:induction false} DriveToWrite(s: State, i: CallId, path: Path) returns (acts: seq<Action>)
    requires Invariant.Inv(s) && i in s.ops && OnPath(s.sh, s.ops[i], path) && s.sh.db.sessions == map[]
    ensures Legal(s, acts)
    ensures var t := After(s, acts);
            && i in t.ops && OnPath(t.sh, t.ops[i], path) && t.ops[i].pc.WriteOpen?
            && t.sh.db == s.sh.db && t.sh.files == s.sh.files && Invariant.Inv(t)
    decreases Drain.Total(s.ops)
  {
    InvGives(s, i);
    hide Invariant.Inv, OnPath, AllShaped, Locks.Inv, Slots.Inv, Maintenance.ConnsShaped;
    if s.ops[i].pc.WriteOpen? {
      acts := [];
    } else {
      var a := StepOnPath(s, i, path);
      Invariant.ApplyInv(s, a);
      var rest := DriveToWrite(Apply(s, a), i, path);
      acts := [a] + rest;
      assert acts[1..] == rest;
    }
  }

  lemma WriteElsewhere(s: State, i: CallId, path: Path, other: Path)
    requires i in s.ops && Maintenance.ConnsShaped(s.ops[i]) && D.PoolInv(s.sh.db)
    requires OnPath(s.sh, s.ops[i], path) && s.ops[i].pc.WriteOpen?
    requires s.sh.db.sessions == map[]
    ensures Enabled(s, RecordPath(other)) && Enabled(Apply(s, RecordPath(other)), Advance(i, Choice(true, Completed, None)))
    ensures var t := Apply(Apply(s, RecordPath(other)), Advance(i, Choice(true, Completed, None)));
            && i in t.ops && t.ops[i].pc.Write? && t.ops[i].conns == [path, path, other]
            && t.ops[i].account == Lookup(s.sh.files, path, t.ops[i].call.wallet) && t.ops[i].account.Some?
            && t.sh.files == s.sh.files
  {
    var sh := s.sh.(db := D.SetPath(s.sh.db, other).value);
    OpensOther(sh, i, s.ops[i], path, other);
    hide NextOp, NextShared, OnPath;
  }

  lemma OpensOther(sh: Shared, i: CallId, op: Op, path: Path, other: Path)
    requires op.call.Abandon? && op.pc.WriteOpen? && op.conns == [path, path] && D.DbPath(sh.db) == Some(other)
    ensures var go := Choice(true, Completed, None);
            var after := NextOp(sh, i, op, go);
            && after.pc.Write? && after.conns == [path, path, other] && after.account == op.account
            && after.call == op.call && NextShared(sh, i, op, go).files == sh.files
  {
  }

  /** From every reached state without a count in which an abandon has gone well so far and has yet to
      open the database it writes to, recording another path sends its write there: to the number of
      the account it checked, in a database whose passphrase it never saw. */
  lemma AbandonCanGoAstray(s: State, i: CallId, path: Path, other: Path) returns (acts: seq<Action>)
    requires Reachable(s) && i in s.ops && OnPath(s.sh, s.ops[i], path) && s.sh.db.sessions == map[]
    ensures Legal(s, acts)
    ensures var t := After(s, acts);
            && i in t.ops && t.ops[i].pc.Write? && t.ops[i].conns == [path, path, other]
            && t.ops[i].account == Lookup(s.sh.files, path, t.ops[i].call.wallet) && t.ops[i].account.Some?
            && t.sh.files == s.sh.files
  {
    assert Invariant.Inv(s) by {
      Reached(s);
    }
    var before := DriveToWrite(s, i, path);
    var t := After(s, before);
    InvGives(t, i);
    WriteElsewhere(t, i, path, other);
    hide OnPath, Invariant.Inv, Enabled, Apply;
    var last := [RecordPath(other), Advance(i, Choice(true, Completed, None))];
    TwoSteps(t, last[0], last[1]);
    AfterBoth(s, before, last);
    CallStays(s, before, i);
    acts := before + last;
    CallStays(s, acts, i);
  }

  lemma TwoSteps(s: State, a: Action, b: Action)
    requires Enabled(s, a) && Enabled(Apply(s, a), b)
    ensures Legal(s, [a, b]) && After(s, [a, b]) == Apply(Apply(s, a), b)
  {
    assert [a, b][1..] == [b] && [b][1..] == [];
    var t := Apply(Apply(s, a), b);
    assert Legal(t, []) && After(t, []) == t;
    assert Legal(Apply(s, a), [b]) && After(Apply(s, a), [b]) == t;
  }

  // ----- a run that goes wrong -----

  /** Two databases are known, each with one wallet, nothing is unlocked, and an abandon arrives. */
  lemma AbandonArrives(p1: Path, p2: Path, w: Wallet, v: Wallet) returns (s: State)
    requires p1 != p2 && w != v
    ensures Reachable(s) && s.sh.db.sessions == map[] && D.DbPath(s.sh.db) == Some(p1)
    ensures 0 in s.ops && s.ops[0] == NewOp(Abandon(w))
    ensures Lookup(s.sh.files, p1, w) == Some(0) && Lookup(s.sh.files, p2, v) == Some(0)
    ensures Lookup(s.sh.files, p2, w) == None
  {
    InitReachable();
    s := Init();
    ReachableApply(s, RecordPath(p2));
    s := Apply(s, RecordPath(p2));
    ReachableApply(s, AddAccount(p2, v));
    s := Apply(s, AddAccount(p2, v));
    ReachableApply(s, RecordPath(p1));
    s := Apply(s, RecordPath(p1));
    ReachableApply(s, AddAccount(p1, w));
    s := Apply(s, AddAccount(p1, w));
    ReachableApply(s, Begin(0, Abandon(w)));
    s := Apply(s, Begin(0, Abandon(w)));
  }

  /** So an abandon of wallet `w` can write under its account number to a database that has no wallet
      `w`, and where that number is the account of wallet `v`. */
  lemma AbandonWritesElsewhere(p1: Path, p2: Path, w: Wallet, v: Wallet) returns (t: State)
    requires p1 != p2 && w != v
    ensures Reachable(t) && 0 in t.ops && t.ops[0].call == Abandon(w) && t.ops[0].pc.Write?
    ensures t.ops[0].conns == [p1, p1, p2] && t.ops[0].account == Some(0)
    ensures Lookup(t.sh.files, p1, w) == Some(0)
    ensures Lookup(t.sh.files, p2, w) == None && Lookup(t.sh.files, p2, v) == Some(0)
  {
    var s := AbandonArrives(p1, p2, w, v);
    var acts := AbandonCanGoAstray(s, 0, p1, p2);
    CallStays(s, acts, 0);
    ReachableAfter(s, acts);
    t := After(s, acts);
  }

  // ----- scans -----

  /** From every reached state without a count in which a scan has taken the database path and not yet
      checked its wallet, recording another path makes it check in another database than it scans. */
  lemma ScanCanCheckElsewhere(s: State, i: CallId, other: Path)
    requires Reachable(s) && i in s.ops && s.ops[i].call.Scan? && s.ops[i].pc.PathKnown?
    requires s.sh.db.sessions == map[]
    ensures Enabled(s, RecordPath(other)) && Enabled(Apply(s, RecordPath(other)), Advance(i, Choice(true, Completed, None)))
    ensures var t := Apply(Apply(s, RecordPath(other)), Advance(i, Choice(true, Completed, None)));
            i in t.ops && t.ops[i].pc.Connected? && t.ops[i].conns == s.ops[i].conns + [other] && |t.ops[i].conns| == 2
  {
    assert Shaped(s.ops[i]) && Maintenance.ConnsShaped(s.ops[i]) by {
      ReachedScans(s);
    }
    assert s.sh.db.open.None? by {
      SessionTheorems.PoolFollowsCounts(s);
    }
    ChecksElsewhere(s.sh.(db := D.SetPath(s.sh.db, other).value), i, s.ops[i], other);
    hide NextOp, NextShared, Shaped, Maintenance.ConnsShaped;
  }

  lemma ChecksElsewhere(sh: Shared, i: CallId, op: Op, other: Path)
    requires Shaped(op) && op.pc.PathKnown? && D.DbPath(sh.db) == Some(other) && Maintenance.ConnsShaped(op)
    ensures var after := NextOp(sh, i, op, Choice(true, Completed, None));
            CanStep(sh, op) && after.pc.Connected? && after.conns == op.conns + [other] && |after.conns| == 2
  {
  }
}
