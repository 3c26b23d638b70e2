/** Runs: what holds in every state that some run reaches. */
module Runs {
  import opened Types
  import opened Protocol
  import opened Shape
  import D = Database
  import Locks
  import Sessions
  import Counting
  import Handles
  import Slots
  import Maintenance
  import Revocation
  import ScanRecords
  import Supersession
  import Invariant

  /** Some run from the empty state leads to `s`. */
  ghost predicate Reachable(s: State) {
    exists acts :: Legal(Init(), acts) && After(Init(), acts) == s
  }

  lemma Reached(s: State)
    requires Reachable(s)
    ensures Invariant.Inv(s)
  {
    var acts :| Legal(Init(), acts) && After(Init(), acts) == s;
    Invariant.InitInv();
    Invariant.RunInv(Init(), acts);
  }

  lemma ReachedSessions(s: State)
    requires Reachable(s)
    ensures AllShaped(s) && D.Inv(s.sh.db) && Sessions.GenInv(s) && Sessions.LiveInv(s) && Sessions.OrphanInv(s)
    ensures Counting.Inv(s)
  {
    Reached(s);
  }

  lemma ReachedScans(s: State)
    requires Reachable(s)
    ensures AllShaped(s) && Locks.Inv(s) && Handles.Inv(s) && Slots.Inv(s)
    ensures Maintenance.StoppedInv(s) && Maintenance.StoppingInv(s) && Maintenance.ConnsInv(s) && Maintenance.AccountInv(s)
    ensures Revocation.Inv(s) && Supersession.Inv(s) && ScanRecords.Inv(s)
  {
    Reached(s);
  }

  /** A run that goes on from a reached state reaches its last state. */
  lemma {:induction false} AfterBoth(s: State, first: seq<Action>, rest: seq<Action>)
    requires Legal(s, first) && Legal(After(s, first), rest)
    ensures Legal(s, first + rest) && After(s, first + rest) == After(After(s, first), rest)
    decreases |first|
  {
    if first == [] {
      assert first + rest == rest;
    } else {
      assert (first + rest)[1..] == first[1..] + rest;
      AfterBoth(Apply(s, first[0]), first[1..], rest);
    }
  }

  lemma ReachableAfter(s: State, acts: seq<Action>)
    requires Reachable(s) && Legal(s, acts)
    ensures Reachable(After(s, acts))
  {
    var before :| Legal(Init(), before) && After(Init(), before) == s;
    AfterBoth(Init(), before, acts);
  }

  lemma InitReachable()
    ensures Reachable(Init())
  {
    assert Legal(Init(), []) && After(Init(), []) == Init();
  }

  lemma ReachableApply(s: State, a: Action)
    requires Reachable(s) && Enabled(s, a)
    ensures Reachable(Apply(s, a))
  {
    assert Legal(Apply(s, a), []);
    assert Legal(s, [a]);
    assert After(s, [a]) == Apply(s, a);
    ReachableAfter(s, [a]);
  }

  /** In step `k` of the run call `i` moves from where `p` does not hold to where it does. */
  ghost predicate Crosses(s: State, acts: seq<Action>, k: nat, i: CallId, p: Op -> bool)
    requires k < |acts| && Legal(s, acts[..k])
  {
    var t := After(s, acts[..k]);
    && acts[k].Advance? && acts[k].i == i && Enabled(t, acts[k])
    && !p(t.ops[i]) && p(NextOp(t.sh, i, t.ops[i], acts[k].choice))
  }

  /** A call that has got somewhere got there in a step of the run. */
  lemma {:induction false} Crossed(s: State, acts: seq<Action>, i: CallId, p: Op -> bool) returns (k: nat)
    requires Legal(s, acts) && forall call :: !p(NewOp(call))
    requires !(i in s.ops && p(s.ops[i])) && i in After(s, acts).ops && p(After(s, acts).ops[i])
    ensures k < |acts| && Legal(s, acts[..k]) && Crosses(s, acts, k, i, p)
    decreases |acts|
  {
    var next := Apply(s, acts[0]);
    if i in next.ops && p(next.ops[i]) {
      k := 0;
    } else {
      var later := Crossed(next, acts[1..], i, p);
      k := later + 1;
      assert acts[..k][1..] == acts[1..][..later];
    }
  }

  /** The same for a run from the empty state, with what is known there. */
  lemma CrossedInRun(acts: seq<Action>, i: CallId, p: Op -> bool) returns (k: nat)
    requires Legal(Init(), acts) && forall call :: !p(NewOp(call))
    requires i in After(Init(), acts).ops && p(After(Init(), acts).ops[i])
    ensures k < |acts| && Legal(Init(), acts[..k]) && acts[k].Advance? && acts[k].i == i
    ensures var t := After(Init(), acts[..k]);
            && Reachable(t) && Enabled(t, acts[k]) && Shaped(t.ops[i])
            && !p(t.ops[i]) && p(NextOp(t.sh, i, t.ops[i], acts[k].choice))
  {
    k := Crossed(Init(), acts, i, p);
    var t := After(Init(), acts[..k]);
    assert Reachable(t);
    assert Shaped(t.ops[i]) by {
      ReachedScans(t);
    }
  }

  /** Step `k` of the run is one of call `i`, of the kind that `does` says. */
  ghost predicate StepIs(acts: seq<Action>, k: nat, i: CallId, does: (Shared, CallId, Op, Choice) -> bool) {
    && k < |acts| && Legal(Init(), acts[..k]) && acts[k].Advance? && acts[k].i == i
    && var t := After(Init(), acts[..k]);
       i in t.ops && CanStep(t.sh, t.ops[i]) && does(t.sh, i, t.ops[i], acts[k].choice)
  }

  lemma StepOfPrefix(acts: seq<Action>, n: nat, k: nat, i: CallId, does: (Shared, CallId, Op, Choice) -> bool)
    requires n <= |acts| && StepIs(acts[..n], k, i, does)
    ensures StepIs(acts, k, i, does)
  {
    assert acts[..n][..k] == acts[..k];
  }

  /** A run goes on from each of its states. */
  lemma {:induction false} SplitRun(s: State, acts: seq<Action>, k: nat)
    requires Legal(s, acts) && k < |acts|
    ensures Legal(s, acts[..k])
    ensures var t := After(s, acts[..k]);
            && Enabled(t, acts[k]) && Legal(t, acts[k..]) && Legal(Apply(t, acts[k]), acts[k + 1..])
            && After(t, acts[k..]) == After(s, acts) == After(Apply(t, acts[k]), acts[k + 1..])
    decreases k
  {
    if k == 0 {
      assert acts[0..] == acts;
    } else {
      SplitRun(Apply(s, acts[0]), acts[1..], k - 1);
      assert acts[..k][1..] == acts[1..][..k - 1] && acts[1..][k - 1..] == acts[k..] && acts[1..][k..] == acts[k + 1..];
    }
  }
}
