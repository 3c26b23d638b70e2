/** What a stop undoes: the critical sections of `src/api/scanner.rs` against each other. */
module StopLaws {
  import opened Types
  import opened ScanTable

  /** A handle stopped before its scan starts: the scan it is then used for is told so and nothing
      of the handle is left; used once more it is refused. */
  lemma StopThenClaim(t: Table, w: Wallet, id: nat, v: Wallet)
    requires id in t.issued && id !in t.stoppedBeforeStart
    ensures var (stopped, wait) := StopHandle(t, w, id);
            var (claimed, result) := Claim(stopped, id, v);
            && wait == None && result == WasStopped
            && claimed == t.(issued := t.issued - {id})
            && Claim(claimed, id, v) == (claimed, AlreadyUsed)
  {
    assert (t.stoppedBeforeStart + {id}) - {id} == t.stoppedBeforeStart;
  }

  /** Taken back before its slot step a claimed handle is gone: it takes no slot and changes
      nothing. */
  lemma StopThenEnter(t: Table, w: Wallet, id: nat, c: Controller)
    requires id in t.issued && id !in t.stoppedBeforeStart && id !in t.starting && c.id == id
    ensures var claimed := Claim(t, id, w).0;
            var (stopped, wait) := StopHandle(claimed, w, id);
            && wait == None
            && EnterSlot(stopped, w, c) == (stopped, Dropped)
            && stopped == t.(issued := t.issued - {id})
  {
    assert t.starting[id := w] - {id} == t.starting;
  }

  /** Cancelling a wallet's scans drops exactly its own starting scans, tells its running scan to
      stop, and leaves every other wallet's scan as it was. */
  lemma CancelIsPerWallet(t: Table, w: Wallet, v: Wallet, c: Controller)
    requires v != w
    ensures var (after, wait) := CancelWallet(t, w);
            && (c.id in t.starting && t.starting[c.id] == w ==> EnterSlot(after, w, c) == (after, Dropped))
            && (c.id in t.starting && t.starting[c.id] == v ==>
                  c.id in after.starting && EnterSlot(after, v, c).1.Dropped? == EnterSlot(t, v, c).1.Dropped?)
            && (wait.Some? <==> w in t.running)
            && (wait.Some? ==> wait.value in after.cancelled)
            && after.running == t.running
            && (forall r :: r in after.cancelled && r !in t.cancelled ==> w in t.running && t.running[w].run == r)
  {
  }

  /** The priority rules of one start: it is refused exactly for a Background start against a
      Foreground scan that nothing has stopped; a refusal changes nothing but the start's own place
      in `starting`, and otherwise the start owns the slot and the scan before it is cancelled. */
  lemma StartRules(t: Table, w: Wallet, c: Controller)
    requires c.id in t.starting
    ensures var (after, result) := EnterSlot(t, w, c);
            && c.id !in after.starting && !result.Dropped?
            && (forall v :: v != w ==> Get(after.running, v) == Get(t.running, v))
            && (result.ForegroundScanActive? <==>
                  w in t.running && t.running[w].priority.Foreground? && c.priority.Background?
                  && t.running[w].run !in t.cancelled + t.stopped)
            && (result.ForegroundScanActive? ==> after == Unstart(t, c.id))
            && (result.Taken? ==>
                  && Get(after.running, w) == Some(c)
                  && result.previous == Get(t.running, w)
                  && (w in t.running ==> t.running[w].run in after.cancelled)
                  && (forall r :: r in after.superseded && r !in t.superseded ==>
                                    w in t.running && t.running[w].run == r && r !in t.cancelled))
  {
  }

  /** Once a wallet's scans are cancelled no start of it is refused, and the scan it replaces is not
      reported as superseded. */
  lemma CancelMakesRoom(t: Table, w: Wallet, c: Controller, id: nat)
    requires c.id == id && id !in t.starting
    ensures var after := CancelWallet(t, w).0;
            var (entered, result) := EnterSlot(after.(starting := after.starting[id := w]), w, c);
            result.Taken? && entered.superseded == t.superseded && Get(entered.running, w) == Some(c)
  {
  }

  /** A stop of one handle leaves every other handle where it is, cancels no scan but the one in its
      wallet's slot under that handle, and takes no scan out of a slot. */
  lemma StopTouchesOnlyItsHandle(t: Table, w: Wallet, id: nat, other: nat)
    requires other != id
    ensures var after := StopHandle(t, w, id).0;
            && (other in after.issued <==> other in t.issued)
            && (other in after.stoppedBeforeStart <==> other in t.stoppedBeforeStart)
            && Get(after.starting, other) == Get(t.starting, other)
            && after.running == t.running && after.superseded == t.superseded && after.stopped == t.stopped
            && t.cancelled <= after.cancelled
            && (forall r :: r in after.cancelled && r !in t.cancelled ==>
                              w in t.running && t.running[w].id == id && t.running[w].run == r)
  {
  }

  /** Neither does a claim or a cancel of a wallet's scans touch a handle that is not its own. */
  lemma ClaimTouchesOnlyItsHandle(t: Table, w: Wallet, id: nat, other: nat)
    requires other != id
    ensures var after := Claim(t, id, w).0;
            && (other in after.issued <==> other in t.issued)
            && (other in after.stoppedBeforeStart <==> other in t.stoppedBeforeStart)
            && Get(after.starting, other) == Get(t.starting, other)
            && after == t.(issued := after.issued, stoppedBeforeStart := after.stoppedBeforeStart, starting := after.starting)
  {
  }
}
