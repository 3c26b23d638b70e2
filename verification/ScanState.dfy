/** `SCAN_STATE` as the source updates it: maps and sets replaced under its write lock, and cancel
    tokens, superseded flags and stopped tokens shared with the running scans and fired in place.
    Each method is one critical section and leaves the table that `ScanTable` says. */
module ScanStateCell {
  import opened Types
  import T = ScanTable

  class CancellationToken {
    var fired: bool

    constructor ()
      ensures !fired
    {
      fired := false;
    }

    method Cancel()
      modifies this
      ensures fired
    {
      fired := true;
    }
  }

  class AtomicFlag {
    var raised: bool

    constructor ()
      ensures !raised
    {
      raised := false;
    }

    method Store()
      modifies this
      ensures raised
    {
      raised := true;
    }
  }

  /** `ScanController`; `run` names the call that created its tokens. */
  datatype Controller = Controller(id: nat, priority: T.Priority, run: CallId,
                                   token: CancellationToken, superseded: AtomicFlag, stopped: CancellationToken)

  function Named(c: Controller): T.Controller {
    T.Controller(c.id, c.priority, c.run)
  }

  class ScanState {
    var issued: set<nat>
    var stoppedBeforeStart: set<nat>
    var starting: map<nat, Wallet>
    var running: map<Wallet, Controller>
    /** Every scan whose tokens were ever made. */
    ghost var made: map<CallId, Controller>
    /** The table that the fields and tokens stand for. */
    ghost var table: T.Table

    ghost function Tokens(): set<object>
      reads this
    {
      (set r | r in made :: made[r].token as object) +
      (set r | r in made :: made[r].superseded as object) +
      (set r | r in made :: made[r].stopped as object)
    }

    /** No two scans share a token, and the slots hold controllers of scans that were made. */
    ghost predicate Distinct()
      reads this
    {
      && (forall r, q :: r in made && q in made ==> made[r].token != made[q].stopped)
      && (forall r, q :: r in made && q in made && r != q ==>
            made[r].token != made[q].token && made[r].superseded != made[q].superseded
            && made[r].stopped != made[q].stopped)
      && (forall w :: w in running ==> running[w].run in made && made[running[w].run] == running[w])
    }

    ghost predicate Valid()
      reads this, Tokens()
    {
      && Distinct()
      && table.issued == issued && table.stoppedBeforeStart == stoppedBeforeStart && table.starting == starting
      && table.running.Keys == running.Keys
      && (forall w :: w in running ==> table.running[w] == Named(running[w]))
      && (forall r :: r in table.cancelled <==> r in made && made[r].token.fired)
      && (forall r :: r in table.superseded <==> r in made && made[r].superseded.raised)
      && (forall r :: r in table.stopped <==> r in made && made[r].stopped.fired)
    }

    constructor ()
      ensures Valid() && table == T.Initial() && made == map[]
    {
      issued, stoppedBeforeStart, starting, running, made := {}, {}, map[], map[], map[];
      table := T.Initial();
    }

    /** The tokens a scan makes before it asks for its slot. */
    method MakeTokens(run: CallId, id: nat, priority: T.Priority) returns (c: Controller)
      requires Valid() && run !in made
      modifies this`made
      ensures Valid() && table == old(table)
      ensures made == old(made)[run := c] && Named(c) == T.Controller(id, priority, run)
      ensures fresh(c.token) && fresh(c.superseded) && fresh(c.stopped)
    {
      var token := new CancellationToken();
      var superseded := new AtomicFlag();
      var stopped := new CancellationToken();
      c := Controller(id, priority, run, token, superseded, stopped);
      made := made[run := c];
    }

    method RecordIssued(id: nat)
      requires Valid()
      modifies this`issued, this`table
      ensures Valid() && made == old(made) && table == T.Issue(old(table), id)
    {
      table := T.Issue(table, id);
      issued := issued + {id};
    }

    /** Fire the cancel token of a scan. */
    method CancelRun(c: Controller)
      requires Valid() && c.run in made && made[c.run] == c
      modifies this`table, c.token
      ensures Valid() && table == T.CancelToken(old(table), c.run)
    {
      c.token.Cancel();
      table := T.CancelToken(table, c.run);
    }

    /** Fire the stopped token of a scan that has returned. */
    method FireStopped(c: Controller)
      requires Valid() && c.run in made && made[c.run] == c
      modifies this`table, c.stopped
      ensures Valid() && table == T.FireStopped(old(table), c.run)
    {
      c.stopped.Cancel();
      table := T.FireStopped(table, c.run);
    }

    /** Mark a scan as replaced by a newer one. */
    method SupersedeRun(c: Controller)
      requires Valid() && c.run in made && made[c.run] == c
      modifies this`table, c.superseded
      ensures Valid() && table == old(table).(superseded := old(table).superseded + {c.run})
    {
      c.superseded.Store();
      table := table.(superseded := table.superseded + {c.run});
    }

    method StopBeforeStart(id: nat)
      requires Valid() && id in issued
      modifies this`issued, this`stoppedBeforeStart, this`table
      ensures Valid()
      ensures table == old(table).(issued := old(table).issued - {id},
                                   stoppedBeforeStart := old(table).stoppedBeforeStart + {id})
    {
      issued := issued - {id};
      stoppedBeforeStart := stoppedBeforeStart + {id};
      table := table.(issued := issued, stoppedBeforeStart := stoppedBeforeStart);
    }

    /** The locked part of `stop_scan`. */
    method StopHandle(w: Wallet, id: nat) returns (wait: Option<CancellationToken>)
      requires Valid()
      modifies this, Tokens()
      ensures Valid() && made == old(made)
      ensures table == T.StopHandle(old(table), w, id).0
      ensures match T.StopHandle(old(table), w, id).1
              case None => wait == None
              case Some(run) => run in made && wait == Some(made[run].stopped)
    {
      wait := None;
      if id in issued {
        StopBeforeStart(id);
      } else if id in starting {
        LeaveStarting(id);
      } else if w in running && running[w].id == id {
        CancelRun(running[w]);
        wait := Some(running[w].stopped);
      }
    }

    /** Forget every scan of `w` that has not taken its slot. */
    method DropStarting(w: Wallet)
      requires Valid()
      modifies this`starting, this`table
      ensures Valid()
      ensures table == old(table).(starting := map id | id in old(table).starting && old(table).starting[id] != w
                                     :: old(table).starting[id])
    {
      starting := map id | id in starting && starting[id] != w :: starting[id];
      table := table.(starting := starting);
    }

    /** `cancel_wallet_scans`. */
    method CancelWalletScans(w: Wallet) returns (wait: Option<CancellationToken>)
      requires Valid()
      modifies this, Tokens()
      ensures Valid() && made == old(made)
      ensures table == T.CancelWallet(old(table), w).0
      ensures match T.CancelWallet(old(table), w).1
              case None => wait == None
              case Some(run) => run in made && wait == Some(made[run].stopped)
    {
      DropStarting(w);
      wait := None;
      if w in running {
        CancelRun(running[w]);
        wait := Some(running[w].stopped);
      }
    }

    method ClearScanIfCurrent(w: Wallet, id: nat)
      requires Valid()
      modifies this`running, this`table
      ensures Valid() && made == old(made) && table == T.ClearIfCurrent(old(table), w, id)
    {
      table := T.ClearIfCurrent(table, w, id);
      if w in running && running[w].id == id {
        running := running - {w};
      }
    }

    /** The locked part of `claim_and_scan`. */
    method Claim(id: nat, w: Wallet) returns (result: T.ClaimResult)
      requires Valid()
      modifies this`issued, this`stoppedBeforeStart, this`starting, this`table
      ensures Valid() && made == old(made) && (table, result) == T.Claim(old(table), id, w)
    {
      table := T.Claim(table, id, w).0;
      if id in stoppedBeforeStart {
        stoppedBeforeStart := stoppedBeforeStart - {id};
        return T.WasStopped;
      }
      if id !in issued {
        return T.AlreadyUsed;
      }
      issued := issued - {id};
      starting := starting[id := w];
      return T.Fresh;
    }

    method Insert(w: Wallet, c: Controller)
      requires Valid() && c.run in made && made[c.run] == c
      modifies this`running, this`table
      ensures Valid() && running == old(running)[w := c]
      ensures table == old(table).(running := old(table).running[w := Named(c)])
    {
      running := running[w := c];
      table := table.(running := table.running[w := Named(c)]);
    }

    /** Mark the scan a newer one replaced superseded, unless it was being stopped anyway, and
        cancel it. */
    method CutOff(c: Controller)
      requires Valid() && c.run in made && made[c.run] == c
      modifies this`table, c.token, c.superseded
      ensures Valid()
      ensures table == old(table).(superseded := if c.run in old(table).cancelled then old(table).superseded
                                                 else old(table).superseded + {c.run},
                                   cancelled := old(table).cancelled + {c.run})
    {
      if !c.token.fired {
        SupersedeRun(c);
      }
      CancelRun(c);
    }

    /** Whether a running Foreground scan of `w` keeps its slot from a start of this priority. */
    method Refuses(w: Wallet, priority: T.Priority) returns (refused: bool)
      requires Valid()
      ensures refused == T.Refuses(table, w, priority)
    {
      if w !in running {
        return false;
      }
      var current := running[w];
      refused := current.priority == T.Foreground && priority == T.Background
                 && !current.token.fired && !current.stopped.fired;
    }

    /** The part of `take_slot` after its refusal check. */
    method Replace(w: Wallet, c: Controller) returns (previous: Option<Controller>)
      requires Valid() && c.run in made && made[c.run] == c
      requires !T.Refuses(table, w, c.priority)
      modifies this`running, this`table, Tokens()
      ensures Valid() && table == T.TakeSlot(old(table), w, Named(c)).0
      ensures previous == Get(old(running), w)
    {
      if w in running {
        previous := Some(running[w]);
        Insert(w, c);
        CutOff(previous.value);
      } else {
        previous := None;
        Insert(w, c);
      }
    }

    /** `take_slot`. */
    method TakeSlot(w: Wallet, c: Controller) returns (refused: bool, previous: Option<Controller>)
      requires Valid() && c.run in made && made[c.run] == c
      modifies this`running, this`table, Tokens()
      ensures Valid()
      ensures table == T.TakeSlot(old(table), w, Named(c)).0
      ensures match T.TakeSlot(old(table), w, Named(c)).1
              case Taken(p) =>
                && !refused && previous == Get(old(running), w)
                && p == (if previous.Some? then Some(Named(previous.value)) else None)
              case _ => refused && previous == None
    {
      previous := None;
      refused := Refuses(w, c.priority);
      if !refused {
        previous := Replace(w, c);
      }
    }

    /** The scan is no longer about to take a slot. */
    method LeaveStarting(id: nat)
      requires Valid()
      modifies this`starting, this`table
      ensures Valid() && table == T.Unstart(old(table), id)
    {
      starting := starting - {id};
      table := T.Unstart(table, id);
    }

    /** The locked part of `scan`: leave `starting`, then take the slot. */
    method EnterSlot(w: Wallet, c: Controller) returns (result: T.SlotResult)
      requires Valid() && c.run in made && made[c.run] == c
      modifies this`starting, this`running, this`table, Tokens()
      ensures Valid()
      ensures (table, result) == T.EnterSlot(old(table), w, Named(c))
    {
      if c.id !in starting {
        return T.Dropped;
      }
      LeaveStarting(c.id);
      var refused, previous := TakeSlot(w, c);
      if refused {
        return T.ForegroundScanActive;
      }
      result := T.Taken(if previous.Some? then Some(Named(previous.value)) else None);
    }
  }
}
