/** `src/api/scanner.rs`: the state behind `SCAN_STATE` and what each of its critical sections
    does. A scan's cancel token, superseded flag and stopped token are named by the call that
    created them, so the fired tokens are sets of calls. */
module ScanTable {
  import opened Types

  datatype Priority = Foreground | Background

  /** `ScanController`; `run` names the call whose tokens it holds. */
  datatype Controller = Controller(id: nat, priority: Priority, run: CallId)

  datatype Table = Table(issued: set<nat>,
                         stoppedBeforeStart: set<nat>,
                         starting: map<nat, Wallet>,
                         running: map<Wallet, Controller>,
                         cancelled: set<CallId>,
                         superseded: set<CallId>,
                         stopped: set<CallId>)

  function Initial(): Table {
    Table({}, {}, map[], map[], {}, {}, {})
  }

  function Issue(t: Table, id: nat): Table {
    t.(issued := t.issued + {id})
  }

  /** The critical section of `stop_scan`: the new table and the scan to wait for. */
  function StopHandle(t: Table, w: Wallet, id: nat): (Table, Option<CallId>) {
    if id in t.issued then
      (t.(issued := t.issued - {id}, stoppedBeforeStart := t.stoppedBeforeStart + {id}), None)
    else if id in t.starting then
      (t.(starting := t.starting - {id}), None)
    else if w in t.running && t.running[w].id == id then
      (t.(cancelled := t.cancelled + {t.running[w].run}), Some(t.running[w].run))
    else
      (t, None)
  }

  /** `cancel_wallet_scans`. */
  function CancelWallet(t: Table, w: Wallet): (Table, Option<CallId>) {
    var rest := t.(starting := map id | id in t.starting && t.starting[id] != w :: t.starting[id]);
    if w in t.running then
      (rest.(cancelled := t.cancelled + {t.running[w].run}), Some(t.running[w].run))
    else
      (rest, None)
  }

  /** `clear_scan_if_current`. */
  function ClearIfCurrent(t: Table, w: Wallet, id: nat): Table {
    if w in t.running && t.running[w].id == id then t.(running := t.running - {w}) else t
  }

  datatype ClaimResult = WasStopped | AlreadyUsed | Fresh

  /** The critical section of `claim_and_scan`. */
  function Claim(t: Table, id: nat, w: Wallet): (Table, ClaimResult) {
    if id in t.stoppedBeforeStart then
      (t.(stoppedBeforeStart := t.stoppedBeforeStart - {id}), WasStopped)
    else if id !in t.issued then
      (t, AlreadyUsed)
    else
      (t.(issued := t.issued - {id}, starting := t.starting[id := w]), Fresh)
  }

  function Unstart(t: Table, id: nat): Table {
    t.(starting := t.starting - {id})
  }

  /** A running Foreground scan that a Background start must not replace. */
  predicate Refuses(t: Table, w: Wallet, priority: Priority) {
    && w in t.running
    && t.running[w].priority == Foreground
    && priority == Background
    && t.running[w].run !in t.cancelled
    && t.running[w].run !in t.stopped
  }

  datatype SlotResult = Dropped | ForegroundScanActive | Taken(previous: Option<Controller>)

  /** `take_slot`. */
  function TakeSlot(t: Table, w: Wallet, c: Controller): (Table, SlotResult) {
    if Refuses(t, w, c.priority) then
      (t, ForegroundScanActive)
    else
      var inserted := t.(running := t.running[w := c]);
      if w in t.running then
        var replaced := t.running[w].run;
        (inserted.(superseded := if replaced in t.cancelled then t.superseded else t.superseded + {replaced},
                   cancelled := t.cancelled + {replaced}),
         Taken(Some(t.running[w])))
      else
        (inserted, Taken(None))
  }

  /** The critical section of `scan`: leave `starting` (a stop may have removed the scan from it),
      then `take_slot`. */
  function EnterSlot(t: Table, w: Wallet, c: Controller): (Table, SlotResult) {
    if c.id !in t.starting then (t, Dropped) else TakeSlot(Unstart(t, c.id), w, c)
  }

  function FireStopped(t: Table, run: CallId): Table {
    t.(stopped := t.stopped + {run})
  }

  function CancelToken(t: Table, run: CallId): Table {
    t.(cancelled := t.cancelled + {run})
  }
}
