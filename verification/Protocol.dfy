/** The two-engine protocol: every interleaving of the bridge calls that share `DB_STATE`, the key
    sessions, the unlock gates, the maintenance locks and `SCAN_STATE`. A step is one critical
    section, one gate or maintenance acquire or release, one key-session call, or one wait on a
    `stopped` token that has fired. */
module Protocol {
  import opened Types
  import D = Database
  import T = ScanTable

  datatype Call =
    | Unlock(wallet: Wallet, path: Path)
    | Lock(wallet: Wallet)
    | ForceLock(wallet: Wallet)
    | Change(wallet: Wallet)       // delete_wallet and rename_wallet, through with_wallet_locked
    | Passphrase(wallet: Wallet)   // change_passphrase
    | Abandon(wallet: Wallet)      // abandon_send
    | Create(wallet: Wallet)       // create_scan_handle
    | Stop(wallet: Wallet, id: nat)
    | Scan(wallet: Wallet, id: nat, priority: T.Priority)

  /** The terminal events of a scan stream. */
  datatype Ending = Completed | Cancelled | Superseded | BudgetExhausted | Error

  /** What `lock_session_gate_held` (or a confirmed unlock) decided under the gate. */
  datatype Verdict = Opened | Kept | Wiped

  datatype Outcome =
    | UnlockOk | Refused
    | Locked(all: bool)
    | Issued(id: nat)
    | Streamed(ending: Ending)
    | Returned

  datatype Pc =
    | Entry
    // unlock_wallet, after it counted
    | Queued | Probe | Verify | Reprobe | KeyUnlock | Confirm | GiveBack
    // a lock of the key session: waiting for the gate, then lock_session_gate_held
    | GateWait | LockCheck | LockKeys | CancelScans | GateDrop(verdict: Verdict)
    // stop_wallet_scans and stop_scan
    | StopScans | AwaitStop(run: CallId)
    // maintenance operations
    | PassCheck | MaintWait | MaintOpen | MaintCheck | MaintAbort | Evict | WriteOpen | Write | MaintDrop
    // create_scan_handle
    | IssueId(id: nat)
    // a scan
    | Claimed | PathKnown | Connected | Ready | AtSlot | Placed(previous: Option<CallId>) | Dismissed(ending: Ending)
    | AwaitPrevious(earlier: CallId) | InSlot | Scanning | Leaving(ending: Ending)
    | Unclaim(ending: Ending) | Finish(ending: Ending) | Sent(ending: Ending)
    | Done(outcome: Outcome)

  /** The two lock-everywhere passes of `with_wallet_locked`. */
  datatype Round = First | Second

  /** A call in flight or finished. `gen` and `account` are its local variables, `conns` the
      databases it opened or took the path of, in order; `wrote` says whether its write succeeded;
      `claimed`, `epoch` (the key session its unlocked check saw) and `turn` (when it took the slot)
      are history. */
  datatype Op = Op(call: Call, pc: Pc, round: Round,
                   gen: Option<nat>, account: Option<nat>, conns: seq<Path>, wrote: bool,
                   claimed: bool, epoch: Option<Epoch>, turn: Option<nat>)

  /** The wallets of one database file: each name's account id, and the id of the next account. */
  datatype Accounts = Accounts(ids: map<Wallet, nat>, next: nat)

  /** History of one generation: the unlocks that counted, the failed unlocks that gave their
      count back, and the `lock_wallet` calls that took one off. */
  datatype Ledger = Ledger(acquired: set<CallId>, givenBack: set<CallId>, locks: set<CallId>)

  /** Everything the calls share. */
  datatype Shared = Shared(
    db: D.Db,
    keys: map<Wallet, Epoch>,
    gates: map<Wallet, CallId>,
    maint: map<Wallet, CallId>,
    scans: T.Table,
    nextHandle: nat,
    files: map<Path, Accounts>,
    // history
    nextEpoch: Epoch,
    lost: set<Wallet>,       // wallets whose key session upstream dropped since its last unlock
    dropped: set<Epoch>,     // the key sessions it dropped
    nextTurn: nat,
    replacedBy: map<CallId, CallId>,
    ledger: map<nat, Ledger>)

  datatype State = State(sh: Shared, ops: map<CallId, Op>)

  function Init(): State {
    State(Shared(D.Initial(), map[], map[], map[], T.Initial(), 0, map[], 0, {}, {}, 0, map[], map[]), map[])
  }

  /** What the environment decides in a step: whether the work outside this model succeeds, how a
      scanner that runs to its end reports it, and the new name of a rename (`None` deletes). */
  datatype Choice = Choice(ok: bool, ending: Ending, rename: Option<Wallet>)

  function NewOp(call: Call): Op {
    Op(call, Entry, First, None, None, [], false, false, None, None)
  }

  function AccountsIn(files: map<Path, Accounts>, path: Path): Accounts {
    if path in files then files[path] else Accounts(map[], 0)
  }

  /** The account that a wallet name means in a database. */
  function Lookup(files: map<Path, Accounts>, path: Path, w: Wallet): Option<nat> {
    Get(AccountsIn(files, path).ids, w)
  }

  /** The account that the wallet's name means in the database that the call opened last. */
  function Found(sh: Shared, op: Op): Option<nat> {
    if op.conns == [] then None else Lookup(sh.files, op.conns[|op.conns| - 1], op.call.wallet)
  }

  // ----- waiting -----

  /** The call that a call at `op` waits for, if its next step has to wait. */
  function WaitsFor(sh: Shared, op: Op): Option<CallId> {
    match op.pc
    case Queued | GateWait => Get(sh.gates, op.call.wallet)
    case MaintWait | Ready => Get(sh.maint, op.call.wallet)
    case AwaitStop(run) => if run in sh.scans.stopped then None else Some(run)
    case AwaitPrevious(earlier) => if earlier in sh.scans.stopped then None else Some(earlier)
    case _ => None
  }

  predicate CanStep(sh: Shared, op: Op) {
    && !op.pc.Done?
    && WaitsFor(sh, op).None?
    && (op.pc.Entry? && op.call.Unlock? ==> D.Headroom(sh.db, op.call.wallet))
  }

  // ----- control: where a step leaves its call -----

  /** `unlock_wallet` after it counted. */
  function UnlockPc(sh: Shared, op: Op, ch: Choice): Pc {
    var w := op.call.wallet;
    match op.pc
    case Queued => Probe
    // check_and_unlock
    case Probe => if !ch.ok then GiveBack else if w in sh.keys then Verify else KeyUnlock
    case Verify => if ch.ok then Reprobe else GiveBack
    case Reprobe => if !ch.ok then GiveBack else if w in sh.keys then Confirm else KeyUnlock
    case KeyUnlock => if ch.ok then Confirm else GiveBack
    // confirm_still_counted
    case Confirm => if StillCounted(sh, op) then GateDrop(Opened) else LockCheck
    // release_failed_unlock
    case GiveBack =>
      if StillCounted(sh, op) && D.ReleaseOne(sh.db, w).1 then LockCheck else GateDrop(Kept)
    case _ => op.pc
  }

  predicate StillCounted(sh: Shared, op: Op) {
    op.gen.Some? && D.CountedAs(sh.db, op.call.wallet, op.gen.value)
  }

  /** A lock of the key session, from the gate on. */
  function LockPc(sh: Shared, op: Op): Pc {
    match op.pc
    case Evict => GateWait
    case GateWait => LockCheck
    // lock_session_gate_held
    case LockCheck => if op.call.wallet in sh.db.sessions then GateDrop(Kept) else LockKeys
    case LockKeys => CancelScans
    case CancelScans => GateDrop(Wiped)
    case GateDrop(verdict) => AfterGate(op.call, verdict)
    case _ => op.pc
  }

  function AfterGate(call: Call, verdict: Verdict): Pc {
    match call
    case Unlock(_, _) => Done(if verdict == Opened then UnlockOk else Refused)
    case Lock(_) => if verdict == Wiped then StopScans else Done(Locked(false))
    case _ => StopScans
  }

  /** The call opens a connection to the database, or takes its path, in its next step. */
  predicate OpensDatabase(op: Op) {
    || (op.pc.Entry? && (op.call.Abandon? || op.call.Passphrase?))
    || op.pc.MaintOpen? || op.pc.WriteOpen? || op.pc.Claimed? || op.pc.PathKnown?
  }

  predicate Connects(sh: Shared, op: Op, ch: Choice) {
    OpensDatabase(op) && ch.ok && D.DbPath(sh.db).Some?
  }

  /** Maintenance operations and the waiting part of every stop. */
  function MaintPc(sh: Shared, op: Op, ch: Choice): Pc {
    match op.pc
    // the passphrase check of abandon_send and change_passphrase
    case PassCheck => if ch.ok && Found(sh, op).Some? then MaintWait else Done(Refused)
    case MaintWait => if op.call.Passphrase? then StopScans else MaintOpen
    case MaintOpen =>
      if !Connects(sh, op, ch) then MaintAbort
      else if op.call.Change? then Evict
      else MaintCheck
    // same_account of abandon_send
    case MaintCheck => if ch.ok && Found(sh, op) == op.account then StopScans else MaintAbort
    case WriteOpen => if Connects(sh, op, ch) then Write else MaintDrop
    case StopScans => AwaitOr(T.CancelWallet(sh.scans, op.call.wallet).1, AfterStop(op))
    case AwaitStop(_) => AfterStop(op)
    case Write => if op.call.Change? then Evict else MaintDrop
    case MaintAbort => Done(Refused)
    case MaintDrop => Done(if op.wrote then Returned else Refused)
    case _ => op.pc
  }

  function AwaitOr(run: Option<CallId>, otherwise: Pc): Pc {
    if run.Some? then AwaitStop(run.value) else otherwise
  }

  function AfterStop(op: Op): Pc {
    match op.call
    case Lock(_) => Done(Locked(true))
    case Change(_) => if op.round == First then Write else MaintDrop
    case Passphrase(_) | Abandon(_) => WriteOpen
    case _ => Done(Returned)
  }

  /** `create_scan_handle` after it drew its id, and a scan after it claimed its handle. */
  function ScanPc(sh: Shared, i: CallId, op: Op, ch: Choice): Pc {
    match op.pc
    case IssueId(id) => Done(Issued(id))
    // get_db_path, then the connection and check of unlocked_account
    case Claimed => if Connects(sh, op, ch) then PathKnown else Unclaim(Error)
    case PathKnown => if Connects(sh, op, ch) then Connected else Unclaim(Error)
    case Connected => if ch.ok && op.call.wallet in sh.keys then Ready else Unclaim(Error)
    case Ready => AtSlot
    case AtSlot =>
      match Slot(sh, i, op).1 {
        case Dropped => Dismissed(Cancelled)
        case ForegroundScanActive => Dismissed(Error)
        case Taken(previous) => Placed(if previous.Some? then Some(previous.value.run) else None)
      }
    case Placed(previous) => if previous.Some? then AwaitPrevious(previous.value) else InSlot
    case Dismissed(ending) => Unclaim(ending)
    case AwaitPrevious(_) => InSlot
    // scan_in_slot
    case InSlot => if i in sh.scans.cancelled then Leaving(StoppedEvent(sh, i)) else Scanning
    case Scanning => Leaving(ScanEnding(sh, i, ch))
    case Leaving(ending) => Unclaim(ending)
    case Unclaim(ending) => Finish(ending)
    case Finish(ending) => Sent(ending)
    case Sent(ending) => Done(Streamed(ending))
    case _ => op.pc
  }

  /** The slot step of `scan`. */
  function Slot(sh: Shared, i: CallId, op: Op): (T.Table, T.SlotResult) {
    if op.call.Scan?
    then T.EnterSlot(sh.scans, op.call.wallet, T.Controller(op.call.id, op.call.priority, i))
    else (sh.scans, T.Dropped)
  }

  /** `stopped_event`. */
  function StoppedEvent(sh: Shared, i: CallId): Ending {
    if i in sh.scans.superseded then Superseded else Cancelled
  }

  /** The terminal event of a scan whose scanner ran: minotari reports completion, cancellation or
      an exhausted budget, and a scan that another replaced ends `Superseded`. */
  function ScanEnding(sh: Shared, i: CallId, ch: Choice): Ending {
    if !ch.ok then Error
    else if i in sh.scans.superseded then Superseded
    else if ch.ending.Completed? || ch.ending.BudgetExhausted? then ch.ending
    else Cancelled
  }

  function EntryPc(sh: Shared, op: Op, ch: Choice): Pc {
    match op.call
    case Unlock(w, path) => if D.EnterUnlock(sh.db, w, path, ch.ok).1.Some? then Queued else Done(Refused)
    case Lock(w) => if D.ReleaseOne(sh.db, w).1 then GateWait else Done(Locked(false))
    case ForceLock(_) => GateWait
    case Change(_) => if ch.ok then MaintWait else Done(Refused)
    case Passphrase(_) | Abandon(_) => if Connects(sh, op, ch) then PassCheck else Done(Refused)
    case Create(_) => IssueId(sh.nextHandle)
    case Stop(w, id) => AwaitOr(T.StopHandle(sh.scans, w, id).1, Done(Returned))
    case Scan(w, id, _) =>
      if !ch.ok then Finish(Error)   // the handle belongs to another wallet
      else match T.Claim(sh.scans, id, w).1 {
        case WasStopped => Finish(Cancelled)
        case AlreadyUsed => Finish(Error)
        case Fresh => Claimed
      }
  }

  function NextPc(sh: Shared, i: CallId, op: Op, ch: Choice): Pc {
    match op.pc
    case Entry => EntryPc(sh, op, ch)
    case Queued | Probe | Verify | Reprobe | KeyUnlock | Confirm | GiveBack => UnlockPc(sh, op, ch)
    case GateWait | LockCheck | LockKeys | CancelScans | GateDrop(_) | Evict => LockPc(sh, op)
    case StopScans | AwaitStop(_) => MaintPc(sh, op, ch)
    case PassCheck | MaintWait | MaintOpen | MaintCheck | MaintAbort | WriteOpen | Write | MaintDrop => MaintPc(sh, op, ch)
    case _ => ScanPc(sh, i, op, ch)
  }

  // ----- data: what a step does to the call's own variables -----

  function NextGen(sh: Shared, op: Op, ch: Choice): Option<nat> {
    if op.pc.Entry? && op.call.Unlock?
    then D.EnterUnlock(sh.db, op.call.wallet, op.call.path, ch.ok).1
    else op.gen
  }

  function NextAccount(sh: Shared, op: Op, ch: Choice): Option<nat> {
    if op.pc.PassCheck? && ch.ok then Found(sh, op) else op.account
  }

  function NextConns(sh: Shared, op: Op, ch: Choice): seq<Path> {
    if Connects(sh, op, ch) then op.conns + [D.DbPath(sh.db).value] else op.conns
  }

  function NextEpochSeen(sh: Shared, op: Op, ch: Choice): Option<Epoch> {
    if op.pc.Connected? && ch.ok then Get(sh.keys, op.call.wallet) else op.epoch
  }

  predicate TakesSlot(sh: Shared, i: CallId, op: Op) {
    op.pc.AtSlot? && Slot(sh, i, op).1.Taken?
  }

  predicate Claims(sh: Shared, op: Op, ch: Choice) {
    op.pc.Entry? && op.call.Scan? && ch.ok && T.Claim(sh.scans, op.call.id, op.call.wallet).1.Fresh?
  }

  function NextOp(sh: Shared, i: CallId, op: Op, ch: Choice): Op {
    Op(op.call,
       NextPc(sh, i, op, ch),
       if op.pc.Write? && op.call.Change? then Second else op.round,
       NextGen(sh, op, ch),
       NextAccount(sh, op, ch),
       NextConns(sh, op, ch),
       op.wrote || (op.pc.Write? && ch.ok),
       op.claimed || Claims(sh, op, ch),
       NextEpochSeen(sh, op, ch),
       if TakesSlot(sh, i, op) then Some(sh.nextTurn) else op.turn)
  }

  // ----- data: what a step does to each shared component -----

  function NextDb(sh: Shared, op: Op, ch: Choice): D.Db {
    var w := op.call.wallet;
    match op.pc
    case Entry =>
      match op.call {
        case Unlock(_, path) => D.EnterUnlock(sh.db, w, path, ch.ok).0
        case Lock(_) => D.ReleaseOne(sh.db, w).0
        case ForceLock(_) => D.Evict(sh.db, w)
        case _ => sh.db
      }
    case GiveBack => if op.gen.Some? then D.ReleaseFailed(sh.db, w, op.gen.value).0 else sh.db
    case Evict => D.Evict(sh.db, w)
    case _ => sh.db
  }

  /** `session::unlock` stores a new key session. */
  predicate MakesKeys(sh: Shared, op: Op, ch: Choice) {
    op.pc.KeyUnlock? && ch.ok && op.call.wallet !in sh.keys
  }

  function NextKeys(sh: Shared, op: Op, ch: Choice): map<Wallet, Epoch> {
    if MakesKeys(sh, op, ch) then sh.keys[op.call.wallet := sh.nextEpoch]
    else if op.pc.LockKeys? then sh.keys - {op.call.wallet}
    else sh.keys
  }

  function NextGates(sh: Shared, i: CallId, op: Op): map<Wallet, CallId> {
    match op.pc
    case Queued | GateWait => sh.gates[op.call.wallet := i]
    case GateDrop(_) => sh.gates - {op.call.wallet}
    case _ => sh.gates
  }

  function NextMaint(sh: Shared, i: CallId, op: Op): map<Wallet, CallId> {
    match op.pc
    case MaintWait | Ready => sh.maint[op.call.wallet := i]
    case MaintAbort | MaintDrop | Placed(_) | Dismissed(_) => sh.maint - {op.call.wallet}
    case _ => sh.maint
  }

  function NextScans(sh: Shared, i: CallId, op: Op, ch: Choice): T.Table {
    var w := op.call.wallet;
    match op.pc
    case Entry =>
      match op.call {
        case Stop(_, id) => T.StopHandle(sh.scans, w, id).0
        case Scan(_, id, _) => if ch.ok then T.Claim(sh.scans, id, w).0 else sh.scans
        case _ => sh.scans
      }
    case CancelScans | StopScans => T.CancelWallet(sh.scans, w).0
    case IssueId(id) => T.Issue(sh.scans, id)
    case AtSlot => Slot(sh, i, op).0
    case Leaving(_) => if op.call.Scan? then T.ClearIfCurrent(sh.scans, w, op.call.id) else sh.scans
    case Unclaim(_) => if op.call.Scan? then T.Unstart(sh.scans, op.call.id) else sh.scans
    case Sent(_) => T.FireStopped(sh.scans, i)
    case _ => sh.scans
  }

  /** A database's names after a delete (`rename == None`) or rename of `w`; a name in use stays. */
  function Changed(accounts: map<Wallet, nat>, w: Wallet, rename: Option<Wallet>): map<Wallet, nat> {
    if w !in accounts then accounts
    else match rename
      case None => accounts - {w}
      case Some(name) => if name in accounts then accounts else (accounts - {w})[name := accounts[w]]
  }

  /** A delete or rename writes to the database it opened before it locked. */
  function NextFiles(sh: Shared, op: Op, ch: Choice): map<Path, Accounts> {
    if op.pc.Write? && op.call.Change? && ch.ok && op.conns != [] then
      var path := op.conns[|op.conns| - 1];
      var accounts := AccountsIn(sh.files, path);
      sh.files[path := accounts.(ids := Changed(accounts.ids, op.call.wallet, ch.rename))]
    else
      sh.files
  }

  // ----- history -----

  /** The scan that the slot step of `i` replaced although nothing had cancelled it. */
  function CutOff(sh: Shared, i: CallId, op: Op): Option<CallId> {
    match if op.pc.AtSlot? then Slot(sh, i, op).1 else T.Dropped
    case Taken(Some(previous)) => if previous.run in sh.scans.cancelled then None else Some(previous.run)
    case _ => None
  }

  function NextReplacedBy(sh: Shared, i: CallId, op: Op): map<CallId, CallId> {
    match CutOff(sh, i, op)
    case Some(run) => sh.replacedBy[run := i]
    case None => sh.replacedBy
  }

  function LedgerOf(sh: Shared, gen: nat): Ledger {
    if gen in sh.ledger then sh.ledger[gen] else Ledger({}, {}, {})
  }

  function NextLedger(sh: Shared, i: CallId, op: Op, ch: Choice): map<nat, Ledger> {
    var w := op.call.wallet;
    if op.pc.Entry? && op.call.Unlock? && NextGen(sh, op, ch).Some? then
      var g := NextGen(sh, op, ch).value;
      sh.ledger[g := LedgerOf(sh, g).(acquired := LedgerOf(sh, g).acquired + {i})]
    else if op.pc.Entry? && op.call.Lock? && w in sh.db.sessions then
      var g := sh.db.sessions[w].generation;
      sh.ledger[g := LedgerOf(sh, g).(locks := LedgerOf(sh, g).locks + {i})]
    else if op.pc.GiveBack? && StillCounted(sh, op) then
      var g := op.gen.value;
      sh.ledger[g := LedgerOf(sh, g).(givenBack := LedgerOf(sh, g).givenBack + {i})]
    else
      sh.ledger
  }

  function NextShared(sh: Shared, i: CallId, op: Op, ch: Choice): Shared {
    Shared(NextDb(sh, op, ch),
           NextKeys(sh, op, ch),
           NextGates(sh, i, op),
           NextMaint(sh, i, op),
           NextScans(sh, i, op, ch),
           if op.pc.Entry? && op.call.Create? then sh.nextHandle + 1 else sh.nextHandle,
           NextFiles(sh, op, ch),
           if MakesKeys(sh, op, ch) then sh.nextEpoch + 1 else sh.nextEpoch,
           if MakesKeys(sh, op, ch) || op.pc.LockKeys? then sh.lost - {op.call.wallet} else sh.lost,
           sh.dropped,
           if TakesSlot(sh, i, op) then sh.nextTurn + 1 else sh.nextTurn,
           NextReplacedBy(sh, i, op),
           NextLedger(sh, i, op, ch))
  }

  // ----- the system -----

  datatype Action =
    | Begin(i: CallId, call: Call)          // a call arrives
    | Advance(i: CallId, choice: Choice)    // a call takes its next step
    | RecordPath(path: Path)                // set_database_path
    | UpstreamDrop(i: CallId)               // a change under way drops its wallet's key session
    | SinkClosed(i: CallId)                 // run_forwarder cancels a scan whose stream closed
    | AddAccount(path: Path, wallet: Wallet) // a wallet is created, restored or imported

  predicate Enabled(s: State, a: Action) {
    match a
    case Begin(i, call) => i !in s.ops
    case Advance(i, _) => i in s.ops && CanStep(s.sh, s.ops[i])
    case RecordPath(path) => D.SetPath(s.sh.db, path).Some?
    case UpstreamDrop(i) =>
      i in s.ops && s.ops[i].pc.Write? && !s.ops[i].call.Abandon? && s.ops[i].call.wallet in s.sh.keys
    case SinkClosed(i) => i in s.ops && s.ops[i].pc.Scanning?
    case AddAccount(path, w) => Lookup(s.sh.files, path, w).None?
  }

  function Apply(s: State, a: Action): State
    requires Enabled(s, a)
  {
    match a
    case Begin(i, call) => s.(ops := s.ops[i := NewOp(call)])
    case Advance(i, ch) =>
      State(NextShared(s.sh, i, s.ops[i], ch), s.ops[i := NextOp(s.sh, i, s.ops[i], ch)])
    case RecordPath(path) => s.(sh := s.sh.(db := D.SetPath(s.sh.db, path).value))
    case UpstreamDrop(i) => s.(sh := DropKeys(s.sh, s.ops[i].call.wallet))
    case SinkClosed(i) => s.(sh := s.sh.(scans := T.CancelToken(s.sh.scans, i)))
    case AddAccount(path, w) => s.(sh := s.sh.(files := Added(s.sh.files, path, w)))
  }

  function Added(files: map<Path, Accounts>, path: Path, w: Wallet): map<Path, Accounts> {
    var accounts := AccountsIn(files, path);
    files[path := Accounts(accounts.ids[w := accounts.next], accounts.next + 1)]
  }

  function DropKeys(sh: Shared, w: Wallet): Shared
    requires w in sh.keys
  {
    sh.(keys := sh.keys - {w}, lost := sh.lost + {w}, dropped := sh.dropped + {sh.keys[w]})
  }

  /** `acts` can be performed one after the other from `s`. */
  predicate Legal(s: State, acts: seq<Action>)
    decreases |acts|
  {
    acts == [] || (Enabled(s, acts[0]) && Legal(Apply(s, acts[0]), acts[1..]))
  }

  function After(s: State, acts: seq<Action>): State
    requires Legal(s, acts)
    decreases |acts|
  {
    if acts == [] then s else After(Apply(s, acts[0]), acts[1..])
  }
}
