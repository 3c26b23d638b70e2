# Verification of the Cake wallet bridge

A Dafny model of the parts of `cw_tari_wallet` whose correctness is about interleavings or about text
that must not lose information, and proofs of what their comments promise.

## The session and scan protocol

Two Flutter engines share `DB_STATE`, the unlock gates, minotari's key sessions, the maintenance locks
and `SCAN_STATE`. `Protocol.dfy` models all of them as one transition system. Any number of calls
(`unlock_wallet`, `lock_wallet`, `force_lock_wallet`, delete and rename, `change_passphrase`,
`abandon_send`, `create_scan_handle`, `stop_scan`, `start_scan`/`rescan`) are in flight, each with its own
program counter and local variables; a run is any sequence of their steps in any order. One step is one
`RwLock` critical section, one acquire or release of a gate or maintenance lock, one key-session call, or
the end of a wait on a `stopped` token. Every theorem below is about every state that some run reaches
(`Runs.Reachable`), or about every run from such a state.

How the files fit together:

- `Database.dfy` and `ScanTable.dfy` say what one critical section does, as functions on values;
  `DbState.dfy` and `ScanState.dfy` are the same critical sections as methods that update fields in place,
  the latter with real shared token objects, each proved equal to its function. `StopLaws.dfy` relates
  the scan functions to each other.
- `Protocol.dfy` composes those functions into steps. `Shape.dfy`, `Locks.dfy`, `Sessions.dfy`,
  `Counting.dfy`, `Handles.dfy`, `Slots.dfy`, `Maintenance.dfy`, `Revocation.dfy`, `Supersession.dfy` and
  `ScanRecords.dfy` hold one inductive invariant each; `Invariant.dfy` puts them together and carries them over runs.
- `Runs.dfy` has the tools for statements about a whole run: which step brought a call where it is.
- `SessionTheorems.dfy`, `UnlockTheorems.dfy`, `LockTheorems.dfy`, `ScanTheorems.dfy`, `ScanRuns.dfy`,
  `StopTheorems.dfy`, `ChangeTheorems.dfy`, `DatabaseTheorems.dfy`, `PathChanges.dfy` and `Liveness.dfy` state
  what follows for callers. What a call answers is tied to its own steps: `Ok`, `true` and an
  uneventful return to the steps that earned them, an error, `false` or a terminal event to the one that
  caused it, and no call with such a cause answers otherwise.
  `WaitGraph.dfy` and `Drain.dfy` hold the argument for the last; `Witness.dfy` has runs that end with a live
  holder, a completed scan, and a lock that waited for a scan.
- `Stream.dfy` is one scan's event stream; `Endings.dfy` connects its terminal event to the transition
  system's.

What the model assumes:

- minotari's key sessions are a map from wallet names to session numbers. `session::unlock` succeeds or
  fails as the environment chooses, `session::lock` removes the name. A delete, rename or passphrase
  change under way may drop its own wallet's session (src/api/db.rs:251); that is an optional environment
  step, and only the statements about live holders and revocation mention it.
- No lock is poisoned, nothing panics, no future is dropped before it returns.
- An unlock counts only while fewer than 2^32 - 1 counts of its wallet are outstanding and fewer than
  2^64 - 1 generations were drawn (`Database.Headroom`). The saturation and the wrap-around themselves are in
  `Database.Acquire` and in `DbState.AcquireSession`, and `Database.CountRoundTrip` says exactly when the
  saturation loses a count. Handle ids do not wrap.
- The scanner body ends after a cancel. Whether it ends before one, and what it reports, is the
  environment's choice; `Liveness.EveryScheduleEnds` counts on no scanner that nothing has stopped.
- Each database file has its own wallet names and account numbers, counted from 0. A call remembers the
  databases it opened, in order; opening a connection follows the path recorded at that step
  (src/api/db.rs:507-534), and what is read or written later goes to the database opened.
- A scan leaves its slot (src/api/scanner.rs:616) before its terminal event goes out
  (src/api/scanner.rs:526-531). A stop that arrives between the two finds no scan and returns at once, so
  no claim says that every stop waits for the terminal event; the exclusion claims are about the slot and
  the body of `scan_in_slot`.
- The locks of `DB_STATE` and `SCAN_STATE` do not occur in the wait graph: each of their critical sections
  is one step, takes no other lock of the bridge and waits for none, so nothing that holds one of them
  ever waits.
  minotari's own wait inside `session::lock` (src/api/db.rs:375-376), for a passphrase change to finish its
  Argon2 run, is not modelled; while it runs that change waits for nothing of the bridge.
- `with_wallet_locked`, `change_passphrase`, `abandon_send`, `unlock_wallet` and the other sequences are
  program points of the transition system, because other calls step between their statements.

## The logger's filter and sanitiser, and amounts

`LogLevels.dfy`, `LogText.dfy`, `RedactionFixpoint.dfy`, `Credentials.dfy`, `Escaping.dfy`, `Numerals.dfy` and
`Amounts.dfy` model `level_for` and `max_level`, `redact_url_userinfo`, `escape_control` and `sanitize_log_text`, and the
amount formatter. Their loops are methods with invariants, proved against functions on the whole text. A
text is a sequence of Unicode scalar values, and its byte lengths are those of UTF-8. Rules that match one
target are prefixes of it, so comparing their lengths in characters compares their lengths in bytes.

## Where the code and its comments differ

- The comment on `PAYLOAD_SUMMARY_TARGET` (src/api/logger.rs:45-48) promises a cap at `Warn` unless the
  caller sets a level for that target. `level_for` keeps a rule as a cap after `set_log_level` only if it is
  stricter than the configured default (src/api/logger.rs:175-179). `LogLevels.PayloadSummariesCapped` says
  exactly when the promise holds, and `LogLevels.PayloadCapLost` gives the inputs for which it does not.
- `change_passphrase` says that an unlocked wallet stays unlocked (src/api/wallet.rs:214), while
  `check_and_unlock` expects that a passphrase change can drop the session (src/api/db.rs:251). The model
  allows the drop, so `SessionTheorems.LiveHolderKeepsKeys` has a second alternative, and
  `SessionTheorems.LiveHolderKeepsKeysWithoutDrops` is the claim for runs without drops.
- `abandon_send` stops scans and checks the account again so that no rebroadcast, rename or delete comes
  between its passphrase check and its write (src/api/send_transaction.rs:192-197), but its three connections follow the recorded path one by one
  (src/api/send_transaction.rs:177, 196 and 199). With no wallet counted, `set_database_path` or an unlock in
  another file may change that path in between, which `with_wallet_locked` guards against by opening its
  connection first (src/api/wallet.rs:389-391). The write then goes to another database, under the number of
  the account it checked: `PathChanges.AbandonWritesElsewhere` is such a run, and
  `DatabaseTheorems.AbandonActsOnItsAccount` and `PathChanges.AbandonCanGoAstray` say when it can
  happen: it cannot while some wallet stays counted, and it can from any state in which none is counted and
  the last connection is yet to be opened.
- `scan` takes the database path and checks the wallet on a connection opened after it
  (src/api/scanner.rs:580-581). The same path change makes it check in another database than it scans
  (`PathChanges.ScanCanCheckElsewhere`).

## Model

| member | source | states |
|---|---|---|
| Invariant.RunInv | src/api/db.rs:10-21 | every action of every call keeps the conjunction of all invariants, so it holds after every run |
| SessionTheorems.LiveHolderKeepsKeys | src/api/db.rs:152-206 | an unlock that returned `Ok` and is still counted in its own generation has its wallet's key session, whatever locks, force locks, failed unlocks and late gates ran, unless upstream dropped it |
| SessionTheorems.LiveHolderKeepsKeysWithoutDrops | src/api/db.rs:193-206 | in runs without an upstream drop a live holder always has its key session; a loser of a force lock never wipes a newer holder's |
| UnlockTheorems.OkMeansChecked | src/api/db.rs:239-257 | an unlock that returned `Ok` has, in this order, a step that found its passphrase right (against the stored wallet, or by making the key session where there was none), one that saw or made its wallet's key session, and one that found it still counted |
| UnlockTheorems.FailedNeverOpens | src/api/db.rs:148-150 | from a step of an unlock that fails, such as a wrong passphrase or an entry into another database while wallets are counted, no run leads to `Ok` |
| UnlockTheorems.ErrorHasCause | src/api/db.rs:146-150 | an unlock that returned an error has such a step |
| Witness.UnlockCanOpen | src/api/db.rs:152-193 | for every wallet and path some run ends with an unlock that returned `Ok`, is counted and has its key session |
| SessionTheorems.NoOrphanedKeys | src/api/db.rs:366-379 | a key session without a count always has a call in flight that has yet to reach the gate-held lock of that wallet |
| SessionTheorems.CountConservation | src/api/db.rs:260-291 | a wallet's count is at least 1 and is its unlocks that counted in its generation, less exactly those of them that failed and gave their count back, less `lock_wallet` calls of this wallet |
| SessionTheorems.LocksAreSteps | src/api/db.rs:321-342 | those locks are exactly the `lock_wallet` calls whose state step, somewhere in the run, found the wallet counted in that generation |
| SessionTheorems.GenerationNeverReused | src/api/db.rs:62-66 | once the entry of a generation is gone, no run brings a count of that generation back |
| SessionTheorems.FailedUnlockGivesBackItsOwn | src/api/db.rs:281-291 | a failed unlock takes one off its own generation if that is still counted and leaves newer holders and other wallets alone |
| SessionTheorems.ForceWins | src/api/db.rs:402-411 | after the state step of a force lock, delete or rename the wallet's earlier unlocks are never counted again, and one that had not passed its last check never returns `Ok` |
| LockTheorems.LockedTrueMeansLocked | src/api/db.rs:293-310 | a `lock_wallet` that returned `true` has the step that took off its wallet's last count, later the step that wiped its wallet's key session and, later, the step at which its scan stop returned and the wallet's scans were gone: none in the slot, or the one it waited for and all before it left |
| LockTheorems.LockedFalseMeansHeld | src/api/db.rs:297-299 | one that returned `false` has a step that found its wallet not counted, left a count on it, or found it counted again under the gate |
| LockTheorems.WipedReturnsTrue | src/api/db.rs:301-310 | once a `lock_wallet` has wiped the key session it can, in every run, only return `true` |
| Witness.LockCanWait | src/api/db.rs:301-310 | from every reached state without a call in flight the last lock of an unlocked wallet has a run in which it waits for a scan in its body and then returns `true`, the scan having completed |
| LockTheorems.ForcedMeansLocked | src/api/db.rs:402-411 | a force lock, or a delete or rename that got as far as its change, has the step at which its last gate-held lock wiped the key session or found a newer holder counted, and, later, the one at which the wallet's scans were gone |
| SessionTheorems.PoolFollowsCounts | src/api/db.rs:507-534 | the pool is open exactly while some wallet is counted, at the recorded path, and `get_db_path` reports the recorded path |
| SessionTheorems.OpenAtItsPath | src/api/db.rs:164-193 | an unlock that is still counted, so also at its last check, has the database open at the path it asked for |
| SessionTheorems.PathFixedWhileCounted | src/api/db.rs:129-137 | no action changes the recorded path while a wallet is counted |
| ScanTheorems.ScansExclude | src/api/scanner.rs:590-616 | at most one scan of each wallet is inside `scan_in_slot`, through every chain of supersessions, cancels and slot clears |
| ScanTheorems.SlotOwnership | src/api/scanner.rs:647-653 | a scan that took the slot, has not left it and is not cancelled is the slot's occupant |
| ScanTheorems.ClearKeepsOthers | src/api/scanner.rs:185-192 | the clean-up of a finishing scan never evicts another scan |
| ScanTheorems.MaintenanceExcludesScans | src/api/wallet.rs:395-405 | from the return of a delete's, rename's, passphrase change's or abandon's scan stop until its guard drops, no scan of its wallet holds the slot |
| ChangeTheorems.ChangeIsLocked | src/api/wallet.rs:395-405 | a delete or rename that got as far as its change has these seven steps in this order: counts removed, key session locked or a newer holder found, scans gone, the change, and the first three again |
| ChangeTheorems.ChangeMeans | src/api/wallet.rs:387-391 | the change touches only the database opened before the locks: a delete removes the name, a rename moves the account to a free name or changes nothing, no other name moves |
| ChangeTheorems.ReturnedMeansWritten | src/api/wallet.rs:395-405 | a delete, rename, passphrase change or abandon that returned without an error has a step that wrote |
| ChangeTheorems.RefusedBecause | src/api/wallet.rs:395-405 | one that returned an error has a step that failed: no database recorded, wallet not found, another account under the name, or work outside this model |
| ChangeTheorems.FailureIsReported | src/api/send_transaction.rs:176-203 | from such a step on it can only return an error |
| ChangeTheorems.AbandonMeansRechecked | src/api/send_transaction.rs:176-198 | an abandon stops scans and writes only after it found its passphrase right and, later, under maintenance, the wallet's name to mean the same account |
| ScanTheorems.StopWaitsForEarlier | src/api/scanner.rs:131-160 | when a stop that found a scan running returns, that scan (for `stop_scan` the one started with its handle) and every scan of the wallet that took the slot before it have left it |
| StopTheorems.StopOfRunning | src/api/scanner.rs:141-149 | the first step of a stop of the running scan fires that scan's token and leaves the stop waiting for it |
| StopTheorems.StopStops | src/api/scanner.rs:126-151 | from the return of a stop on, in every run, no scan of its wallet started with its handle holds the slot, whether the handle was issued, starting or in the slot when the stop began |
| ScanRuns.ScannedSawKeys | src/api/scanner.rs:580-593 | a scan that is about to wait for maintenance, is at its slot step, or ever took the slot recorded a key session of its wallet |
| ScanRuns.ScannedWasUnlocked | src/api/db.rs:538-546 | and its run has a step of that scan at which its wallet had exactly that key session |
| Witness.ScanCanComplete | src/api/scanner.rs:538-616 | from every reached state without a call in flight an unlocked wallet has a run in which a new handle is drawn and its scan ends `Completed` |
| ScanTheorems.LockRevokesScans | src/api/db.rs:360-379 | a scan whose unlocked check saw a key session that is gone is cancelled, has left its slot or was dropped from `starting`, unless the lock is about to cancel it or upstream dropped the session |
| ScanTheorems.RevokedForever | src/api/scanner.rs:593-597 | no run brings a revoked scan back, and one revoked before its slot step never takes a slot |
| ScanRuns.CancelledNeverScans | src/api/scanner.rs:677-680 | a scan cancelled before its scanner starts never starts it, in any run |
| ScanRuns.EndedBecause | src/api/scanner.rs:538-709 | every terminal event has its cause in a step of its scan: a failed check or refusal for `Error`, a stop or a fired token for `Cancelled`, a replacement for `Superseded`, the scanner's report for the others |
| ScanRuns.CauseDecides | src/api/scanner.rs:510-535 | and from a step with such a cause on the stream can end in no other way |
| ScanRuns.IssuedWasRecorded | src/api/scanner.rs:120-124 | a handle that `create_scan_handle` returned was added to the issued handles in a step of that call |
| ScanRuns.IssuedOnce | src/api/scanner.rs:101-124 | no two calls return the same handle |
| ScanTheorems.HandleStations | src/api/scanner.rs:66-75 | a handle is in at most one of issued, stopped-before-start, starting and running |
| ScanTheorems.HandleStartsOnce | src/api/scanner.rs:551-560 | each handle starts at most one scan |
| ScanTheorems.SpentNeverRuns | src/api/scanner.rs:131-148 | a handle taken away before it took the slot appears in no slot of any later state |
| ScanTheorems.StoppedNeverRuns | src/api/scanner.rs:131-171 | a handle that a stop or a cancel of its wallet took away before it had its slot is such a handle, in every run from there |
| ScanTheorems.MarkIsTruthful | src/api/scanner.rs:638-653 | a scan is marked superseded only if the run has a step in which a later start of the same wallet took the slot from it while it held it uncancelled; a Foreground scan yields only to a Foreground start |
| ScanTheorems.SupersededIsTruthful | src/api/scanner.rs:658-664 | a stream ends `Superseded` only if its run has such a step |
| ScanTheorems.SupersededIsReported | src/api/scanner.rs:678-709 | and a scan so marked ends `Superseded` or with an error in every run |
| ScanTheorems.ReplacementHappened | src/api/scanner.rs:647-653 | every recorded replacement has its step in the run: the recorded start took the slot from the uncancelled occupant |
| ScanTheorems.CutIsMarked | src/api/scanner.rs:648-653 | conversely, a scan that loses its slot in that way before it decided its ending is marked |
| DatabaseTheorems.AbandonActsOnItsAccount | src/api/send_transaction.rs:176-203 | if some wallet is counted in every state from the abandon's first step to its write, it writes to the database whose passphrase it checked, and there its wallet name still means the account it checked |
| PathChanges.AbandonCanGoAstray | src/api/send_transaction.rs:192-203 | conversely, from every reached state without a count before the abandon opens its last connection, recording another path leads to a write there under the checked account's number |
| PathChanges.AbandonWritesElsewhere | src/api/send_transaction.rs:199-210 | a run in which the write goes to a database that has no such wallet and where that number is the account of another one |
| DatabaseTheorems.AbandonAtWrite | src/api/send_transaction.rs:547-558 | in every run the database that `same_account` read still has the checked account's number under the wallet's name when the abandon writes |
| DatabaseTheorems.AccountWasChecked | src/api/send_transaction.rs:176-190 | an abandon's account number is the one its wallet name meant at its passphrase check, in the first database it opened |
| DatabaseTheorems.SteadyConnections | src/api/db.rs:507-534 | as long as some wallet is counted every connection that any call opens is to one and the same database |
| DatabaseTheorems.PathCanMove | src/api/db.rs:129-137 | another path can be recorded if and only if no wallet is counted |
| DatabaseTheorems.RecordedIsUsed | src/api/db.rs:129-137 | recording is allowed exactly for the path in use or while no wallet is counted; the recorded path is then the one `get_db_path` gives, and nothing else changes |
| DatabaseTheorems.ScanChecksWhatItReads | src/api/scanner.rs:580-581 | if some wallet is counted meanwhile, a scan checks that its wallet is unlocked in the database that it scans |
| PathChanges.ScanCanCheckElsewhere | src/api/scanner.rs:580-581 | conversely, from every reached state without a count between the two, recording another path makes it check in that one |
| Liveness.NoCyclicWait | src/api/db.rs:17-21 | no circle of waits over maintenance locks, gates and `stopped` tokens arises in any run |
| Liveness.WaitsEnd | src/api/scanner.rs:590-613 | every chain of waits ends at a call that can step; if it is a scan in its body, it is cancelled |
| Liveness.EveryCallCanFinish | src/api/db.rs:293-319 | from every reached state the calls in flight can be driven to their ends, all of them if the counters have room for the unlocks that have yet to count |
| Liveness.EveryScheduleEnds | src/api/scanner.rs:590-613 | under every schedule the calls in flight take a bounded number of steps, and until only unstopped scanners (and unlocks without room to count) are left, some call can step that is no unstopped scanner: endless scanners hold up nobody |
| Liveness.IdleMeansClean | src/api/db.rs:13-16 | with no call in flight every unlocked wallet is counted, no gate or maintenance lock is held, no slot is taken and no claimed handle is left over |
| Database.EnterUnlockKeeps | src/api/db.rs:152-178 | for any counters, the locked part of `unlock_wallet` counts one more up to the ceiling in the entry's generation, or opens a new one, or changes nothing; counts, generations, pool and path stay consistent if and only if it does not draw the last generation |
| Database.EnterUnlockCountsWhen | src/api/db.rs:152-178 | while a wallet is counted an unlock counts exactly if it asks for the open database, and else exactly if the database at its path opens |
| Database.ReleaseOneKeeps | src/api/db.rs:329-342 | `release_one` takes exactly one count off its own wallet, reports zero exactly when the entry goes, and closes the pool with the last entry |
| Database.EvictKeeps | src/api/db.rs:402-408 | removing a wallet's entry keeps pool and path consistent and touches no other wallet |
| Database.CountRoundTrip | src/api/db.rs:260-274 | counting and releasing gives the state back if and only if the count was below its ceiling |
| DbStateCell.DbState.AcquireSession | src/api/db.rs:260-274 | in place, the state of `Database.Acquire`; returns the generation of the wallet's entry |
| DbStateCell.DbState.ReleaseOne | src/api/db.rs:329-342 | in place, the state and answer of `Database.ReleaseOne` |
| DbStateCell.DbState.ReleaseFailedUnlock | src/api/db.rs:281-286 | in place, the check and release under one lock |
| DbStateCell.DbState.RemoveEveryCount | src/api/db.rs:402-408 | in place, the state of `Database.Evict` |
| DbStateCell.DbState.SetDatabasePath | src/api/db.rs:129-137 | records the path, or refuses and changes nothing while another database is open |
| DbStateCell.DbState.EnterUnlock | src/api/db.rs:152-178 | in place, the whole first critical section with its two error exits |
| ScanStateCell.ScanState.RecordIssued | src/api/scanner.rs:120-124 | the drawn id becomes issued |
| ScanStateCell.ScanState.MakeTokens | src/api/scanner.rs:587-588 | a scan's tokens are fresh objects shared with no other scan |
| ScanStateCell.ScanState.StopHandle | src/api/scanner.rs:131-148 | in place, the four cases of `stop_scan`; returns the `stopped` token of exactly the scan to wait for |
| ScanStateCell.ScanState.CancelWalletScans | src/api/scanner.rs:164-171 | drops the wallet's starting scans, fires its running scan's token and returns its `stopped` token |
| ScanStateCell.ScanState.ClearScanIfCurrent | src/api/scanner.rs:185-192 | clears the slot only if it holds this id |
| ScanStateCell.ScanState.Claim | src/api/scanner.rs:551-560 | in place, stopped before its start, used before, or moved to `starting` |
| ScanStateCell.ScanState.CutOff | src/api/scanner.rs:648-653 | marks the replaced scan superseded unless it was cancelled before, then cancels it |
| ScanStateCell.ScanState.TakeSlot | src/api/scanner.rs:631-655 | in place, the priority rules; returns the replaced controller |
| ScanStateCell.ScanState.EnterSlot | src/api/scanner.rs:593-609 | in place, leaves `starting` and takes the slot in one critical section |
| ScanStateCell.ScanState.FireStopped | src/api/scanner.rs:519-522 | fires the scan's `stopped` token and no other token |
| StopLaws.StopThenClaim | src/api/scanner.rs:134-137 | a handle stopped before its start makes its scan end at once, leaves nothing behind and cannot be used again |
| StopLaws.StartRules | src/api/scanner.rs:628-655 | a start is refused exactly for Background against a Foreground scan that nothing stopped, and otherwise owns the slot with the earlier scan cancelled |
| StopLaws.StopTouchesOnlyItsHandle | src/api/scanner.rs:126-151 | a stop moves no other handle, takes no scan out of a slot, and cancels no scan but the one in its wallet's slot under its handle |
| Stream.RunForwarder | src/api/scanner.rs:457-481 | delivers the mapped non-terminal events in order up to and including the first refusal, reads the whole queue, cancels exactly on a refusal, and returns the scanner's last terminal event |
| Stream.RunScan | src/api/scanner.rs:510-535 | the callback receives those deliveries and then one terminal event |
| Stream.GivenMeans | src/api/scanner.rs:475-478 | what is delivered is a prefix, refused nowhere before its last event, and all of it unless refused there |
| Stream.GivenIsTheOnly | src/api/scanner.rs:475-478 | no other sequence of deliveries has that property |
| Stream.PayloadsKept | src/api/scanner.rs:287-363 | each event arrives as the one event of its name with every payload in its own field, waiting times as whole seconds; only single blocks and fast-sync phases are dropped, and exactly completion, cancellation and an exhausted budget are endings |
| Stream.StreamedInOrder | src/api/scanner.rs:467-479 | what is streamed of two stretches of events is what is streamed of the first and then of the second: order is kept, nothing is added |
| Stream.LastWordIsLastEnding | src/api/scanner.rs:471-474 | the returned terminal event is that of the last ending the scanner reported, and there is none exactly if it reported none |
| Stream.OneTerminalLast | src/api/scanner.rs:365-374 | for every event sequence and pattern of refusals exactly the last event of a stream is terminal; `Superseded` and `Error` never come out of the scanner's events |
| Stream.TerminalSpelled | src/api/scanner.rs:694-709 | which event ends a stream: an error first, then a stop or replacement, then the scanner's last ending, and `Cancelled` if it reported none |
| Endings.EveryTerminalIsAnEnding | src/api/scanner.rs:694-709 | whatever a scanner reports, its stream's terminal event is an ending that the transition system allows |
| Endings.EveryEndingIsATerminal | src/api/scanner.rs:694-709 | and every ending the transition system allows is reported by some scanner |
| LogLevels.LevelFor | src/api/logger.rs:161-186 | the loops compute the level of the deciding rule under the runtime level and the ceilings |
| LogLevels.DecidesOnce | src/api/logger.rs:161-169 | the longest match, last duplicate first, is one rule |
| LogLevels.MatchesIsTransitive | src/api/logger.rs:199-201 | being a path or below it is transitive |
| LogLevels.MaxLevel | src/api/logger.rs:189-195 | the loop computes the maximum over the default or runtime level and every rule's own path |
| LogLevels.CeilingsGrow | src/api/logger.rs:180-185 | a target is under every ceiling that its rule's path is under |
| LogLevels.MaxLevelIsSafe | src/api/logger.rs:188-195 | no target's level is above `max_level` |
| LogLevels.MaxLevelIsAttained | src/api/logger.rs:188-195 | some target logs at exactly `max_level` |
| LogLevels.PreFilterAgrees | src/api/logger.rs:351-357 | checking the global maximum first never changes which records are logged |
| LogLevels.MatchesMeans | src/api/logger.rs:199-201 | a rule's path matches exactly itself and every text that goes on after it with `::` |
| LogLevels.LongestRuleDecides | src/api/logger.rs:161-186 | of the rules for a target or a path above it the longest decides, the last of equal ones; the level is that rule's without a runtime level, else the runtime level unless the rule was stricter than the default and still is, and at most `Info` for the HTTP clients |
| LogLevels.NoRuleDecides | src/api/logger.rs:170-186 | a target at or below no rule's path logs at the runtime level or the default, again at most `Info` for the HTTP clients |
| LogLevels.OneRule | src/api/logger.rs:199-201 | with one rule its path and all below log at its level, and a path that only starts like it logs at the default |
| LogLevels.TwoRules | src/api/logger.rs:161-169 | a rule for a path below another's overrides it there in either order, and of two rules for one path the later holds |
| LogLevels.HttpClientStaysQuiet | src/api/logger.rs:23-29 | `minotari_wallet_core::http`, `minotari::http` and every path below them log at `Off`, `Error`, `Warn` or `Info` under every configuration and runtime level |
| LogLevels.HttpNeverAboveInfo | src/api/logger.rs:180-184 | the same for every target that the filter's own test matches with one of the two |
| LogLevels.PayloadCapOnlyThere | src/api/logger.rs:45-48 | the cap on payload summaries gives way to the caller's own rule and changes no level outside its path |
| LogLevels.NoiseCapsStay | src/api/logger.rs:534-538 | a rule stricter than the configured default still caps its targets after `set_log_level` |
| LogLevels.PayloadSummariesCapped | src/api/logger.rs:45-48 | payload summaries stay at `Warn` exactly when the configured default is above `Warn` or no runtime level above `Warn` is set |
| LogLevels.PayloadCapLost | src/api/logger.rs:170-179 | for every configured default of `Warn` or less a runtime level above `Warn` lets them through |
| LogText.RedactUrlUserinfo | src/api/logger.rs:230-253 | exactly the non-empty runs after a scheme and `://` that end at `@` before any `/` or whitespace become `***`, all else is copied |
| LogText.LoopMeans | src/api/logger.rs:233-251 | the loop over the moving suffix computes that meaning from every point it stands at |
| RedactionFixpoint.RedactionIsIdempotent | src/api/logger.rs:228-253 | redacting a redacted text changes nothing |
| RedactionFixpoint.OnlyStarsAreLeft | src/api/logger.rs:228-253 | every userinfo in a redacted text is exactly `***` |
| Credentials.ChangedExactlyIf | src/api/logger.rs:228-253 | redaction changes a text if and only if it reads somewhere as a scheme character, `://`, a non-empty run without `/`, `@` or white space other than `***`, and `@`; both character sets are spelled out |
| Credentials.FirstCredentialsHidden | src/api/logger.rs:233-251 | the first such run becomes `***` with the text before it unchanged, and redaction goes on from its `@` |
| Escaping.EscapeControl | src/api/logger.rs:285-300 | the loop computes the character-wise escape |
| Escaping.UnescapedEscaped | src/api/logger.rs:285-300 | a decoder recovers every text from its escaped form |
| Escaping.EscapingIsInjective | src/api/logger.rs:283-300 | no two texts escape to the same text |
| Escaping.EscapedIsOneLine | src/api/logger.rs:283-300 | no control, format or line-separator character is left |
| Escaping.UnchangedExactlyIf | src/api/logger.rs:283-300 | escaping leaves a text alone if and only if all its characters lie between the control, format and line-separator characters and none is a backslash |
| Escaping.EscapesSpelled | src/api/logger.rs:287-296 | the escapes of backslash, line feed, carriage return and tab, and the hexadecimal form of every other escaped character |
| Escaping.Utf8LenIsShortest | src/api/logger.rs:216-222 | a character counts as many bytes as the shortest UTF-8 sequence that can hold it |
| Escaping.KeptChars | src/api/logger.rs:219-222 | stepping back from the limit finds the longest prefix on a character boundary that fits |
| Escaping.LongestFitIsUnique | src/api/logger.rs:219-222 | there is only one such prefix |
| Escaping.TruncationAddsUp | src/api/logger.rs:223-225 | the marker holds the decimal numeral of the bytes cut, which with those kept make up the text |
| Escaping.SanitizeLogText | src/api/logger.rs:214-226 | the redacted text escaped if it fits, or else its longest fitting prefix and the exact number of bytes cut; always one line |
| Amounts.FormatWithThousandsSeparator | src/api/utils.rs:14-26 | the loop computes the separated digits |
| Amounts.FormatMicroTari | src/api/utils.rs:2-12 | the two branches compute the amount's text |
| Amounts.CommasEveryThree | src/api/utils.rs:14-26 | commas fall exactly every three digits from the right, and the digits keep their order |
| Amounts.SmallNeedsNoSeparator | src/api/utils.rs:6-11 | the separator function leaves a number as it is if and only if it is below 1000, so the branches agree |
| Amounts.AmountSpelled | src/api/utils.rs:1-12 | an amount is a numeral of the whole part with a comma at every fourth place from the point and nowhere else, the point, six digits of the fraction, and the unit |
| Numerals.DecimalIsTheNumeral | src/api/utils.rs:14-15 | the printed digits are the only numeral without leading zeros of their number |
| Amounts.AmountReadsBack | src/api/utils.rs:2-12 | every amount is recovered from its text by dropping the commas, splitting at the point and removing the unit |
| Amounts.AmountIsInjective | src/api/utils.rs:2-12 | different amounts print differently |

## Left out

- `change_passphrase` also opens its database twice (src/api/wallet.rs:230 and 244). The model has both connections; minotari checks the old passphrase again when it writes, which the model does not show.
- The connections of `rollback_account` and `release_expired_reservations` inside `scan_in_slot`: they too follow the recorded path, and are part of the opaque scanner body.
- Reuse of account numbers after a delete: the model numbers each database's accounts upwards without reuse.
- The inside of minotari and tari: scanning, rollback, signing, broadcast, Argon2, SQLite and the connection pool. The scanner body is one step that ends as the environment chooses, and `rescan`'s rollback is inside it.
- The send flow, UTXO reservations, `release_expired_reservations` and `checkpoint_database`: their meaning lies upstream.
- `with_session`, `session_gone` and the mapping of errors to texts: an error is only told apart from success and from the other endings.
- Lock poisoning, panics and dropped futures: a step is never interrupted. The clean-up that exists only for them (a slot whose scan panicked) is modelled as far as the priority rule that mentions it.
- The maps that hold the gates and maintenance locks: looking a lock up is part of the step that waits for it.
- Cancel tokens in `Protocol.dfy` are named by the call that made them; their identity as shared objects is modelled in `ScanState.dfy`.
- `unlock_wallet`, `lock_wallet`, `with_wallet_locked`, `change_passphrase` and `abandon_send` as single methods: other calls step between their statements, so they are program points of the transition system instead.
- Fairness of the scheduler: `Liveness.EveryScheduleEnds` bounds the steps and shows that one is possible, it does not say that it is taken.
- An unlock that finds its counters exhausted: it takes no step in the transition system, see `Database.Headroom` above.
- The forwarder and the scanner running side by side: the event queue is given as the sequence that the forwarder reads.
- 64-bit wrap-around of handle ids, heights and amounts: heights are passed through, and every amount prints as the same text in any width.
- Logger installation, file rotation, the panic hook and key-value rendering.
- Data transfer types, configuration constants, network, seed word and address code.
