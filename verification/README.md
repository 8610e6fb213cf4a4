# Verified models of agent-run-supervisor

A Dafny 4.11 project that models the parts of agent-run-supervisor whose correctness spans whole runs, and proves what
those parts are for. `dafny verify dfyconfig.toml` checks all of it. Nothing of the original program is executed.

* **The event ledger** (`QueuePolicy`, `Ledger*`, `EventWriter`). One Run's bounded serial event writer as a step
  machine: acceptance, the deadline-first pump, growth, the failure funnel, the consumer and its durable file, close.
  The environment picks the steps, the clock readings, whether a timer can be armed, how far an append gets, and what
  is cancelled. One invariant is proved for every step and the theorems are read off it. `EventWriter` then has the
  loops and the object, proved equal to the step functions.
* **Sessions, leases, liveness** (`Liveness`, `Sessions`, `Session*`). Any number of callers of
  the guarded Session operations, interleaved step by step and killed anywhere, on hosts with PID reuse and reboots.
* **Reconciliation** (`Terminal`, `Reconcile*`). The row table, the ordered writes, crashes after any write, reruns,
  and the terminal emitter and validator the reruns depend on. `ReconcileSessions` joins it to the Session store.
* **Admission, registry, shutdown, keyed locks** (`Admission*`, `Restart`, `Registry`, `RunRegistry`, `Shutdown`,
  `KeyedLocks`). `Restart` joins admission to reconciliation: every startup is a pass over the same directories.
* **Exact configuration** (`ModelLiteral`, `ConfigFidelity`). The literal's parser and printer, the phase machine and
  the driver, against an agent that may answer anything.
* **Readers and files** (`EventLines`, `EventPages`, `Nesting`, `EventStore`).

Where a promise turned out not to hold of the code as it stands, the code is kept, a lemma shows a failing input, and
another gives the condition under which it holds:

* Reconciliation does not apply the terminal size ceiling to what it emits, and Session names have no length limit, so
  a rerun can refuse a terminal the run before it wrote (`LongNameBlocksRestart`; exactly when: `RerunListensIff`).
* Registration takes the Session name again and does not compare it with the reserved one
  (`RegisterElsewhereBreaks`; exactly when it matters: `RegisterValidIff`). The daemon itself never makes that call: its
  one caller passes the name it reserved, and `RegistryHolds` is about that use.
* A keyed-lock entry is said to be removed when idle; a task cancelled while suspended on the key's lock leaves it
  behind (`EntryCanBeLost`; exactly when: `IdleEntryIff`). Mutual exclusion is not affected.
* By the end of close every phase of every accepted ticket is settled, except exactly when the close task is cancelled
  while an earlier failure is still draining (`CancelledCloseLeavesUnsettled`; exactly when: `CachingSettlesIff` and
  `CloseSettlesIff`).
* The acknowledgement guard does fire in one family of runs: a close task is cancelled, its outcome is cached, and an
  append already under way returns after that (`LateReturnHappens`; exactly when: `SelfChecksFireIff`).
* A child process recorded in a lease is replaced, not joined, by a second holder update, so the lease can then be
  reclaimed under the first (`SecondUpdateForgets`, `ReclaimedUnderLivingChild`; in general: `LastUpdateNames`,
  `ChildStays`). The runtime updates each lease once, and as not reclaimable.

## Model

| member | source | states |
|---|---|---|
| QueuePolicy.Ladder | src/agent_run_supervisor/native_acp/event_writer.py:64-73 | a ladder is returned exactly when the maximum is the initial value times some power of the factor, and then rung k is initial·factor^k and the top rung is the maximum |
| QueuePolicy.MakeTiers | src/agent_run_supervisor/native_acp/event_writer.py:87-128 | a policy is accepted exactly when its fields are in range and both maxima lie on the same rung |
| QueuePolicy.TierBounds | src/agent_run_supervisor/native_acp/event_writer.py:114-128 | every tier lies between the initial and maximal ceilings, and each expansion strictly lifts both |
| LedgerSteps.RunInv | src/agent_run_supervisor/native_acp/event_writer.py:466-1179 | every run of submits, timers, appends, failures, cancellations and closes keeps the ledger invariant: books, queues, ceilings, phases, times, file, consumer and close states, no lost wakeup |
| LedgerTheorems.BlocksAndCeilings | src/agent_run_supervisor/native_acp/event_writer.py:794-922 | in every reachable unfailed state the accepted numbers split into contiguous persisted, admitted and pending blocks; both byte counters are exact sums; tier and global ceilings hold; expansions ≤ growth mark ≤ last_seq |
| LedgerTheorems.SelfCheckAlwaysPasses | src/agent_run_supervisor/native_acp/event_writer.py:1003-1024 | the runtime self-check passes in every reachable state, and a deadline computed from the next clock reading is never before the last one |
| LedgerTheorems.SelfChecksFireIff | src/agent_run_supervisor/native_acp/event_writer.py:669-761 | with a working clock and timer, in every run, the ledger-invariant, marker-too-large or unexpected-exit failure is raised exactly when an append returns to a ledger whose close task was cancelled and its outcome cached |
| LedgerCancel.LateReturnHappens | src/agent_run_supervisor/native_acp/event_writer.py:1147-1179 | one such run: start, accept a line, append it, close, cancel the close, cache its outcome, and the returning append raises the ledger-invariant failure |
| LedgerTheorems.ReportedFailureIsLeast | src/agent_run_supervisor/native_acp/event_writer.py:926-983 | the reported failure is exactly the least, by ordinal and category rank, of all failures ever raised, in whatever order they came |
| LedgerTheorems.FileIsAcknowledgedLines | src/agent_run_supervisor/native_acp/event_writer.py:540-624 | in every run the durable file is the canonical lines 1..last_seq in order, followed by at most a prefix of the next line |
| LedgerTheorems.CloseCertifies | src/agent_run_supervisor/native_acp/event_writer.py:1064-1179 | a cached successful close means the file is exactly lines 1..accepted and both phases of every ticket settled ok |
| LedgerTheorems.CachingSettlesIff | src/agent_run_supervisor/native_acp/event_writer.py:1147-1179 | when the close task's end is cached, before any caller of close is answered, every phase of every accepted ticket is settled, except exactly when the task was cancelled while an earlier failure was still draining |
| LedgerTheorems.CloseSettlesIff | src/agent_run_supervisor/native_acp/event_writer.py:1064-1179 | in every run, once a close outcome is cached nothing is pending, everything is settled exactly when nothing is left admitted, and only a cancelled close after a failure can leave anything admitted |
| LedgerTheorems.NeverFailedYetPersisted | src/agent_run_supervisor/native_acp/event_writer.py:926-973 | in no state of any run is a ticket admission-failed and yet persisted |
| LedgerCancel.CancelledCloseLeavesUnsettled | src/agent_run_supervisor/native_acp/event_writer.py:1147-1179 | start, accept a line, fail on the next, close, cancel the close, cache its outcome: callers are answered with the failure and the line's persistence is unsettled |
| LedgerHistory.NothingIsTakenBack | src/agent_run_supervisor/native_acp/event_writer.py:776-790 | over every run the file only grows, failures accumulate, a settled phase never changes, lines and deadlines are fixed, and after a failure nothing more is accepted |
| LedgerDrain.AdmissionFailureStillDrains | src/agent_run_supervisor/native_acp/event_writer.py:808-973 | in every run from the start: whatever step fails a ledger with a live consumer (a refused line, a full queue, a deadline noticed by any pump, a broken clock or timer; not the sink, a cancelled consumer or the caching of a cancelled close), then in every run after it without a sink failure or cancelled consumer nothing admitted is dropped, and when the queue is empty or the consumer done the whole admitted prefix is persisted and settled ok |
| LedgerDrain.DrainCanFinish | src/agent_run_supervisor/native_acp/event_writer.py:540-624 | from any point of such a run with the consumer alive, its turns with a working sink persist the rest and let it exit |
| LedgerTheorems.OneTimerCoversAll | src/agent_run_supervisor/native_acp/event_writer.py:863-895 | while anything is pending in an open ledger, the armed timer is the head's deadline and no pending deadline is earlier |
| LedgerTheorems.PumpLeavesNoneExpired | src/agent_run_supervisor/native_acp/event_writer.py:808-861 | after any pump that leaves the ledger open, no pending ticket is past its deadline at the clock reading last taken |
| LedgerTheorems.NeverAdmittedLate | src/agent_run_supervisor/native_acp/event_writer.py:808-861 | in every run, no ticket was admitted at or past its deadline, even when there was room |
| LedgerTheorems.NoStall | src/agent_run_supervisor/native_acp/event_writer.py:794-861 | pending non-empty with nothing admitted is possible only if the head alone exceeds the tier's byte budget; if every record fits the initial budget it never happens |
| LedgerProgress.EverythingIsPersisted | src/agent_run_supervisor/native_acp/event_writer.py:540-624 | in a still world with room for every line, from every open unfailed state between appends, as many consumer turns as there are lines left persist everything accepted without a failure |
| LedgerProgress.CloseSucceeds | src/agent_run_supervisor/native_acp/event_writer.py:1064-1179 | and a close begun then ends in a cached success |
| LedgerProgress.SuccessIsReached | src/agent_run_supervisor/native_acp/event_writer.py:466-1179 | so a run from the start accepts a line, persists it and caches a successful close |
| EventWriter.FailPendingQueue | src/agent_run_supervisor/native_acp/event_writer.py:926-973 | the loop over the pending queue fails exactly those tickets, marking only the victim expired |
| EventWriter.FailAdmittedQueue | src/agent_run_supervisor/native_acp/event_writer.py:926-973 | the loop over the admitted queue fails exactly those tickets' persistence |
| EventWriter.SumCharges | src/agent_run_supervisor/native_acp/event_writer.py:1003-1024 | the recomputed total is the exact byte charge of the queue |
| EventWriter.Funnel | src/agent_run_supervisor/native_acp/event_writer.py:926-973 | the funnel run step by step leaves exactly the ledger of the failure step |
| EventWriter.PumpLoopRuns | src/agent_run_supervisor/native_acp/event_writer.py:808-861 | the pump's while loop terminates and leaves exactly the ledger of the pump step, from every balanced open ledger |
| EventWriter.EventWriter.Poison | src/agent_run_supervisor/native_acp/event_writer.py:926-973 | the object's failure funnel: its new state is the failure step's and the invariant is kept |
| EventWriter.EventWriter.Submit | src/agent_run_supervisor/native_acp/event_writer.py:669-761 | the object's acceptance: new state and reply are those of the acceptance step and the invariant is kept |
| EventWriter.EventWriter.Acknowledge | src/agent_run_supervisor/native_acp/event_writer.py:897-922 | the object's durable acknowledgement: its new state is the acknowledgement step's and the invariant is kept |
| EventWriter.EventWriter.Close | src/agent_run_supervisor/native_acp/event_writer.py:1052-1062 | the object's synchronous close cutoff: its new state is the close step's and the invariant is kept |
| Liveness.CrashedIsDead | src/agent_run_supervisor/process_liveness.py:145-179 | a holder judged crashed is really dead, whatever exited, was born, reused its PID or rebooted while the truthful probe ran |
| Liveness.CrashedLockIsDead | src/agent_run_supervisor/process_liveness.py:182-240 | a lock is judged crashed only when its supervisor and any recorded child are both dead |
| Liveness.VerdictIsExact | src/agent_run_supervisor/process_liveness.py:145-179 | with a complete record and all signals answered the verdict is alive exactly when the process is alive and crashed exactly when it is dead, unless another process shared its boot, PID and start tick |
| SessionTheorems.RunInv | src/agent_run_supervisor/session.py:403-889 | every interleaving of guarded operations, crashes and host steps keeps guard exclusion, fresh local copies and the gate's checks valid until the guard is left |
| SessionTheorems.QuarantineIsForever | src/agent_run_supervisor/session.py:403-584 | once fence or evidence is on disk, after any further run one of them still is, no refusing acquire ever succeeded in between, and recorded evidence and its record are unchanged |
| SessionTheorems.EvidenceIsMarked | src/agent_run_supervisor/session.py:430-473 | evidence changes only from none to what a marking caller brought: the first fact is kept |
| SessionTheorems.FenceGoesAfterEvidence | src/agent_run_supervisor/session.py:455-473 | a fence leaves the disk only when the evidence is already there |
| SessionTheorems.LeaseEndsRightfully | src/agent_run_supervisor/session.py:716-889 | over any run, a lease that is no longer in force was at some step released with its own token, or taken over at or past its expiry, or reclaimed when reclaimable with every recorded process dead |
| SessionTheorems.LeaseKeepsIdentity | src/agent_run_supervisor/session.py:824-866 | while a lease stands its lock changes only by a holder update with its own token, which keeps token, owner, expiry and supervisor identity and replaces any child recorded before |
| SessionTheorems.SecondUpdateForgets | src/agent_run_supervisor/session.py:846-866 | a second holder update leaves exactly what it alone would have left: the first child no longer protects the lease |
| SessionTheorems.ChildStays | src/agent_run_supervisor/session.py:824-866 | over any run, a lease still in force that no further holder update touched has the very lock it had, so a child recorded once is kept to the end |
| SessionTheorems.LastUpdateNames | src/agent_run_supervisor/session.py:824-866 | over any run, the lock of a lease in force is exactly what the last holder update with its token made of it: the child is the one named last |
| SessionChildren.ReclaimedUnderLivingChild | src/agent_run_supervisor/session.py:779-866 | a run from creation: a lease names one child and then another, its supervisor and second child exit, and a reclaim with a truthful probe is granted while the first child lives |
| SessionTheorems.SealedFromCreation | src/agent_run_supervisor/session.py:332-584 | of a Session from its creation: from the moment fence or evidence is on disk, no refusing acquire ever succeeds again |
| SessionTheorems.CreateNeverRaces | src/agent_run_supervisor/session.py:779-822 | the exclusive create under the guard always succeeds once reached, with a token never used before |
| SessionStore.SoloIsWhole | src/agent_run_supervisor/session.py:403-889 | left alone, each operation's steps finish, free the guard, and add up to the whole call's effect on the directory |
| SessionStore.Refusal | src/agent_run_supervisor/session.py:759-793 | an acquire not refused under refuse_quarantined found neither evidence nor fence; an update or release not refused named the token in force |
| SessionStore.SessionDir.MarkQuarantined | src/agent_run_supervisor/session.py:430-473 | evidence kept if present and recorded otherwise, fence cleared, lease untouched |
| SessionStore.SessionDir.Commit | src/agent_run_supervisor/session.py:502-584 | an observation is committed exactly when the Session has no evidence, and never changes evidence |
| SessionStore.SessionDir.AcquireLock | src/agent_run_supervisor/session.py:716-822 | a refused acquire changes nothing; a granted one leaves a lock with a fresh token, and under refuse_quarantined found the Session clean |
| SessionStore.SessionDir.UpdateLockHolder | src/agent_run_supervisor/session.py:824-866 | the holder is updated exactly for the token in force |
| SessionStore.SessionDir.ReleaseLock | src/agent_run_supervisor/session.py:877-889 | the lease is released exactly for the token in force, else nothing changes |
| Terminal.SizeIsAsPredicted | src/agent_run_supervisor/result.py:88-92 | the serialised size of an emitted terminal, from run id, run directory and Session name alone |
| Terminal.EmittedWellFormed | src/agent_run_supervisor/result.py:137-190 | every terminal reconciliation can emit meets the validator's shape, type, code and grammar rules, and reads back with its own status |
| Terminal.EmittedTrustedIff | src/agent_run_supervisor/result.py:314-405 | the validator trusts an emitted terminal exactly when its predicted size is within the ceiling |
| Terminal.OrdinaryFits | src/agent_run_supervisor/result.py:14-16 | identities and paths of up to ten thousand characters always fit |
| Terminal.LongNameIsUntrusted | src/agent_run_supervisor/session.py:87-92 | valid Session names exist whose terminal the validator refuses |
| ReconcileTheorems.RowIsItsOwn | src/agent_run_supervisor/arsd/reconcile.py:340-474 | a Run's facts, and so its row, are unaffected by the effects applied for another Run, whole or cut |
| ReconcileTheorems.RunResumes | src/agent_run_supervisor/arsd/reconcile.py:514-608 | a Run's row cut after any of its writes and begun again ends on the same disk with the same verdict, and then has nothing left to write, when its terminal fits the ceiling |
| ReconcileRuns.PassResumes | src/agent_run_supervisor/arsd/reconcile.py:495-511 | a whole pass cut after any write and rerun ends on the same disk with the same verdict as the uncut pass, when every terminal to be emitted fits the ceiling |
| ReconcileRuns.ReconciliationConverges | src/agent_run_supervisor/arsd/reconcile.py:477-608 | the same across any number of crashes, each after any write, when every terminal to be emitted fits the ceiling |
| ReconcileRuns.ConvergesIff | src/agent_run_supervisor/arsd/reconcile.py:477-676 | for a pass that listens, convergence across all crashes holds exactly when every terminal to be emitted fits the ceiling |
| ReconcileRuns.SecondPassIsQuiet | src/agent_run_supervisor/arsd/reconcile.py:477-608 | a further pass writes nothing, whether or not the first refused and whatever the size of what it emitted |
| ReconcileRuns.ExistingTerminalsStand | src/agent_run_supervisor/arsd/reconcile.py:640-676 | no write of any pass, finished, cut or refused, is to a terminal that already exists |
| ReconcileRuns.ListeningMeansSettled | src/agent_run_supervisor/arsd/reconcile.py:514-566 | after a pass that does not refuse, a dispatched Run without terminal has an unknown one and a quarantined Session; a pre-dispatch Run has a failed one, and with an unproven switch and an actionable Session that Session is quarantined |
| ReconcileSessions.WritesAreStoreCalls | src/agent_run_supervisor/arsd/reconcile.py:575-608 | reconciliation's writes to a Session leave the directory that the store's fence and mark calls leave, with the lease untouched |
| ReconcileSessions.NeverLeasedAgain | src/agent_run_supervisor/arsd/reconcile.py:514-608 | after a pass that listens, the Session of a dispatched Run without terminal, or of one with an unproven switch, is never again leased to a refusing caller, and its evidence stands |
| ReconcileRuns.RerunListensIff | src/agent_run_supervisor/arsd/reconcile.py:640-676 | after a pass that listened, the next listens exactly when every terminal the first had to emit was within the ceiling |
| ReconcileRuns.LongNameBlocksRestart | src/agent_run_supervisor/arsd/reconcile.py:640-676 | one Run whose Spec names a long Session: the first pass listens and the next refuses |
| ReconcileStore.Store.FenceAndQuarantine | src/agent_run_supervisor/arsd/reconcile.py:575-608 | the Session ends with evidence and no fence, by exactly the ordered writes |
| ReconcileStore.Store.EnsureTerminalProgress | src/agent_run_supervisor/arsd/reconcile.py:611-637 | progress is written only when its state differs, keeping the recorded counters |
| ReconcileStore.Store.WriteTerminalResult | src/agent_run_supervisor/arsd/reconcile.py:640-676 | a terminal is written only where none is |
| ReconcileStore.Store.ReconcileRun | src/agent_run_supervisor/arsd/reconcile.py:507-566 | one Run applied in place equals its row's writes, and refuses exactly when the row does |
| ReconcileStore.Store.Reconcile | src/agent_run_supervisor/arsd/reconcile.py:495-504 | the startup loop ends on the final disk of the pass with the pass's verdict |
| AdmissionTheorems.RunInv | src/agent_run_supervisor/arsd/handlers.py:1030-1243 | every interleaving of submits, drops, task ends, crashes and restarts keeps one owner per Run directory and one submission per acknowledgement |
| AdmissionTheorems.RegisteredAtMostOnce | src/agent_run_supervisor/arsd/handlers.py:1030-1158 | no Run is ever registered twice, across all restarts, even if two keys derive one run id |
| AdmissionTheorems.AcksAgree | src/agent_run_supervisor/arsd/handlers.py:1160-1243 | everyone ever acknowledged under one key got the same run_id, session_id and accepted_at and had sent the same digest |
| AdmissionTheorems.OtherDigestConflicts | src/agent_run_supervisor/arsd/handlers.py:1205-1209 | a different digest under an acknowledged key is answered with a conflict at any later time |
| AdmissionTheorems.SameRequestIsAnsweredIff | src/agent_run_supervisor/arsd/handlers.py:1222-1243 | the acknowledged request sent again is acknowledged alike exactly when its Run is live or has a trusted terminal, is indeterminate exactly when neither and no terminal, and refused exactly on an untrusted one |
| Restart.PassIsAStartup | src/agent_run_supervisor/arsd/reconcile.py:477-566 | a reconciliation pass over the daemon's directories is a startup of the admission model: it listens exactly when the pass does not refuse, and leaves the same terminals |
| Restart.CutPassIsAStartup | src/agent_run_supervisor/arsd/reconcile.py:477-566 | so is a pass cut by a crash after any of its writes, which does not listen |
| Restart.RestartAnswersIff | src/agent_run_supervisor/arsd/handlers.py:1160-1243 | after a restart whose reconciliation does not refuse, an acknowledged request sent again gets the same acknowledgement exactly when its Run had a terminal or the terminal to be emitted fits the ceiling |
| AdmissionTheorems.OnceTrustedAlwaysAnswered | src/agent_run_supervisor/arsd/handlers.py:1228-1243 | with a trusted terminal, the acknowledged request is answered alike forever |
| Registry.RegisterValidIff | src/agent_run_supervisor/arsd/handlers.py:273-310 | registration keeps capacity and one occupant per Session exactly when nobody else holds the Session it names |
| Registry.RegisterElsewhereBreaks | src/agent_run_supervisor/arsd/handlers.py:248-310 | in a fresh registry of two: reserve s1, register r1 under it, reserve s2, register r2 naming s1; every call succeeds and two Runs are in one Session |
| Registry.RegistryHolds | src/agent_run_supervisor/arsd/handlers.py:184-330 | in every run entries plus reservations never exceed the maximum, each Session has at most one occupant, and once admission is closed nothing is ever registered |
| RunRegistry.RunRegistry.Reserve | src/agent_run_supervisor/arsd/handlers.py:248-265 | a reservation is made or refused exactly as the table says, keeping the invariant |
| RunRegistry.RunRegistry.Register | src/agent_run_supervisor/arsd/handlers.py:273-310 | a reservation is consumed into an entry or refused, unchanged, for the named reason |
| RunRegistry.RunRegistry.CloseAdmission | src/agent_run_supervisor/arsd/handlers.py:238-246 | admission closed and reservations gone |
| Shutdown.LeaseOutlivesEveryRun | src/agent_run_supervisor/arsd/__main__.py:499-624 | in every run the lease is released only with admission closed and nothing registered or reserved, and so it stays, whatever phase failed, overran or was cancelled |
| Shutdown.LeaseOutlivesFromStart | src/agent_run_supervisor/arsd/__main__.py:499-624 | the same of a daemon from its start |
| Shutdown.CancelIsReraised | src/agent_run_supervisor/arsd/__main__.py:518-526 | in every run from the start, a caller whose shutdown finished is told of a cancellation exactly if one struck it while it waited, and the lease is gone |
| Shutdown.ReleasesOnceDrained | src/agent_run_supervisor/arsd/__main__.py:533-624 | with no Run left, in every run without a broken phase or cancelled owned task, at most nine turns of the shutdown's own tasks do anything, one always can while the caller waits, and afterwards the lease is released |
| KeyedLocks.MutualExclusion | src/agent_run_supervisor/arsd/admission.py:581-608 | in every interleaving with cancellation wherever a task is suspended, at most one task holds a key |
| KeyedLocks.OneLockPerKey | src/agent_run_supervisor/arsd/admission.py:592-608 | all tasks waiting for or holding a key use one lock object, whatever entries were removed |
| KeyedLocks.IdleEntryIff | src/agent_run_supervisor/arsd/admission.py:594-608 | an idle key keeps an entry exactly when, somewhere in the run, a task suspended on the key's lock was cancelled |
| KeyedLocks.EntryCanBeLost | src/agent_run_supervisor/arsd/admission.py:594-608 | two tasks: the second is cancelled while it waits for the first, the first leaves, and the entry stays with no task |
| KeyedLocks.Locks.BeginHold | src/agent_run_supervisor/arsd/admission.py:594-596 | the key's lock is found or made, and the task counted |
| KeyedLocks.Locks.EndHold | src/agent_run_supervisor/arsd/admission.py:602-608 | the task is discounted and the entry dropped when nobody is left |
| ModelLiteral.ParseLiteral | src/agent_run_supervisor/native_acp/config_fidelity.py:155-205 | the parser accepts exactly the literals some well-formed base and parameters print as, and returns them |
| ModelLiteral.ParseCompose | src/agent_run_supervisor/native_acp/config_fidelity.py:143-152 | parsing a composed literal returns the same base and ordered pairs |
| ModelLiteral.ComposeParse | src/agent_run_supervisor/native_acp/config_fidelity.py:155-205 | composing an accepted literal's parts returns its exact bytes |
| ConfigFidelity.GateMeansExact | src/agent_run_supervisor/native_acp/config_fidelity.py:393-710 | whatever is called in whatever order with whatever answers, an open gate means the set consumed last shows model, effort or every parameter, and permission mode exact, and the gate returns the requested pair |
| ConfigFidelity.PromptMeansExact | src/agent_run_supervisor/native_acp/config_fidelity.py:272-324 | the same of every machine as constructed for a request |
| ConfigFidelity.ComposedIsRequested | src/agent_run_supervisor/native_acp/config_fidelity.py:608-631 | the literal composed from the final readback is the requested one |
| ConfigFidelity.SetConfigExact | src/agent_run_supervisor/native_acp/driver.py:402-486 | no set frame is ever sent outside the script mode?, model, then effort or the parameters in order or nothing; a released pair means the whole script was sent and the agent's last answer is exact |
| ConfigFidelity.SetParameters | src/agent_run_supervisor/native_acp/driver.py:454-472 | the parameter loop terminates and sends the parameters in request order, stopping at the first leg not proven |
| EventLines.ReadLines | src/agent_run_supervisor/arsd/handlers.py:670-700 | the lines, and whether the reader refuses, are the plain log's for every chunking, and the buffer never exceeds the bound by more than one byte |
| EventLines.ReadEventLog | src/agent_run_supervisor/arsd/handlers.py:63-66 | the same with the program's own bounds |
| EventPages.ReadEventsPage | src/agent_run_supervisor/arsd/handlers.py:703-812 | the page loop returns exactly the specified page or refuses |
| EventPages.PageIsRight | src/agent_run_supervisor/arsd/handlers.py:703-812 | a page carries the first events past the cursor in order, verbatim, or as a marker exactly when the event is too large for a page of its own; its byte count is exact and within budget; it advances the cursor unless it is the last |
| EventPages.FollowIsTheLog | src/agent_run_supervisor/arsd/handlers.py:703-812 | for a log with increasing seq, following the cursor until exhausted yields every event once, in order, verbatim or, exactly when it is too large for any page, as a marker with its seq |
| EventPages.SoundLogIsRead | src/agent_run_supervisor/arsd/handlers.py:703-812 | a log without corrupt, too deep or unmarkable lines is never refused |
| Nesting.NestingExceedsBound | src/agent_run_supervisor/arsd/protocol.py:205-234 | the stack walk terminates and says yes exactly when the value is deeper than 64 containers or holds more than the visit budget |
| Nesting.FrameWithinBudget | src/agent_run_supervisor/arsd/protocol.py:38-52 | no value that fits one frame exceeds the visit budget |
| EventStore.WriteAll | src/agent_run_supervisor/event_store.py:557-593 | success appends exactly the data, failure a proper prefix of it |
| EventStore.CreatedWholeAndOnce | src/agent_run_supervisor/event_store.py:320-411 | over any creators and deaths the published name is absent or holds one creator's whole data, never changes, and at most one creator is told it succeeded |
| EventStore.PublishedFromNothing | src/agent_run_supervisor/event_store.py:320-411 | the same of any two moments of a run that begins with no file |

## Left out

- EventWriter.EventWriter.Submit: the object's fields are grouped in one record; the consumer and close coroutines are steps between suspension points, not methods.
- Terminal.EmittedTrustedIff: only for the two statuses reconciliation emits; Run-task terminals go through the ceiling themselves.
- LedgerProgress.EverythingIsPersisted: for a world in which no deadline passes while the lines are written.
- LedgerDrain.DrainCanFinish: shows that the consumer's turns finish the drain; it says nothing of how soon a scheduler gives them.
- Restart.RestartAnswersIff: a stored submission is taken to be the document that was written; the field-by-field submission validator is not modelled.
- KeyedLocks.MutualExclusion: a lock is handed to any waiter, not to the first.
- ConfigFidelity.GateMeansExact: the machine's fields are a value threaded through its calls; an option set is modelled after its parsing into a dictionary, and a malformed one is an absent one.
- EventPages.FollowIsTheLog: for a log that does not grow between pages.
- Clock readings and lease times are real or integer numbers; the event writer's canonical lines are ASCII, so their characters are their bytes.
- Reconciliation's timestamps are not part of its disk, and the Spec, launch and submission documents enter as validated, absent or corrupt.
- Evidence reason codes are not checked against their list in the Session model; a rejected code never reaches the guard.
- Host names identify hosts, lease tokens never repeat, and a digest determines the request it covers.
- File writes are atomic steps as `EventStore` justifies them for creation; modes, symlinks, fsync hardware behaviour and lost unsynced writes are not modelled.
- A registered task cancelled before its first step never removes its entry; the model makes removal an explicit step and does not claim it happens.
- The ACP connection, stream observers and prompt transport of `driver.py` and `client.py`; the follow stream and server plumbing.
- The systemd unit printer, path-overlap rules, redaction, operand checks, CLI, docs and website: easy members beside these.
