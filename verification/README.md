# Verification of the two-slot upgrade transaction

K upgrades a resident service through a crash-recoverable transaction over two slot directories,
`stable` and `experiment`. This project models that transaction in Dafny and proves what every run
of it keeps, whatever dies, fails, hangs or lands late. `dafny verify dfyconfig.toml` checks it.

The modules follow the program, bottom up:

- `State`, `Journals`: phases, receipts, exit codes, the transition table and the grammar of journals.
- `Storage`: the state directory and its operations. Renames and record writes are atomic, a directory
  removal can stop half way, and a fault may fall before or after each of them. `View` reads the four
  directories as the two slots of the harness.
- `Worlds`: the host beside the store. It runs what it is told; a call that is lost or times out stays
  in flight and lands at any later moment until a fence drains it. Every boundary checks the six
  oracles of `Invariants`, so a contract whose errors are all planned ones says that none is ever
  broken; every effect asked for is noted with the last durable intent.
- `Protocol`: `Consistent`, the invariant of every run, and `Recovered`, the durable state recovery
  converges to as a function of the disk alone.
- `Engine`, `Harness`: `upgrade`, `recover` and `rollback` as programs over that world; whole runs; and
  the shipped simulation over every crash schedule.
- `Receipts`, `Runner`, `Service`: the operation record and the archive, what ties them to journal and
  slots (`Agree`), a worker serving a request, and any number of workers one after another.
- `Supervisor`: the bounded retry loop around workers, composed with `Service`; `Guarded`: a worker
  under the contender lock.
- `Runs`, `Lock`, `Fence`: the contender lock and the controller records as step machines over any number of
  processes, and the same steps as the imperative code takes them, with others moving in between.
- `Codec`, `Log`: the bytes under the journal and the provenance history. It justifies the atomic
  `Append` of `Storage`.
- `Transfer`, `Versions`, `Convergence`: resumable transfer, the version order, the readback decision.

A fault plan (`map<nat, Fault>`) says at which boundary the worker dies, a call is refused or a call
hangs; it is an arbitrary input everywhere. `Planned(error, plan)` says that the plan accounts for an
error. Ghost state is confined to what properties of whole runs need: the evidence taken at each journal
length, the effects asked for, and the `History` of operations opened, driven and closed. The
predicates `Protocol.Settled`, `Protocol.Sound`, `Receipts.Agree`, `Receipts.Keeps` and
`Runner.Faithful` are written `( ... ) == true`, which only keeps the verifier from expanding them at
every use.

What the proofs assume of the system: the stable slot was bootstrapped before the first upgrade;
versions are nonempty; every upgrade carries an operation descriptor, as the runner's requests always
do; operation ids do not collide under the archive's file name. Between workers the service may be
stopped from outside at any time; only the claims that it runs carry the hypothesis that it was not
stopped since it was last started (`Host.stopped`). It may be started from outside wherever that cannot
make two run (`Startable`, exactly those states by `Protocol.OutsideStart`); elsewhere, while a
transaction hands the service over, nobody else starts it: the code's assumption `ExclusiveHandoff`
(src/invariants.rs:61).

Four places where the code does less than one may expect, each stated exactly:

- An operation that asks for the version already installed and is interrupted right after it was
  opened may be closed as promoted with nothing promoted since (`Receipts.SettleVerdict` says exactly
  when, `Service.RepeatedRequest` is a run that shows it).
- Under supervision, an upgrade held because another manager owns the installation settles at once
  exactly when the records already close it as held (`Supervisor.ManagedHoldSettles`); otherwise its
  recovery is served exactly when the records hold that id and target (`Runner.UnservedExactly`), and
  when they do not the request stays unresolved (`Supervisor.Supervisor.Supervise`).
- A controller call whose exit could not be asked for ends in a definite error, so the host may be
  called again while that controller still runs (`Fence.TwoMayBeLoose`); what fencing first gives is
  `Fence.AtMostOneLoose`. The engine asks for no effect while an earlier one may land
  (`Service.Life`).
- The lock is kept after an uncertain error, not exactly while a call may still land. A live worker
  that left a call of its own in flight releases the lock exactly when the call ended in a definite
  error, or hung for an operation whose record could then not be written, whose error replaces the
  uncertain one (`Runner.InFlightIsTold`, `Guarded.ServeGuarded`; `Guarded.ReleasedInFlight` is a run,
  `Guarded.LoseFirstCall` decides all plans that lose the first call). A worker that fails before its
  own fence leaves an earlier call as it found it, and one whose fence, probe or readback hangs keeps
  the lock with nothing to land. What makes up for it is that the operation is then still open
  (`Receipts.InFlightIsUnfinished`): the next worker fences before it asks for any effect.

## Model

| member | source | states |
|---|---|---|
| `Storage.FileStore.RemoveDir` | src/storage.rs:76-90 | A removal interrupted anywhere leaves the directory whole, partial or gone, and nothing else changed; an absent directory is removed without an error |
| `Storage.FileStore.Rename` | src/storage.rs:64-75 | A rename happens completely or not at all, and is refused without effect when the source is missing or the target is there |
| `Storage.FileStore.Populate` | src/storage.rs:203-228 | Only the staging directory changes; leftovers of any earlier attempt do not matter and success leaves it complete with the version asked for |
| `Storage.FileStore.Stage` | src/storage.rs:375-380 | Staging refines the one-step slot of the harness: finished it is that step, interrupted on an empty experiment slot it is that step or nothing |
| `Storage.FileStore.Promote` | src/storage.rs:381-396 | Its directory operations refine one commit step: from every state it can be run from, after success, failure or death at any boundary the two-slot view is the old one or the committed one, and it can be run again |
| `Storage.PromoteUntilDone` | src/storage.rs:381-396 | From every state it can be run from, a leftover backup included: interrupted any number of times and then done again, promotion is exactly one commit step of the two slots, and after each interruption the slots show that step or nothing |
| `Storage.FileStore.Clear` | src/storage.rs:397-399 | Clearing refines the one-step slot: invisible or done, never anything else |
| `Storage.FileStore.Append` | src/storage.rs:337-368 | An append adds exactly the entry or nothing, and an entry with any but the next sequence number is refused without effect |
| `Storage.FileStore.PersistArchive` | src/storage.rs:287-287 | Where no receipt is archived yet, one is written whole or not at all, and no other receipt changes |
| `Storage.FileStore.PersistOperation` | src/storage.rs:251-254 | The operation record is replaced whole or not at all, as the two boundaries around the write decide |
| `Invariants.CheckInvariants` | src/invariants.rs:116-126 | No violation is reported exactly when every given oracle holds of the snapshot |
| `Journals.LegalIsTheTable` | src/state.rs:175-197 | The legality test the engine is held to accepts exactly the pairs of the transition table |
| `Journals.JournalGrammar` | src/state.rs:175-197 | A journal in which every entry continues its predecessor is exactly a concatenation of complete walks from Idle to a resting phase followed by at most one unfinished walk, in both directions |
| `Journals.Decompose` | src/state.rs:175-197 | Gives the walks and the unfinished tail of every such journal |
| `Journals.RestReachedBy` | src/engine.rs:148-190 | A Promoted entry is always the end of the five-entry forward walk Staged, HandingOver, RunningExperiment, Readback, Promoted |
| `Journals.WalkSinceRest` | src/engine.rs:148-190 | A promotion after a resting point has its whole walk after that point |
| `Worlds.World.Step` | src/harness.rs:78-94 | A boundary fails when an oracle is broken there, and otherwise only by an injected fault |
| `Worlds.World.Call` | src/harness.rs:183-254 | A host call takes effect, does not, or stays in flight (lost with the worker, timed out, or failed with its controller out of sight); a call left in flight fell at the last boundary and is the error; with the oracles intact no error but the injected one is possible |
| `Worlds.World.Fence` | src/host.rs:221-247 | After a successful fence no call is in flight, whether or not it landed meanwhile |
| `Worlds.World.Probe` | src/harness.rs:224-240 | The evidence is that of the live process, and it is remembered with the newest incarnation under the journal length it was taken at; a stopped service is a refusal of its own |
| `Worlds.World.Promote` | src/harness.rs:157-170 | The running candidate becomes the stable process exactly when the commit rename is done |
| `Protocol.ShapeFacts` | src/invariants.rs:58-115 | In every phase at most one service runs, it runs what its slot holds, and the stable version can be read |
| `Protocol.StableUnlessPromoting` | src/storage.rs:381-396 | At every instant of every run the stable directory is complete, unless the last durable intent is Promoted and both candidate and backup are complete |
| `Protocol.CandidateRunsParked` | src/engine.rs:156-188 | In every state of every run, while a candidate runs from the experiment slot the workload is parked |
| `Protocol.ConsistentIsClean` | src/invariants.rs:58-115 | The run invariant implies all six built-in oracles, so no harness boundary of any run reports a violation |
| `Protocol.LandingIsSafe` | src/engine.rs:64-68 | A host call that timed out may land at any later moment and the run stays within its invariant |
| `Protocol.HandIsSafe` | src/engine.rs:81-94 | Between workers the service may be stopped from outside in any phase, and started in every state in which that cannot make two run, and the run stays within its invariant |
| `Protocol.OutsideStart` | src/invariants.rs:44-61 | The run survives a start of the stable service from outside exactly when no candidate runs, is being tried or promoted, or may still be started by a call in flight |
| `Protocol.OutsideStartMayMakeTwoRun` | src/invariants.rs:58-66 | A handover with the start of the candidate in flight: a start from outside leaves the invariant, and once the call lands two services run |
| `Protocol.DueCallIsSafe` | src/engine.rs:64-68 | However a due host call ends (not issued, lost in flight, done) the run stays within its invariant |
| `Protocol.CommitIsSafe` | src/engine.rs:108-111 | Between and after the renames of a durable promotion the invariant holds and recovery settles on the same version |
| `Protocol.RollbackIsSafe` | src/engine.rs:197-203 | A rollback may be decided in every unfinished phase once no call is in flight |
| `Protocol.AdvanceIsSafe` | src/engine.rs:148-190 | Each forward intent of an upgrade is legal, keeps the invariant, and moves what recovery would settle on exactly at Promoted |
| `Protocol.RollbackIsRecovery` | src/engine.rs:118-131 | Having recorded the rollback that recovery would record does not change the state recovery gives |
| `Protocol.AttestedPromotion` | src/engine.rs:163-188 | A Promoted entry follows a probe that reported the promoted version from an incarnation newer than any there was when the transaction was about to begin, and other than the one recorded at handover |
| `Engine.Engine.Journal` | src/engine.rs:69-80 | The next intent is durable or not, the sequence number advances only with it, and no error but a planned one is possible |
| `Engine.Engine.Bounded` | src/engine.rs:64-68 | A host call under its budget, asked for when it is due, keeps the invariant in every way it can end, and one left in flight is what it fails of |
| `Engine.Engine.Fence` | src/engine.rs:102-102 | A successful fence leaves nothing in flight and the invariant intact |
| `Engine.Engine.Commit` | src/engine.rs:108-109 | A commit, begun or repeated, ends with the candidate as stable and as the running service |
| `Engine.Engine.Finish` | src/engine.rs:108-111 | Replaying a durable promotion settles the installation on the candidate |
| `Engine.Engine.Restore` | src/engine.rs:112-117 | Stop, start, resume, clear, repeated from any interruption, settles the installation on stable with its service running, even one that was stopped from outside |
| `Engine.Engine.Rollback` | src/engine.rs:197-210 | Records the rollback once and settles the installation on the old version |
| `Engine.Engine.ObserveSettled` | src/engine.rs:84-94 | Succeeds exactly on a journal at rest, and continues its sequence |
| `Engine.Engine.Replay` | src/engine.rs:103-132 | Replaying the last durable intent converges to the recovered state, and every interruption recovers to the same state |
| `Engine.Engine.Recover` | src/engine.rs:95-133 | One recovery ends settled with exactly the durable state `Recovered` of what it found, and past a handover with the service running; interrupted anywhere it leaves something with the same `Recovered` state; no refusal of its own is possible, and a call in flight afterwards is one it found or the one it failed of |
| `Engine.Engine.HandOver` | src/engine.rs:157-160 | Quiesce, stop, start leaves exactly the candidate running, as a new incarnation, with the workload parked |
| `Engine.Engine.Judge` | src/engine.rs:172-188 | Accepts exactly a fresh incarnation that reports the target and is not refused |
| `Engine.Engine.Observe` | src/engine.rs:163-171 | Evidence is journaled as Readback only if it was observed; a definite probe failure journals nothing |
| `Engine.Engine.Decide` | src/engine.rs:172-192 | Promotes exactly what the readback accepts and rolls everything else back, settled either way |
| `Engine.Engine.Trial` | src/engine.rs:163-192 | A running candidate ends promoted or rolled back, settled, as the readback decides |
| `Engine.Engine.Prepare` | src/engine.rs:148-162 | Stages, hands over and runs the candidate, with the prior incarnation in the handover entry |
| `Engine.Engine.Upgrade` | src/engine.rs:134-192 | Interrupted anywhere, recovery would settle on the target exactly when the Promoted intent is durable and on the old version otherwise; up-to-date exactly when stable already is the target, and then the host is left alone; otherwise it ends with the service running, also from a stopped one; unless a probe is refused the readback alone decides, and a service that ran before is named in the handover entry; the only unplanned error is evidence with the verifier's own pid; a call left in flight is what it fails of |
| `Harness.RecoverOnce` | src/engine.rs:95-133 | One worker's recovery, whatever it meets, lands late or was stopped from outside, preserves the invariant and the state recovery converges to |
| `Harness.RecoverUntilDone` | src/engine.rs:95-133 | Recoveries that fail anywhere, any number of times, then one left alone, give exactly the state one undisturbed recovery gives; the service runs unless it was stopped from outside |
| `Harness.RecoveryDecides` | src/engine.rs:103-132 | Recovery of an interrupted upgrade installs the target exactly when its Promoted intent was durable |
| `Harness.UpgradeThenRecover` | src/engine.rs:95-192 | An upgrade interrupted at any boundary, then recovered through any failures: the disk it was cut off at recovers to what is found, nothing is parked, staged, backed up or in flight, stable is the target exactly when the Promoted intent was durable on that disk, the one stable service runs unless it was stopped from outside, and every effect was asked for under its own durable intent with nothing in flight |
| `Harness.SettledPasses` | src/harness.rs:307-318 | A settled installation passes everything the simulation asks after a round |
| `Harness.Attempt` | src/harness.rs:288-302 | An attempt dies at its crash boundary, succeeds, or fails only on evidence with the verifier's own pid |
| `Harness.Simulate` | src/harness.rs:275-333 | For every number of rounds, target, crash boundary and readback choice the simulation passes, and it can only fail where an incarnation number equals the verifier's pid |
| `Receipts.OpenIsSafe` | src/runner.rs:338-366 | Opening an unused operation on a settled installation, its predecessor archived, keeps journal and receipts in agreement and every receipt readable |
| `Receipts.TransitionIsSafe` | src/runner.rs:168-187 | Progress and a justified outcome keep the agreement and every receipt |
| `Receipts.ArchiveIsSafe` | src/storage.rs:272-290 | Archiving a finished operation keeps the agreement, and what is archived under its id is absent or the same receipt, so the archive conflict cannot occur |
| `Receipts.RecoverStepIsSafe` | src/runner.rs:226-242 | The engine's recovery, finished or not, keeps journal and receipts in agreement |
| `Receipts.RecoveryKeepsProgress` | src/engine.rs:95-133 | Recovery neither adds nor loses a promotion of an open operation |
| `Receipts.DriveIsSafe` | src/runner.rs:476-476 | An operation not driven before may be driven, and is then on record as driven once |
| `Receipts.ConclusionIsRecordable` | src/runner.rs:488-531 | Each way the engine finishes justifies the outcome that is recorded for it |
| `Receipts.PromotionWasObserved` | src/engine.rs:143-191 | Behind every receipt of a version-changing promotion, direct or settled later, stand since it was opened a handover to the target, a probe reporting the target from an incarnation newer than any there was when that transaction was about to begin (and not the one recorded at handover), and the Promoted entry after it |
| `Receipts.SettleVerdict` | src/runner.rs:188-225 | Closing an interrupted operation records a promotion exactly when one was journaled since it was opened, or when it asked for the version already installed and the journal ends in an earlier promotion |
| `Receipts.LandingKeepsAgreement` | src/runner.rs:261-266 | A host call landing between two workers disturbs no receipt |
| `Receipts.HandKeepsAgreement` | src/engine.rs:81-94 | Stopping the service between two workers, or starting it where that cannot make two run, disturbs no receipt |
| `Receipts.InFlightIsUnfinished` | src/runner.rs:226-242 | A host call can be in flight only while an operation is open, so the next worker recovers, fence first |
| `Receipts.SuccessWasInstalled` | src/runner.rs:188-225 | For every receipt with a successful outcome, stable held its target when it was written |
| `Runner.PriorFacts` | src/runner.rs:147-167 | A request goes on only when no receipt of it is in the way; otherwise the answer is the receipt itself as it stands on disk, or one of three refusals |
| `Runner.Runner.Transition` | src/runner.rs:168-187 | Rewrites only the operation record, to exactly the new phase, outcome and reason |
| `Runner.Runner.Settle` | src/runner.rs:188-225 | On a settled installation closes an open operation as promoted exactly when the journal ends in a promotion and stable is the target, as rolled back otherwise; slots, journal and archive stay, and a closed operation is left alone |
| `Runner.Runner.RecoverEngine` | src/runner.rs:226-242 | Ends with the recovered state of what it found, settled; with a finished operation neither records nor host are touched, whether or not the service runs; the state mismatch and the unfinished journal refusals are never reached, whatever happened before |
| `Runner.Runner.Recover` | src/runner.rs:245-259 | A recovery ends with the expected operation closed as the recovered journal says, or names the reason: a planned fault, a lock not obtained, or records it has to decline, untouched; a finished operation leaves the host alone, and a recovery nothing hinders succeeds |
| `Runner.Runner.Archive` | src/storage.rs:272-290 | Retires a finished receipt; the archive conflict is never reached |
| `Runner.Runner.Open` | src/runner.rs:338-366 | Archives the predecessor and opens the operation with the installed version as its origin; dying right after the record is written leaves it open |
| `Runner.Runner.Hold` | src/runner.rs:534-555 | A held operation is closed as held and nothing is driven |
| `Runner.Runner.Vet` | src/runner.rs:367-426 | Goes on exactly when the release is the one asked for, somebody or the policy consented, and it is compatible; otherwise the operation is closed as held or failed |
| `Runner.Runner.Acquire` | src/runner.rs:427-447 | Downloading, verifying and staging outside the slots changes the operation record only, also when it fails |
| `Runner.Runner.PrepareCandidate` | src/runner.rs:448-474 | A candidate that refuses its preparation closes the operation as failed and is not driven; without a fault it is accepted |
| `Runner.Runner.Drive` | src/runner.rs:476-487 | The one place that hands an operation to the engine: it is recorded as driven, the record stays open, the outcome reported is one the journal and slots justify, and without a fault it is the fair one (up-to-date, rolled back or promoted by versions and readback) |
| `Runner.Runner.Falter` | src/runner.rs:477-487 | The engine's error is noted in the open record and reported; if the record cannot be written, that error takes its place, even of an uncertain one |
| `Runner.Runner.Install` | src/runner.rs:476-531 | A finished upgrade is closed with the outcome the engine reported; after an error the record is still open, or closed with that outcome |
| `Runner.Runner.Admit` | src/runner.rs:317-348 | Replays a finished request, catches up with an earlier worker, and finds no operation in progress; a new operation is admitted unless a fault occurs |
| `Runner.Runner.DriveLocked` | src/runner.rs:312-533 | A request served under the lock ends with its operation closed as reported, replayed from its receipt, or a foreseen error; journal and receipts agree at every way out; and a new accepted operation that meets no fault ends with the fair outcome |
| `Runner.Runner.Upgrade` | src/runner.rs:291-304 | A managed installation or a lock not obtained leaves everything untouched |
| `Runner.Runner.Dispatch` | src/runner.rs:613-650 | Each kind of request leaves the records as its answer needs them: closed, replayed, declined for a stated reason, or untouched when the lock is not obtained |
| `Runner.RespondIsFaithful` | src/runner.rs:651-707 | What the worker's methods left and met is told faithfully: exit code 0 for an identified request means a terminal successful receipt of it on disk; every response without an error closes its request, except a hold by another manager, which is told as such; busy is answered exactly when the lock was taken by somebody who looks alive; an error response says by its result and exit code whether work may remain; the receipt mismatch cannot occur |
| `Runner.UnservedExactly` | src/runner.rs:147-167 | A recovery is not served exactly when the record is unreadable or holds no operation of that id and target |
| `Runner.ManagedHoldCloses` | src/runner.rs:291-304 | A hold by another manager closes its request exactly when the current record already closes it as held |
| `Runner.Runner.Execute` | src/runner.rs:613-707 | One request, whatever the worker meets: journal and receipts agree afterwards, no receipt is lost, only an accepted upgrade reaches the engine and at most once, the response is honest, every error is foreseen, a new upgrade that nothing hinders ends with the fair outcome on record, a recovery that nothing hinders closes the open operation as the recovered journal says, and a host call of its own still in flight is what it failed of |
| `Runner.InFlightIsTold` | src/runner.rs:477-487 | A live worker that left a host call in flight reports an uncertain error exactly when the call hung and, if it was driving an operation, the record of it could then be written |
| `Runner.InFlightSinceOnce` | src/runner.rs:477-487 | Where the worker ended determines the boundary at which its call was left in flight |
| `Service.Serve` | src/runner.rs:613-707 | The same for a worker that may die or fail anywhere, find an earlier host call landing late, or the service stopped; a request nothing can come of leaves the records as they are and its response is fruitless |
| `Service.ServeAll` | src/runner.rs:613-707 | Over every sequence of requests, recoveries and deaths no receipt changes or is lost and no worker is refused because journal and receipts disagree |
| `Service.Life` | src/runner.rs:147-167 | From a fresh installation on: no operation is driven twice, every driven one is on record, every terminal receipt was true when written, a host call is in flight only with its operation open, and every effect of every worker was asked for while the last durable entry was the intent that authorizes it, with no earlier call in flight |
| `Service.RepeatedRequest` | src/runner.rs:188-225 | The second case of `SettleVerdict` as a run: after a successful upgrade a worker asked for the same version dies at the boundary right after its operation is recorded, and the next one, asked to recover, closes it as promoted with no promotion since |
| `Guarded.ServeGuarded` | src/runner.rs:243-268 | A worker without the lock touches nothing; one with it retains it exactly after an uncertain error and otherwise leaves neither lock file nor claim. A call of its own left in flight is covered by a retained lock exactly when it hung and the record of a driven operation could then be written, so always in a run where no call is lost in a definite error and none that hung is followed by a failing write; the operation is open either way and the answer asks for recovery |
| `Guarded.Depart` | src/runner.rs:262-268 | The worker's end, the others moving meanwhile: a death leaves the lock file, an uncertain error keeps the lock, anything else gives it back |
| `Guarded.LoseFirstCall` | src/runner.rs:305-309 | From every installation at ease and for every plan whose first fault loses the first host call of a new upgrade: the call is in flight when the worker ends, and a live worker keeps the lock exactly when the call hung and neither boundary of the record write fails |
| `Guarded.ReleasedInFlight` | src/runner.rs:477-487 | A run from a fresh installation that ends with a call in flight, the lock file gone and the operation open |
| `Supervisor.Supervisor.Run` | src/supervisor.rs:77-135 | One worker: at most its budget and the reap time pass, its exit is logged only when seen, and a response is taken only from a worker that exited with its code |
| `Supervisor.TriedOnce` | src/supervisor.rs:217-232 | One more attempt keeps the log orderly: started only after the one before was seen to exit, the request first and only its recovery later |
| `Supervisor.SettledMeansInstalled` | src/supervisor.rs:136-164 | A response that settles with exit code 0 shows a receipt on record, and stable held the target when it was written |
| `Supervisor.AttemptDecides` | src/supervisor.rs:234-253 | An undisturbed recovery leaves a request unsettled only if its operation is unknown, of another target, or unreadable |
| `Supervisor.Supervisor.Retry` | src/supervisor.rs:214-258 | At most recovery_attempts + 1 workers, one at a time, within total_ms and the reap time, for any behaviour of the workers |
| `Supervisor.Supervisor.Supervise` | src/supervisor.rs:181-259 | Refuses exactly invalid options; otherwise the attempts are accounted for, success is backed by the receipt and the installation, and an unresolved end is explained; what the records do not know and another manager holds, or is only to be recovered, stays unresolved and untouched |
| `Supervisor.ManagedHoldSettles` | src/supervisor.rs:136-164 | Under supervision the worker's answer to an upgrade another manager holds settles exactly when the records already close that operation as held |
| `Lock.StepIsSafe` | src/lock.rs:69-168 | Every step of every process, death and reuse of a process number included, keeps the lock invariant |
| `Lock.MutualExclusion` | src/lock.rs:69-149 | In every state of every run at most one live contender is past its scan, its claim exists, and a holder's lock file is its own |
| `Lock.ForeignStepIsHarmless` | src/lock.rs:97-141 | No step of another process removes a live contender's claim, or touches the lock file while it is past its scan |
| `Lock.HolderKeepsItsLock` | src/lock.rs:69-168 | From the moment a process holds the lock, through its work and its release, its lock file and claim stay whatever all others do |
| `Lock.RetainedUntilExit` | src/lock.rs:150-157 | A retained lock ends only with its process |
| `Lock.RetainedKeepsOthersOut` | src/lock.rs:150-157 | While a process that retained the lock lives, no other contender gets past its scan |
| `Lock.WorkIsSerial` | src/lock.rs:69-168 | Between two moments at which one contender owns the lock no other does, in every interleaving: what is done under the lock is done one worker after another |
| `Lock.UpgradeLock.Scan` | src/lock.rs:85-111 | Ends blocked or past the scan with the invariant intact; left alone it blocks exactly when a claim made before it is of a process that looks alive, and touches no lock file |
| `Lock.UpgradeLock.Contend` | src/lock.rs:112-142 | Ends holding with its own record in the file, or not at all: taken, or with a record that cannot be written, which it tells apart; left alone it gives way exactly to an owner that looks alive, whose file it leaves; whatever others do it needs at most two of its 50 tries |
| `Lock.UpgradeLock.Acquire` | src/lock.rs:69-149 | Success means holding; failure withdraws the claim and says whether the lock is taken or the record could not be written; left alone it is taken exactly when a claim or the lock record is of a process that looks alive |
| `Lock.UpgradeLock.RetainUntilExit` | src/lock.rs:150-153 | Retaining changes nothing but the flag |
| `Lock.UpgradeLock.Release` | src/lock.rs:154-168 | Release leaves neither lock file nor claim, with nobody past a scan in between; a retained or released lock is left as it is |
| `Codec.EncodeRoundTrip` | src/storage.rs:363-364 | An encoded entry has no newline, is not blank, and decodes to itself, for every body |
| `Log.TornBytesAreInvisible` | src/storage.rs:315-334 | Bytes short of a newline add nothing to what is read |
| `Log.CutKeepsLines` | src/storage.rs:346-354 | Truncating the tail at any length keeps every committed line |
| `Log.AppendedReadsBack` | src/storage.rs:363-365 | A written entry reads back as one entry more; written short of its newline it is not there |
| `Log.CorruptionStops` | src/storage.rs:315-333 | A corrupt or misplaced committed line makes the whole log unreadable: nothing after it is ever read past it |
| `Log.ReadIsOrdered` | src/storage.rs:330-333 | Every entry read follows the ones before it by the rule of its log |
| `Log.ContiguousFromZero` | src/storage.rs:329-331 | The entries of a readable journal are numbered 0, 1, 2 and so on |
| `Log.IncreasingThroughout` | src/report.rs:369-371 | The numbers of a readable provenance history grow strictly |
| `Log.LogFile.Read` | src/storage.rs:309-336 | The loop returns exactly the committed entries, or fails exactly on a corrupt or misplaced one |
| `Log.LogFile.Committed` | src/storage.rs:348-348 | The position found is that after the last newline |
| `Log.LogFile.Repair` | src/storage.rs:346-354 | Repair, finished or not, removes tail bytes only |
| `Log.LogFile.Append` | src/storage.rs:337-368 | Dying at any byte of the repair or the write, the file reads as before or with the one entry more, which it has exactly when the newline was written; committed bytes never change |
| `Log.LogFile.Record` | src/report.rs:392-440 | Without an explicit number an append is never refused for its order; an explicit one is refused only when it does not follow |
| `Log.LogFile.Session` | src/report.rs:392-440 | Over any number of appends and deaths the earlier entries stay, every acknowledged entry is there, and nothing else is but what was asked for, in order |
| `Fence.StepIsSafe` | src/host.rs:88-247 | Every step of workers, controllers and bystanders keeps the controller invariant, with calls issued at any time |
| `Fence.LooseIsRecorded` | src/host.rs:122-141 | In every interleaving a live controller that got a complete request has a durable record |
| `Fence.FenceLeavesNoneLoose` | src/host.rs:221-247 | In every interleaving, when a fence has drained no controller of any worker can still have an effect |
| `Fence.AtMostOneLoose` | src/host.rs:88-121 | If every call is issued only after a fence has succeeded since the last one left open, at most one controller can have an effect at any time, and none when a call is issued |
| `Fence.UnresolvedIsLeftOpen` | src/host.rs:194-205 | The state says a call is unresolved exactly when one was left with its controller's exit unobserved and no fence has succeeded since |
| `Fence.TwoMayBeLoose` | src/host.rs:194-194 | Without fencing first it fails: a worker that goes on after an error in asking for the exit has two controllers that can have an effect |
| `Fence.CommandHost.Call` | src/host.rs:88-217 | A call seen to its end leaves nothing; any other leaves its record, if it got as far as writing it, and so does every controller that can have an effect; no other controller becomes able to have one by it |
| `Fence.CommandHost.Await` | src/host.rs:237-242 | Never takes more patience than it was given, and reports a number gone only when it is; left alone, exactly when it is |
| `Fence.CommandHost.DrainAll` | src/host.rs:221-245 | Left alone, the drain succeeds exactly when no recorded number is of a live process |
| `Fence.CommandHost.Fence` | src/host.rs:221-247 | Success leaves no controller of any call that can have an effect, its own included |
| `Fence.CommandHost.Work` | src/engine.rs:95-133 | A worker that fences first and stops at the first call not seen to its end leaves at most one controller that can have an effect, whatever its predecessors left |
| `Transfer.BudgetsFor` | src/artifact.rs:106-125 | Refuses exactly the invalid policies; the budget lies between the response time and the cap, and uncapped it suffices for the size at the minimum rate |
| `Transfer.ParseContentRange` | src/artifact.rs:343-355 | What parses is a nonempty range within its total, within 64 bits |
| `Transfer.ContentRangeRoundTrip` | src/artifact.rs:343-355 | Every valid header of section 14.4 of RFC 9110 with known length parses to its numbers |
| `Transfer.Downloader.Accept` | src/artifact.rs:245-265 | A partial answer is used exactly when it covers the rest of the release from the offset asked for |
| `Transfer.Downloader.Receive` | src/artifact.rs:295-314 | Throughout the chunk loop the file is the buffer and within the declared size; a death leaves the file between what it was and what the body makes of it |
| `Transfer.Downloader.Transfer` | src/artifact.rs:222-325 | What is returned has the declared size and digest and is the partial file; from an honest server and undisturbed it succeeds exactly when the kept bytes were right, and disturbed it loses none of them |
| `Transfer.Fetch` | src/artifact.rs:222-325 | From any partial file an honest server delivers the release within two attempts |
| `Versions.IsNewer` | src/source.rs:104-124 | The loop decides by the first differing component, missing ones counting 0, then release above prerelease |
| `Versions.StrictWeakOrder` | src/source.rs:104-124 | Newer is irreflexive, asymmetric, transitive, and ties are transitive, on all strings |
| `Versions.IncomparableIsSame` | src/source.rs:102-103 | Two versions tie exactly when their cores agree and both or neither are prereleases |
| `Versions.NewerIsLexicographic` | src/source.rs:104-124 | Newer equals word order on the cores without trailing zeros, then release above prerelease |
| `Convergence.Admissible` | src/report.rs:52-58 | Surfaces are admitted exactly when all have names, each its own |
| `Convergence.Convergence.ReadSurfaces` | src/report.rs:116-140 | The loop passes exactly when every surface converged and otherwise names the first that did not |
| `Convergence.Convergence.Evaluate` | src/report.rs:97-146 | Accepts exactly valid evidence of the target with all surfaces converged, and remembers what it saw |
| `Convergence.DecideAndReport` | src/report.rs:299-311 | A report licenses retirement of the old manager exactly when surfaces were configured and the decision it reports accepted the target |

## Left out

- Worlds.World.Call: the controller protocol, its JSON and its error texts are one outcome here; `Fence` models the processes.
- Codec.EncodeRoundTrip: an own line format stands for JSON, whose serializer is a library; it shows that what the log needs of one can be had.
- Runner.Runner.Recover: whether the lock was obtained is an input here; `Guarded.ServeGuarded` takes it, keeps it or gives it back.
- Runner.Runner.Upgrade: the lock is an input here too.
- Worlds.World.LandLate: a late call lands between two workers or at the fence; landing anywhere else is covered by `Protocol.LandingIsSafe`, which holds at every state.
- Storage.FileStore.Append: the entry is a value and atomic; `Log` proves that of bytes, with its own line format instead of JSON.
- Runner.Runner.Acquire: downloading is one step that may fail; `Transfer` models it.
- Runner.Runner.Vet: errors of the compatibility hook are one kind of failure, and a release source without a pinned target (`check`) is not modelled.
- Engine.Engine.Evaluate: the predicates are a choice to refuse; `Convergence` models the shipped one.
- Supervisor.Supervisor.Run: a killed worker's effects are those of a death at some boundary of its fault plan; the clock advances by given amounts.
- Lock.UpgradeLock.Acquire: claim names are unique numbers, the directory holds only claims, and file-system errors other than a failed record write are not modelled.
- Fence.CommandHost.Call: which of record and request are reached before the timeout, and whether the exit can be asked for, are inputs; a timed out call whose controller is then seen to exit counts as seen.
- Timestamps, metadata, provenance fields and the previous stable version of records; the text of most reasons.
- Integer widths of sequence numbers, sizes and times (unbounded here), except in header and version parsing.
- Trimming of version files; permissions, symbolic links, fsync as such, platform branches.
- SHA-256 (an abstract digest), gzip, data URLs, HTTP, the manifest source.
- `Runner::rollback`, upgrades without an operation descriptor, and bootstrapping after a recorded operation: outside the invariant the receipts keep.
- `resume_runner` and the recovery descriptor; it supervises a recover request, which `Supervise` covers.
- The seeds of the simulation (every schedule is covered instead) and its deliberate mutations.
- Quarantine, the serve loop, the adapter programs, progress notifications, credential redaction: short code without a property that spans operations.
- Workers interleaved step by step over one store: `Lock.WorkIsSerial` proves that what is done under the lock is not interleaved, and `Service` runs workers one after another.
