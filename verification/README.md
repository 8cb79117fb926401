# Verified models of the education agent's stateful cores

This project models six stateful parts of the repository in Dafny 4.11 and proves what they are meant to
guarantee. `dafny verify dfyconfig.toml` checks all of it.

Wherever the program updates state in place the model is a class or an array with a method per operation. Each
method is proved to do exactly what a specification says (the durable steps it takes, the next state of the broker,
the request it assembles), and the guarantees are then lemmas about that specification, for all inputs, all runs,
all interleavings and all crash points.

## The crash-safe backup prune

`Basics`, `Ordering`, `Numerals`, `Timestamps`, `Moments`, `Inventory`, `Directory`, `Relocation`, `PruneJournals`, `Recovery`,
`CrashSafety`, `PruneProtocol`, `CrashTheorems`, `Maintenance`, `Pruning`.

The backup root is a map from names to files, a file being a device, an inode and a content. A prune is a list of
durable steps: stage the next manifest, write and publish a journal, move each victim to a quarantine name, replace
the manifest, unlink the quarantined files, unlink the journal. Each step is flushed before the next, so a crash
leaves the directory after some prefix of the steps. Writing a file is two steps, and between them it may hold
anything. Recovery is a function from the directory to the steps it takes and whether it returns normally.

- Stopping an accepted prune anywhere and recovering gives exactly the original or exactly the committed directory,
  the latter if and only if the manifest was replaced (`AcceptedPruneIsAtomic`, `CrashAtomicity`).
- Recovery may itself be cut off any number of times, with one exception, which is a finding about the code. Rollback
  removes the staged manifest (line 854) before it removes the journal (line 869), yet every recovery before the
  commit point insists on that staged manifest (lines 783-786). A crash between the two leaves a directory that no
  later recovery accepts. `StrandedIsRejected` shows that it loses nothing, `StrandedStays` that it is permanent, and
  `CrashedPruneRecovers` that this is the only obstacle: an if and only if over all crash points and all cuts.
- For an arbitrary directory, however it came about, recovery with a journal either rejects without any step or ends
  in a valid inventory with exactly the journal's old or new list (`JournalledRecoveryIsSound`).
- No step of a prune or a recovery touches a retained artifact, and before the commit point every old artifact is
  under exactly one of its two names (`UndecidedConserves`, `DecidedConserves`, `PruneConserves`).
- Every journal a prune writes passes the journal validation, every journal that passes is one a prune would write
  (`ValidJournalIsPrinted`), and what is due is a prefix of the canonical manifest
  order (`PrintedJournalValidates`, `PruneTakesPrefix`).
- `Moments` reads the timestamps as numbers of nanoseconds, without the sort key or the truncation. The manifest order
  is chronological (`ManifestOrderIsChronological`), and an accepted prune takes exactly what is, in whole
  microseconds, not after its cutoff (`AcceptedPruneTakesExactly`).
- The cutoff is compared after truncation to microseconds, so a prune can take an artifact that is later than its
  cutoff. It does so exactly if the two times agree down to the microsecond (`CountsExactly`,
  `AcceptedPruneTakesExactly`), and that happens (`TruncationAdmitsLater`).
- Accepted prunes exist: a backup standing alone can be pruned exactly if the cutoff is not before its time
  (`AloneIsPrunable`).
- `PruneInventory` and `RecoverIfNeeded`, working in place, take exactly these steps in every case, and their many
  re-checks cannot fail without an outside writer.

## The companion broker

`CompanionProtocol`, `CompanionModel`, `CompanionInvariants`, `CompanionRuns`, `CompanionAnswers`, `CompanionBroker`.

Every exported method is one step under the mutex, with the clock reading and the fresh secrets as inputs. A run is
any sequence of calls under a clock that never goes back.

- An operation ID of a connection is in at most one delivery of a run (`DeliveredAtMostOnce`).
- What is delivered was accepted earlier under the very grant it goes out with, which permitted it, and both leases
  were running (`DeliveryWasAuthorized`). A lapsed browser lease is never resurrected (`LapsedLeaseIsFinal`).
- Safety is not bought by silence: a pairing carried through delivers its operation exactly if every call comes in time
  (`SessionDelivers`, for all parties and times).
- The result that comes back is what the receipt call answers, if and only if it fits the payload and the room left
  (`UploadIsAnswered`). `CompanionAnswers` says of every call when it is refused and what it changes.
- Receipts only move forwards and the first completed value stays until revocation (`ReceiptsOnlyMoveForwards`).
- On every reachable state the records match their order, queued means in the queue, the counts are bounded and the
  byte count is exact (`StepKeepsOk`, `ReachableOk`), and no two live connections hold the same browser device and
  conversation, so that the order in which the map is searched does not matter (`StepKeepsApart`, `ServerIsUnique`).
- The class `Broker` computes exactly these steps; its loops over the connection and record maps are shown to give the
  same result in whatever order the map is visited.

## The context planner and the token estimator

`ContextMessages`, `TextBytes`, `TokenBudget`, `TokenEstimator`, `EstimateContents`, `ContextPlanner`, `PlanContents`,
`ProseBounding`, `ExcerptText`.

`MakePlan` is the planner with its loops over the arrays `selected`, `projected` and `bounded` and its running
`total`.

- Every plan leaves room for the answer and the margin, whatever the estimator does. With an additive estimator, which
  the conservative one is at any fixed calibration, the running total equals the estimate of the finished
  request, so the last refusal is unreachable (`MakePlan`, `TotalIsEstimate`, `CalibratedIsAdditive`).
- A compacted request is the system messages, the memory message and an order-preserving choice of whole turns with
  every mandatory one among them; no dropped turn still fits; the memory is the longest prefix within its cap
  (`FillBackward`, `SelectMemoryMessage`). `PlanContents` reads the request itself: every selected turn stands whole at
  its place, in the order of the conversation (`TurnsStandInOrder`, `OlderMessages`, `LimitsMean`), and an optional turn
  is there exactly if the request with it and the newer ones fits (`TakenExactlyIfItFits`). Tool results stay behind
  their calls and user text is unaltered (`PlanKeepsToolOrder`).
- Bounding older prose need not shrink a turn, because the escaped excerpt can cost more than the text.
  `BoundingGrowsExactly` gives the exact condition for every text and calibration, in the character counts of the text,
  its excerpt and the frame; `TurnGrowsExactly` and `AdditionalGrowsExactly` carry it to the turn and to the running
  total. In an ordinary frame plain texts never grow, nor does any text of some 6,700 characters
  (`PlainTextsDoNotGrow`, `LongTextsDoNotGrow`); a text of 2,049 angle brackets does (`BoundingCanGrow`).
- Each refusal has its exact condition at the entry point (`MakePlan`): the settings, the system messages, the turn in
  progress, the whole history, the mandatory turns however far bounding goes, and last the price of the finished request,
  which only an estimator that does not add up can make too large.
- An estimate is a fixed charge for every envelope and the price of every text in the request (`RequestIsItsTexts`,
  `TextIsItsClasses`). The escaped excerpt of a bounded text can be read back (`ExcerptReadsBack`).
- The calibration stays within its bounds on every run. Against a steady ratio its error shrinks by exactly a fifth per
  observation, but only while the observed ratio is plausible: a calibration more than twice too
  high or two and a half times too low ignores what it sees and stays (`OneObservation`). Starting from 1 this happens
  for no ratio in range (`SteadyConverges`).

## Tool sessions, the argument walker and the runner

`ToolSessions`, `JsonWalker`, `AgentRunner`.

- The critical sections of `Invoke`, `Resolve` and `ReserveCallIDs` are the atomic steps of any number of threads. In
  every interleaving a call is executed and resumed at most once, a reserved one never, and an answer takes the
  question out before anything resumes, or leaves the session alone (`OnceInEveryInterleaving`, `ReservedNeverRuns`,
  `AnswerTakesOrLeaves`). A question that a call parked waits, unchanged, until an answer that settles it takes it
  (`ParkedWaitsForItsAnswer`).
- The walker consumes the tokens of a streaming decoder, whose state machine is modelled over lexemes with the
  position, the stack and the remaining lexemes as measure. It accepts exactly the texts that are one object without
  null and without repeated names at any depth (`LegalArguments`, both directions).
- Over all pauses of a turn a bounded budget admits as many model calls as it had rounds, and every executed batch was
  validated and appended immediately before (`PausesShareTheBudget`, `OnlyValidatedBatchesRun`). A run ends in the first
  round that does not go on, paused or answered exactly as that round has it (`Runner.Run`).

## The response-loss proxy and the hash framing

`ResponseProxy`, `HashFraming`.

- The critical sections of the rule table, the audit and each rule's own mutex are the steps of any number of
  requests, interleaved with resets. Whenever a rule is free, the rejected calls are those whose body is not that of the
  first call, every other call was forwarded with that body, and exactly the first success was lost
  (`EveryRuleLosesOneSuccess`). The audit is
  numbered 1 to n, an armed capture excludes rules on its path (`AuditAndCaptures`), and a request that began before
  the last reset changes none of them (`StaleRequestsAreFenced`). A rule gets exactly the requests of its operation and
  an armed capture the next operation on its path (`DispatchRoutes`).
- A stream of length-framed parts is uniquely decodable (`StreamDecodesUniquely`).

## Conventions

- SHA-256, message authentication codes and operation digests are free constructors: equal digests mean equal inputs.
  Fresh secrets, clock readings, answers of upstreams, models and tools, and the arbitrary bytes a crash leaves are
  inputs.
- A method of the model requires what the program itself establishes first: the lock file of a locked root, a request
  that passed its field validators, positive inode numbers. `Valid()` of the broker says only that its objects are
  distinct.
- Python strings are sequences of code points. Go strings are byte sequences in the broker and the hash framing, and
  sequences of characters with a UTF-8 length in the planner, the tool sessions and the runner. Integers are unbounded
  unless a row says otherwise.
- The byte count of a manifest or journal is a fixed function of its content, standing for the length of its encoding.

## Model

| member | source | states |
|---|---|---|
| `CrashTheorems.CrashAtomicity` | `deploy/nocturne/overlay/edu_agent_maintenance.py:975-1067` | Stopping a prune after any number of its steps, with any bytes in the files being created, then recovering, succeeds and leaves the original directory before the manifest replacement and the committed one from it on |
| `CrashTheorems.OutcomesDiffer` | `deploy/nocturne/overlay/edu_agent_maintenance.py:1035-1056` | The two outcomes of a prune are never the same directory |
| `CrashTheorems.CrashedPruneRecovers` | `deploy/nocturne/overlay/edu_agent_maintenance.py:834-871` | For a crash after any step and any number of crashes inside recovery: recovery ends as atomicity demands if and only if no rollback was cut off just before its last step |
| `CrashTheorems.RollbackRestarts` | `deploy/nocturne/overlay/edu_agent_maintenance.py:838-871` | Before the commit point recovery may be cut off and restarted any number of times; it still restores the original, except that a cut between the removal of the staged manifest and of the journal leaves recovery rejecting for ever |
| `CrashTheorems.ForwardRestarts` | `deploy/nocturne/overlay/edu_agent_maintenance.py:855-871` | After the commit point recovery restarts without exception and ends in the committed directory |
| `CrashTheorems.StrandedStays` | `deploy/nocturne/overlay/edu_agent_maintenance.py:783-786` | The dead end is permanent: further recoveries leave it as it is |
| `CrashTheorems.JournalledRecoveryIsSound` | `deploy/nocturne/overlay/edu_agent_maintenance.py:834-879` | For an arbitrary directory holding a journal: recovery either rejects without a step, or the journal is valid and it ends in a validated inventory with exactly the old or the new list, every file as bound, the manifest deciding which |
| `CrashTheorems.UnjournalledRecoveryIsSound` | `deploy/nocturne/overlay/edu_agent_maintenance.py:598-605` | Without a journal recovery removes only the two temporary names, both if it returns normally; it fails exactly if one of them is not a regular file, and then at most the temporary journal is gone |
| `CrashTheorems.UndecidedConserves` | `deploy/nocturne/overlay/edu_agent_maintenance.py:838-854` | Before the commit point, in a prune or in any rollback, every old artifact is under exactly one of its two names with its original file |
| `CrashTheorems.DecidedConserves` | `deploy/nocturne/overlay/edu_agent_maintenance.py:855-866` | After it retained artifacts are untouched and a quarantined file still present is the one moved away |
| `CrashTheorems.PruneConserves` | `deploy/nocturne/overlay/edu_agent_maintenance.py:1008-1056` | Conservation at every step of a prune |
| `CrashTheorems.FinalScript` | `deploy/nocturne/overlay/edu_agent_maintenance.py:874-879` | Recovery of a committed directory has nothing to do |
| `CrashSafety.StrandedIsRejected` | `deploy/nocturne/overlay/edu_agent_maintenance.py:783-786` | In the dead end the old manifest and every artifact are intact, and recovery rejects without a step |
| `CrashSafety.RollbackRestores` | `deploy/nocturne/overlay/edu_agent_maintenance.py:839-871` | A completed rollback yields the original directory entry by entry |
| `CrashSafety.ForwardCommits` | `deploy/nocturne/overlay/edu_agent_maintenance.py:855-871` | A completed roll forward yields the committed directory entry by entry |
| `CrashSafety.RollbackStops` | `deploy/nocturne/overlay/edu_agent_maintenance.py:839-871` | A rollback stopped after any number of steps is in its phase, stranded (exactly one step before the end) or done |
| `CrashSafety.ForwardStops` | `deploy/nocturne/overlay/edu_agent_maintenance.py:855-871` | A roll forward stopped after any number of steps is in its phase or done |
| `CrashSafety.StagingRecovers` | `deploy/nocturne/overlay/edu_agent_maintenance.py:598-605` | Before publication recovery restores the original, and any part of it leaves only temporary files extra |
| `CrashSafety.FollowsPlan` | `deploy/nocturne/overlay/edu_agent_maintenance.py:874-879` | With the journal of a prune in place recovery does what the plan of that prune says |
| `CrashSafety.ManifestsDiffer` | `deploy/nocturne/overlay/edu_agent_maintenance.py:697-717` | A plan always removes something, so its two manifests differ and the manifest can decide |
| `PruneProtocol.PruneStopsBefore` | `deploy/nocturne/overlay/edu_agent_maintenance.py:990-1036` | Before the commit point a crash leaves staging files only, or the published journal with exactly the first so many files in quarantine |
| `PruneProtocol.PruneStopsAfter` | `deploy/nocturne/overlay/edu_agent_maintenance.py:1040-1059` | From the commit point on a crash leaves the roll-forward phase, and after the last step the committed directory |
| `PruneProtocol.PublishRuns` | `deploy/nocturne/overlay/edu_agent_maintenance.py:905-926` | Staging and publication leave the original directory with the staged manifest and the journal added |
| `PruneProtocol.QuarantinedRollsBack` | `deploy/nocturne/overlay/edu_agent_maintenance.py:1008-1034` | While files move to quarantine the directory stays recoverable by rollback |
| `PruneProtocol.CommitRollsForward` | `deploy/nocturne/overlay/edu_agent_maintenance.py:1035-1044` | Replacing the manifest takes the directory from the rollback to the roll-forward phase |
| `PruneProtocol.ClosingIsRecovery` | `deploy/nocturne/overlay/edu_agent_maintenance.py:1046-1059` | The end of a prune takes the very steps a roll forward would take |
| `Recovery.RecoverySettles` | `deploy/nocturne/overlay/edu_agent_maintenance.py:834-871` | Recovery that goes ahead ends in a validated inventory holding exactly the old or the new list with every file as bound |
| `Recovery.RollbackEffect` | `deploy/nocturne/overlay/edu_agent_maintenance.py:839-854` | Name by name what a rollback leaves |
| `Recovery.ForwardEffect` | `deploy/nocturne/overlay/edu_agent_maintenance.py:855-871` | Name by name what a roll forward leaves |
| `Recovery.PairsApart` | `deploy/nocturne/overlay/edu_agent_maintenance.py:640-641` | Own names and quarantine names of the removed artifacts are pairwise different |
| `Recovery.OutsidePairs` | `deploy/nocturne/overlay/edu_agent_maintenance.py:806-812` | Control files and retained artifacts are outside every move of a prune or recovery |
| `Relocation.HideImage` | `deploy/nocturne/overlay/edu_agent_maintenance.py:1028-1031` | After n quarantine moves exactly the first n files stand under their quarantine names and nothing else changed |
| `Relocation.RestoreImage` | `deploy/nocturne/overlay/edu_agent_maintenance.py:840-853` | After the rollback moves of n pairs exactly those files are back under their own names |
| `Relocation.SweepImage` | `deploy/nocturne/overlay/edu_agent_maintenance.py:856-866` | After the removals of n pairs exactly their quarantined files are gone |
| `Pruning.AcceptedPruneIsAtomic` | `deploy/nocturne/overlay/edu_agent_maintenance.py:945-1067` | From any directory the inventory validation accepts and any accepted request, the prune is atomic under a crash at any step, and the committed directory is a validated inventory listing exactly what is retained |
| `Pruning.CommitForOk` | `deploy/nocturne/overlay/edu_agent_maintenance.py:984-1006` | What the checks let through meets everything the crash theorems ask of a prune |
| `Pruning.FinalSettles` | `deploy/nocturne/overlay/edu_agent_maintenance.py:1062-1064` | The committed directory passes the final validation with exactly the retained artifacts |
| `Pruning.AcceptedPruneTakesPrefix` | `deploy/nocturne/overlay/edu_agent_maintenance.py:953-956` | An accepted prune removes a prefix of the canonical manifest order |
| `Pruning.JournalOfOk` | `deploy/nocturne/overlay/edu_agent_maintenance.py:984-1005` | The journal an accepted prune writes is valid under the same root and lock |
| `Pruning.PruneInventory` | `deploy/nocturne/overlay/edu_agent_maintenance.py:945-1080` | Succeeds exactly if recovery does, the directory is valid, digest and paths are the demanded ones and the journal fits; then it has taken exactly the steps of the protocol and left the committed directory, otherwise the recovered one |
| `Pruning.ExecutePrune` | `deploy/nocturne/overlay/edu_agent_maintenance.py:967-1064` | Past its checks the prune takes exactly the protocol's steps, none of its re-checks can fail, and it restores the directory if the journal is too large |
| `Pruning.Stage` | `deploy/nocturne/overlay/edu_agent_maintenance.py:978-1006` | Afterwards the journal is published, or everything is as before |
| `Pruning.CommitAndClose` | `deploy/nocturne/overlay/edu_agent_maintenance.py:1008-1064` | From the published journal to the committed directory, final validation included |
| `Pruning.QuarantineAll` | `deploy/nocturne/overlay/edu_agent_maintenance.py:1008-1034` | The quarantine loop |
| `Pruning.DropAll` | `deploy/nocturne/overlay/edu_agent_maintenance.py:1046-1056` | The removal loop behind the new manifest |
| `Pruning.PublishPruneJournal` | `deploy/nocturne/overlay/edu_agent_maintenance.py:905-926` | Creates the temporary journal and moves it into place, or does nothing if it is too large |
| `Pruning.QuarantineOne` | `deploy/nocturne/overlay/edu_agent_maintenance.py:1009-1034` | One move to quarantine; its re-checks cannot fail |
| `Pruning.RevalidateArtifact` | `deploy/nocturne/overlay/edu_agent_maintenance.py:889-898` | The file stands as expected and as its manifest line says |
| `Pruning.DiscardUnpublishedPruneFiles` | `deploy/nocturne/overlay/edu_agent_maintenance.py:929-942` | In whatever directory: nothing is discarded once a journal is published, and otherwise the two temporary files go, up to the first that is not a regular file |
| `Maintenance.RecoverIfNeeded` | `deploy/nocturne/overlay/edu_agent_maintenance.py:874-879` | Takes exactly the steps, and returns exactly as, the recovery the theorems are about |
| `Maintenance.RecoverPrune` | `deploy/nocturne/overlay/edu_agent_maintenance.py:834-871` | The same for a given journal |
| `Maintenance.FinishRollback` | `deploy/nocturne/overlay/edu_agent_maintenance.py:839-871` | Carries out a rollback; no re-check can fail |
| `Maintenance.FinishForward` | `deploy/nocturne/overlay/edu_agent_maintenance.py:855-871` | Carries out a roll forward; no re-check can fail |
| `Maintenance.RecoveryLocations` | `deploy/nocturne/overlay/edu_agent_maintenance.py:775-831` | Accepts exactly the recoverable directories and says where every removed file stands |
| `Maintenance.LocateAll` | `deploy/nocturne/overlay/edu_agent_maintenance.py:793-828` | The loop over the old manifest: accepts exactly if every artifact is where it may be |
| `Maintenance.LocateArtifact` | `deploy/nocturne/overlay/edu_agent_maintenance.py:794-828` | One artifact: accepted exactly if it is where its side allows, with its location |
| `Maintenance.EntriesAllowed` | `deploy/nocturne/overlay/edu_agent_maintenance.py:829-830` | The final comparison of entry sets says exactly that no entry is foreign |
| `Maintenance.ManifestRecoveryState` | `deploy/nocturne/overlay/edu_agent_maintenance.py:762-772` | The manifest alone decides the side |
| `Maintenance.CleanupUnpublishedControls` | `deploy/nocturne/overlay/edu_agent_maintenance.py:598-605` | Removes the temporary files in order, up to the first that is not a regular file |
| `Maintenance.ValidatedInventory` | `deploy/nocturne/overlay/edu_agent_maintenance.py:882-886` | Recovers, then lists exactly a valid inventory |
| `BackupDirectory.BackupRoot.ValidateInventory` | `deploy/nocturne/overlay/edu_agent_maintenance.py:608-637` | Accepts exactly the valid directories; returns the canonical list, every snapshot and the digest |
| `BackupDirectory.BackupRoot.SnapshotArtifacts` | `deploy/nocturne/overlay/edu_agent_maintenance.py:621-626` | Accepts exactly if every artifact file matches its line, with the snapshots |
| `BackupDirectory.BackupRoot.EntrySnapshot` | `deploy/nocturne/overlay/edu_agent_maintenance.py:512-517` | Absent, a snapshot, or an error for anything but a regular file |
| `BackupDirectory.BackupRoot.CreateControl` | `deploy/nocturne/overlay/edu_agent_maintenance.py:570-584` | Exclusive creation, writing and flushing as two durable steps |
| `BackupDirectory.BackupRoot.RemoveControl` | `deploy/nocturne/overlay/edu_agent_maintenance.py:587-595` | Removes the file only if its snapshot is the expected one |
| `PruneJournals.ValidateJournal` | `deploy/nocturne/overlay/edu_agent_maintenance.py:673-759` | Accepts exactly the journals that meet the stated conditions and returns what they say |
| `PruneJournals.DescribedPlanOk` | `deploy/nocturne/overlay/edu_agent_maintenance.py:697-744` | Every valid journal describes a sound plan: listed paths, full tables, quarantine names that collide with nothing |
| `PruneJournals.PrintedJournalValidates` | `deploy/nocturne/overlay/edu_agent_maintenance.py:984-1005` | Every journal built from validated artifacts and the due paths is accepted by the validator |
| `PruneJournals.ValidJournalIsPrinted` | `deploy/nocturne/overlay/edu_agent_maintenance.py:673-759` | Conversely every valid journal is the one the prune it describes would print, from its own manifest, cutoff and bindings |
| `PruneJournals.ValidJournalShape` | `deploy/nocturne/overlay/edu_agent_maintenance.py:673-712` | A valid journal carries a non-nil lower-case identifier and announces the canonical text of its new list |
| `PruneJournals.JournalBindsItsRoot` | `deploy/nocturne/overlay/edu_agent_maintenance.py:713-716` | A journal is valid under one root and one lock only |
| `PruneJournals.BindingTable` | `deploy/nocturne/overlay/edu_agent_maintenance.py:726-737` | Accepts exactly one matching binding per artifact, in order |
| `PruneJournals.QuarantineTable` | `deploy/nocturne/overlay/edu_agent_maintenance.py:739-752` | Accepts exactly the quarantine names of the operation, in order |
| `PruneJournals.DescribesUnique` | `deploy/nocturne/overlay/edu_agent_maintenance.py:753-759` | A journal fixes its plan |
| `Inventory.ValidateManifestData` | `deploy/nocturne/overlay/edu_agent_maintenance.py:386-418` | Accepts exactly the valid lists and returns the canonical order |
| `Inventory.CanonicalProperties` | `deploy/nocturne/overlay/edu_agent_maintenance.py:421-423` | The canonical form is a strictly ordered permutation and its own canonical form |
| `Inventory.RetainedProperties` | `deploy/nocturne/overlay/edu_agent_maintenance.py:714-717` | What is retained from a canonical manifest is a valid canonical manifest |
| `Inventory.PruneTakesPrefix` | `deploy/nocturne/overlay/edu_agent_maintenance.py:953-956` | The due artifacts are a prefix of the canonical order, because truncating instants are monotone in the sort key |
| `Inventory.EligibleProperties` | `deploy/nocturne/overlay/edu_agent_maintenance.py:953` | The eligible paths are strictly sorted and exactly those due |
| `Inventory.LaterIsLater` | `deploy/nocturne/overlay/edu_agent_maintenance.py:120-135` | The manifest order never puts a later instant first |
| `Inventory.QuarantineInjective` | `deploy/nocturne/overlay/edu_agent_maintenance.py:640-641` | Different indexes of an operation give different quarantine names |
| `Inventory.NamesDisjoint` | `deploy/nocturne/overlay/edu_agent_maintenance.py:288-301` | Artifact, control and quarantine names never meet |
| `Inventory.SnapshotIdentifies` | `deploy/nocturne/overlay/edu_agent_maintenance.py:216-221` | Equal snapshots mean the same file with the same content |
| `Timestamps.KeyOrderIsInstantOrder` | `deploy/nocturne/overlay/edu_agent_maintenance.py:120-135` | The textual sort key orders like the instant, as far as the instant can tell |
| `Pruning.AloneIsPrunable` | `deploy/nocturne/overlay/edu_agent_maintenance.py:945-956` | For every backup standing alone and every cutoff, the prune of exactly it is accepted if and only if the cutoff, to the microsecond, is not before its time |
| `Inventory.ArtifactsExist` | `deploy/nocturne/overlay/edu_agent_maintenance.py:386-418` | Valid artifacts exist for every content and every calendar time, so the theorems above are about something |
| `Timestamps.StampIsUtc` | `deploy/nocturne/overlay/edu_agent_maintenance.py:120-127` | Every time of every calendar day, printed canonically, is an accepted text |
| `Moments.NanosRead` | `deploy/nocturne/overlay/edu_agent_maintenance.py:130-135` | The padded fraction has the value of the fraction: its digits times ten to the power of what is missing to nine |
| `Moments.TrailingZero` | `deploy/nocturne/overlay/edu_agent_maintenance.py:120-135` | One more zero behind the point gives an accepted text with the same key, instant and moment |
| `Moments.WholeReads` | `deploy/nocturne/overlay/edu_agent_maintenance.py:120-127` | The date and time read as the number of their fields |
| `Moments.InstantIsMoment` | `deploy/nocturne/overlay/edu_agent_maintenance.py:120-127` | What the cutoff is compared with is the moment in whole microseconds |
| `Moments.KeyOrderIsMomentOrder` | `deploy/nocturne/overlay/edu_agent_maintenance.py:130-135` | The sort key orders exactly as the moments in nanoseconds |
| `Moments.UtcTextsAreStamps` | `deploy/nocturne/overlay/edu_agent_maintenance.py:120-127` | The accepted texts are the printed ones, up to a fraction: parsing undoes printing |
| `Timestamps.CountsExactly` | `deploy/nocturne/overlay/edu_agent_maintenance.py:120-135` | A time counts as no later than a cutoff exactly if its sort key is no later, or it agrees with the cutoff down to the microsecond |
| `Timestamps.WholeMicrosecondsCountExactly` | `deploy/nocturne/overlay/edu_agent_maintenance.py:120-135` | For a time without digits beyond the microsecond the comparison is exact |
| `Inventory.DueExactly` | `deploy/nocturne/overlay/edu_agent_maintenance.py:953` | The same for what makes an artifact due |
| `Inventory.DueIsMoment` | `deploy/nocturne/overlay/edu_agent_maintenance.py:953` | Due is what was created, to the whole microsecond, no later than the cutoff, in moments |
| `Inventory.ManifestOrderIsChronological` | `deploy/nocturne/overlay/edu_agent_maintenance.py:130-135` | The manifest order is that of the moments, and by path where they are the same |
| `Pruning.AcceptedPruneTakesExactly` | `deploy/nocturne/overlay/edu_agent_maintenance.py:945-956` | An accepted prune takes exactly the artifacts whose moment, in whole microseconds, is not after its cutoff's; that is those not later and, of the later ones, those that agree with it down to the microsecond |
| `Pruning.RequestFixesInventory` | `deploy/nocturne/overlay/edu_agent_maintenance.py:951-952` | A request fits one inventory only: two directories that accept it list the same artifacts |
| `BackupDirectory.ManifestFixesContents` | `deploy/nocturne/overlay/edu_agent_maintenance.py:608-637` | Of two directories validated with the same manifest neither has a file more, and every listed file has the same content |
| `BackupDirectory.FilesOfInventory` | `deploy/nocturne/overlay/edu_agent_maintenance.py:288-301` | Besides lock and manifest an accepted root holds only regular files with flat, unreserved names inside the root, each on one line of the manifest with its size and digest |
| `Timestamps.TruncationAdmitsLater` | `deploy/nocturne/overlay/edu_agent_maintenance.py:120-127` | The exception in these is real: every whole second has a family of later texts, by up to a microsecond, that count as due at it |
| `CompanionRuns.DeliveredAtMostOnce` | `packages/agentcore/companion/broker.go:220-266` | Over every run an operation ID of a connection is in at most one delivery |
| `CompanionRuns.DeliveryWasAuthorized` | `packages/agentcore/companion/broker.go:178-202` | Every delivered operation was accepted by an earlier call under the very grant it is delivered with, which permitted it, with the leases running |
| `CompanionRuns.LapsedLeaseIsFinal` | `packages/agentcore/companion/broker.go:76-85` | Once a granted connection's browser lease has run out no later call accepts or delivers anything on it |
| `CompanionRuns.ReceiptsOnlyMoveForwards` | `packages/agentcore/companion/broker.go:87-98` | Over every run parties, grant and record identity never change, receipts move only forwards, and a completed one stays until revocation drops its value |
| `CompanionRuns.SequenceOnlyRises` | `packages/agentcore/companion/broker.go:225-228` | Authenticated exchanges of a connection have strictly rising sequence numbers |
| `CompanionRuns.SessionDelivers` | `packages/agentcore/companion/broker.go:40-266` | For all parties, grants, permitted operations and times: pair, attach, authorize, submit and exchange make a valid run, and it delivers the operation if and only if the code and both leases last |
| `CompanionAnswers.UploadIsAnswered` | `packages/agentcore/companion/broker.go:206-266` | The second half of a session: after a delivery, the matching result of an authentic exchange in time is what the receipt call answers, at once if and only if it fits the payload and the room left, and if so ever after while the connection lives |
| `CompanionAnswers.UploadIsStored` | `packages/agentcore/companion/broker.go:237-250` | What becomes of an uploaded result: refused, given up as unknown, or stored as it came and charged |
| `CompanionAnswers.PollIsAnswered` | `packages/agentcore/companion/broker.go:251-265` | An exchange without a new result hands out the queued operation, renews the native lease and changes no other record |
| `CompanionAnswers.UselessExchangeIsRefused` | `packages/agentcore/companion/broker.go:229-241` | An exchange that cannot be read or fits no delivered operation only spends its number; one after the lease revokes |
| `CompanionAnswers.ForgedExchangeDoesNothing` | `packages/agentcore/companion/broker.go:221-228` | Without the right code and a new number nothing happens |
| `CompanionAnswers.OnlySilentConnectionsGo` | `packages/agentcore/companion/broker.go:43-47` | Connections go only when one is created, and then exactly those silent for five minutes |
| `CompanionAnswers.PairingIsAnswered` | `packages/agentcore/companion/broker.go:40-58` | When a pairing is refused, limited or made, and what is then there |
| `CompanionAnswers.AttachmentIsAnswered` | `packages/agentcore/companion/broker.go:60-74` | When an attachment goes through, and what it changes |
| `CompanionAnswers.GrantIsAnswered` | `packages/agentcore/companion/broker.go:118-136` | When a grant is given, refused or in conflict, and what it changes |
| `CompanionAnswers.SubmissionIsAnswered` | `packages/agentcore/companion/broker.go:178-202` | What a submission on a live connection is answered with, and what it changes |
| `CompanionAnswers.ModelSubmitsAsTheUser` | `packages/agentcore/companion/broker.go:283-294` | The model's submission is answered as the user's own where the grant admits it, and refused elsewhere |
| `CompanionAnswers.ServedCanSubmit` | `packages/agentcore/companion/broker.go:268-294` | What the model is offered takes what it may submit |
| `CompanionAnswers.ReceiptIsAnswered` | `packages/agentcore/companion/broker.go:206-218` | The owner is told the stored receipt |
| `CompanionAnswers.ViewIsAnswered` | `packages/agentcore/companion/broker.go:138-166` | What a view shows, receipt by receipt, and that it only renews the lease |
| `CompanionAnswers.RevocationSettles` | `packages/agentcore/companion/broker.go:87-116` | What a revocation leaves of queue, values and open receipts |
| `CompanionAnswers.RevocationIsFinal` | `packages/agentcore/companion/broker.go:87-98` | Over every run, a revoked connection accepts and delivers nothing any more |
| `CompanionAnswers.DigestsTellApart` | `packages/agentcore/companion/broker.go:185-187` | Operations have the same digest exactly if they say the same, whatever the layout of their arguments |
| `CompanionRuns.ReachableOk` | `packages/agentcore/companion/broker.go:29-34` | Every reachable state has the representation invariant |
| `CompanionRuns.ChangeEvolves` | `packages/agentcore/companion/broker.go:242-250` | Every change of a connection moves each receipt at most one step and keeps its identity |
| `CompanionRuns.AcceptanceMeans` | `packages/agentcore/companion/broker.go:178-202` | An acceptance is a permitted submission under running leases, answered with a queued receipt |
| `CompanionRuns.DeliveryConsumes` | `packages/agentcore/companion/broker.go:258-264` | A delivery takes the queued operation and leaves it dispatched |
| `CompanionInvariants.StepKeepsOk` | `packages/agentcore/companion/broker.go:60-74` | Every call keeps the invariant: records match the order, queued means in the queue, counts and bytes are bounded and exact, grants are exclusive |
| `CompanionInvariants.StepKeepsApart` | `packages/agentcore/companion/broker.go:128-133` | No call lets two unrevoked connections hold one browser device and conversation |
| `CompanionInvariants.ServerIsUnique` | `packages/agentcore/companion/broker.go:268-281` | At most one connection can serve the model, so map order does not matter |
| `CompanionInvariants.StepChanges` | `packages/agentcore/companion/broker.go:76-85` | Every call changes each connection it leaves in place in one of six ways |
| `CompanionInvariants.ChangeKeepsOk` | `packages/agentcore/companion/broker.go:237-264` | Every way of changing a connection keeps its bookkeeping |
| `CompanionInvariants.StoredOk` | `packages/agentcore/companion/broker.go:237-250` | Storing a receipt keeps the byte count exact and bounded |
| `CompanionProtocol.ModelIsNarrower` | `packages/agentcore/companion/protocol.go:102-115` | The model may do exactly what the user may except commit and discard, and only under a model grant |
| `CompanionAnswers.PermissionTable` | `packages/agentcore/companion/protocol.go:102-115` | The permission table, tool by tool, and that there are no other tools |
| `CompanionBroker.Broker.Create` | `packages/agentcore/companion/broker.go:40-58` | Drops silent connections, then refuses or pairs, as its step says |
| `CompanionBroker.Broker.Collect` | `packages/agentcore/companion/broker.go:43-47` | The collection loop drops exactly the connections silent for five minutes, in whatever order |
| `CompanionBroker.Broker.Attach` | `packages/agentcore/companion/broker.go:60-74` | Spends the pairing code and opens the channel, or changes nothing |
| `CompanionBroker.Broker.Browse` | `packages/agentcore/companion/broker.go:76-85` | The addressed connection, revoked on the spot if its granted lease has run out |
| `CompanionBroker.Connection.Revoke` | `packages/agentcore/companion/broker.go:87-98` | Drops values and queue, settles queued and dispatched receipts, in whatever order |
| `CompanionBroker.Broker.Revoke` | `packages/agentcore/companion/broker.go:107-116` | Revokes the addressed connection |
| `CompanionBroker.Broker.RevokeChannel` | `packages/agentcore/companion/broker.go:326-332` | Revokes the channel if there is one |
| `CompanionBroker.Broker.Authorize` | `packages/agentcore/companion/broker.go:118-136` | Grants, refuses or reports a conflict, as its step says |
| `CompanionBroker.Broker.Taken` | `packages/agentcore/companion/broker.go:129-133` | The conflict loop finds a holder if and only if there is one |
| `CompanionBroker.Broker.View` | `packages/agentcore/companion/broker.go:138-166` | Refreshes the lease and shows the last twenty receipts |
| `CompanionBroker.Broker.Submit` | `packages/agentcore/companion/broker.go:168-176` | The user's submission |
| `CompanionBroker.Connection.Submit` | `packages/agentcore/companion/broker.go:178-202` | Refuses, repeats the stored receipt, reports a conflict or limit, or queues |
| `CompanionBroker.Broker.ModelSubmit` | `packages/agentcore/companion/broker.go:283-294` | The model's submission, bound to owner, device, conversation and destination |
| `CompanionBroker.Broker.Receipt` | `packages/agentcore/companion/broker.go:206-218` | The stored receipt, or refusal |
| `CompanionBroker.Broker.Exchange` | `packages/agentcore/companion/broker.go:221-266` | Authenticates, consumes the sequence number, settles a receipt and hands out the queue at most once |
| `CompanionBroker.Connection.Settle` | `packages/agentcore/companion/broker.go:237-250` | Rejects, ignores a repetition, or stores within the byte limit |
| `CompanionBroker.Broker.ModelConnection` | `packages/agentcore/companion/broker.go:268-281` | A serving connection if there is one, and on reachable states the only one |
| `CompanionBroker.Broker.Verify` | `packages/agentcore/companion/broker.go:100-105` | Authentic and not revoked, without consuming the sequence number |
| `CompanionBroker.Broker.ModelReceipt` | `packages/agentcore/companion/broker.go:296-308` | The receipt of a live connection, or refusal |
| `CompanionRuns.PrincipalIsStable` | `packages/agentcore/companion/broker.go:310-324` | Over every run, a host that keeps asking is told the same owner and browser device and, once there is one, the same grant; a connection that existed and is refused is refused for ever |
| `ContextPlanner.MakePlan` | `packages/agentcore/context_projection.go:26-172` | Every refusal has its exact condition (settings, system messages, turn in progress, whole history, mandatory turns, finished request); every plan leaves room for answer and margin; compacted plans are structured, maximal, no more bounded than necessary and accounted for, soft pressure included; with an additive estimator the estimate is the running total and the last refusal cannot happen |
| `ContextPlanner.PlanCompacted` | `packages/agentcore/context_projection.go:87-172` | The selecting part, with the exact condition of its refusal: the mandatory turns are too large however far the oldest-first bounding goes |
| `ContextPlanner.TotalIsEstimate` | `packages/agentcore/context_projection.go:161-166` | With an additive estimator the re-estimate of the whole request equals the running total |
| `ContextPlanner.PlanKeepsToolOrder` | `packages/agentcore/context_projection.go:146-160` | If in every turn each tool result follows its call it does so in the request, and user text is unaltered |
| `ContextPlanner.ProjectTurns` | `packages/agentcore/context_projection.go:87-105` | Projections, mandatory turns, running total and full estimate of the first pass |
| `ContextPlanner.BoundOlder` | `packages/agentcore/context_projection.go:109-118` | Bounds older prose oldest first, only while still too large, and keeps the total exact |
| `ContextPlanner.FillBackward` | `packages/agentcore/context_projection.go:135-145` | Takes each optional turn exactly if it fits behind the newer ones; afterwards no dropped turn fits |
| `PlanContents.TakenExactlyIfItFits` | `packages/agentcore/context_projection.go:135-145` | With an additive estimator an optional turn is taken if and only if the request of the mandatory turns, the newer turns taken and this one fits the input limit |
| `ContextPlanner.SelectMemoryMessage` | `packages/agentcore/context_projection.go:208-226` | The longest prefix of the items before the first that exceeds the cap |
| `ContextPlanner.MemoryPrefixUnique` | `packages/agentcore/context_projection.go:214-221` | There is only one such prefix |
| `ContextPlanner.Remember` | `packages/agentcore/context_projection.go:124-134` | The memory pass: its cap, its message and what it adds to the total |
| `ContextPlanner.Assemble` | `packages/agentcore/context_projection.go:146-160` | The request is put together from system messages, memory message and selected turns, with the counts |
| `PlanContents.TurnsStandInOrder` | `packages/agentcore/context_projection.go:146-160` | In a compacted request the system messages come first, then the memory message, then every selected turn, whole, where the turns before it leave off, so in the order of the conversation; nothing else |
| `PlanContents.WholeConversationStands` | `packages/agentcore/context_projection.go:146-160` | With every turn selected and none altered the conversation stands behind the head as it is |
| `PlanContents.MustStay` | `packages/agentcore/context_projection.go:93-105` | The last three turns, the protected ones and those with a tool result or call are in the request |
| `PlanContents.OlderMessages` | `packages/agentcore/context_projection.go:87-118` | Message by message, what an older turn becomes: recorded projections, bounded answers of turns looked at, and nothing else |
| `PlanContents.CurrentMessages` | `packages/agentcore/context_projection.go:250-270` | Call by call, what becomes of a turn in progress that is too large |
| `PlanContents.CountIsNumber` | `packages/agentcore/context_projection.go:150-158` | The counts of a plan are the numbers of such turns |
| `PlanContents.PressureIsOfEverything` | `packages/agentcore/context_projection.go:90-104` | With an additive estimator soft pressure looks at the estimate of the request with every turn in it and no prose bounded |
| `PlanContents.LimitsMean` | `packages/agentcore/context_projection.go:37-68` | What margin, output ceiling and input limit are, in numbers |
| `PlanContents.MemoryHoldsItems` | `packages/agentcore/context_projection.go:208-226` | The memory message is the trimmed instruction, the heading and the items in order, a line apart |
| `PlanContents.TrimTakesSpace` | `packages/agentcore/context_projection.go:209` | Trimming takes away space only, and all of it at both ends |
| `ContextPlanner.BoundHistoryProse` | `packages/agentcore/context_projection.go:183-206` | Only long assistant texts change, each to its projection |
| `ProseBounding.BoundingGrowsExactly` | `packages/agentcore/context_projection.go:183-206` | For every long text and calibration: its bounded form costs more exactly if the price made up of the frame's and the excerpt's character counts exceeds that of the text |
| `ProseBounding.BoundedCost` | `packages/agentcore/context_projection.go:188-203` | That price is the price of the bounded form |
| `ProseBounding.TurnGrowsExactly` | `packages/agentcore/context_projection.go:183-206` | The price of a turn moves by exactly the sum of these differences over its long texts |
| `ProseBounding.AdditionalGrowsExactly` | `packages/agentcore/context_projection.go:113-117` | So does what the planner's running total is charged for the turn |
| `ProseBounding.FrameSize` | `packages/agentcore/context_projection.go:192-202` | The frame has 123 plain characters besides its numbers, digest and source, and 29 of notice |
| `ProseBounding.EscapedCounts` | `packages/agentcore/context_projection.go:201-203` | The character counts of an escaped text, read off the text |
| `ProseBounding.EscapesAreBounded` | `packages/agentcore/context_projection.go:201-203` | Escaping writes at most six characters per byte |
| `ExcerptText.EscapedReads` | `packages/agentcore/context_projection.go:201-203` | A reader of JSON strings reads every escaped text back as the text (section 7 of RFC 8259) |
| `ExcerptText.ExcerptReadsBack` | `packages/agentcore/context_projection.go:183-206` | The excerpt of a bounded text can be read back from it |
| `ProseBounding.LongTextsDoNotGrow` | `packages/agentcore/context_projection.go:183-206` | No text of at least 6*1024 characters plus thrice the price of its frame, and two, grows |
| `ProseBounding.PlainTextsDoNotGrow` | `packages/agentcore/context_projection.go:183-206` | No long text without characters to escape grows, whatever its length |
| `ProseBounding.TurnDoesNotGrow` | `packages/agentcore/context_projection.go:183-206` | A turn none of whose long texts grows does not grow, under any calibration |
| `ProseBounding.BoundingCanGrow` | `packages/agentcore/context_projection.go:188-203` | A long text of angle brackets makes its turn cost more under every calibration in range, so the condition above is met by some texts |
| `ContextPlanner.CostReplaced` | `packages/agentcore/context_projection.go:113-117` | Replacing one selected turn moves the cost by the difference of the two |
| `ContextMessages.MessageGroups` | `packages/agentcore/context_types.go:62-72` | Divides the conversation into turns without losing or reordering anything |
| `ContextMessages.TurnsUnique` | `packages/agentcore/context_types.go:62-72` | A conversation divides into turns in one way only |
| `ContextMessages.TruncateUtf8` | `packages/agentcore/context_types.go:79-88` | The longest run of whole characters within the byte limit |
| `ContextMessages.ValidIsBoundary` | `packages/agentcore/context_types.go:84-86` | What is left is valid exactly if the cut is between characters |
| `TextBytes.BoundaryIsLead` | `packages/agentcore/context_types.go:83-86` | In the UTF-8 form a cut leaves whole characters exactly if no continuation byte follows it |
| `TextBytes.ByteLengthIsEncoding` | `packages/agentcore/context_types.go:80` | The byte count of a text is the length of its UTF-8 form |
| `TextBytes.EncodingIsUnique` | `packages/agentcore/context_types.go:84` | Different texts have different UTF-8 forms |
| `ContextMessages.SplitSystemMessages` | `packages/agentcore/context_projection.go:237-248` | System messages and conversation, each in order |
| `ContextMessages.SplitKeepsAll` | `packages/agentcore/context_projection.go:237-248` | Splitting loses and invents nothing |
| `PlanContents.SplitPosition` | `packages/agentcore/context_projection.go:237-248` | Where each message goes, so that both parts keep their order |
| `ContextMessages.ProjectHistoryGroup` | `packages/agentcore/context_projection.go:272-283` | Tool results give way to their recorded projections; the exchange is otherwise kept |
| `ContextMessages.ProjectCompletedArguments` | `packages/agentcore/context_projection.go:250-270` | Arguments of answered calls become an empty object, open calls keep theirs |
| `ContextMessages.ResultsStillFollow` | `packages/agentcore/context_projection.go:272-283` | A projection leaves every tool result behind its call |
| `ContextMessages.GroupHasTools` | `packages/agentcore/context_projection.go:174-181` | Whether a turn has a tool result or a tool call |
| `TokenEstimator.ConservativeIsAdditive` | `packages/agentcore/context_budget.go:54-78` | With a fixed correction the conservative estimator adds up over messages and ignores the output limit |
| `TokenEstimator.ConservativeTokenEstimator.EstimateText` | `packages/agentcore/context_budget.go:29-52` | One pass over the characters, weighted by class and rounded up after correction |
| `TokenEstimator.ConservativeTokenEstimator.EstimateRequest` | `packages/agentcore/context_budget.go:54-78` | The whole request: envelopes, messages, calls and tools |
| `EstimateContents.RequestIsItsTexts` | `packages/agentcore/context_budget.go:54-78` | A request costs 8, 6 for each message, 10 for each call, 14 for each tool, and the price of every text in it |
| `EstimateContents.TextIsItsClasses` | `packages/agentcore/context_budget.go:29-47` | A text costs its plain, wide and other characters: a token for three, one and two of them, each rounded up |
| `EstimateContents.CorrectedIsCeiling` | `packages/agentcore/context_budget.go:48-51` | The calibrated price is the product rounded up |
| `TokenEstimator.ConservativeTokenEstimator.ObserveActual` | `packages/agentcore/context_budget.go:80-99` | Recalibrates within bounds, or ignores an implausible count |
| `TokenEstimator.CalibratedPrices` | `packages/agentcore/context_budget.go:44-51` | Under any calibration in range only the empty text is free |
| `TokenEstimator.CalibratedIsAdditive` | `packages/agentcore/context_budget.go:29-78` | The estimator with a fixed calibration in its range is one for which the planner's accounting is exact |
| `TokenBudget.PercentRoundUpIsCeiling` | `packages/agentcore/context_budget.go:116-121` | The percentage rounded up exactly |
| `TokenBudget.PercentRoundUpFits` | `packages/agentcore/context_budget.go:114-121` | No intermediate value exceeds a machine integer |
| `TokenBudget.DivideRoundUpIsCeiling` | `packages/agentcore/context_budget.go:107-112` | The quotient rounded up exactly |
| `TokenBudget.CalibrationInRange` | `packages/agentcore/context_budget.go:96-97` | On every run the calibration stays between 0.75 and 2.5 |
| `TokenBudget.SteadyConverges` | `packages/agentcore/context_budget.go:85-97` | Against a steady true ratio the error after n observations is the initial one times 0.8 to the n |
| `TokenBudget.OneObservation` | `packages/agentcore/context_budget.go:85-97` | One observation shrinks the error by exactly a fifth if and only if the ratio it shows is plausible; otherwise nothing changes |
| `TokenBudget.RawTokensBounds` | `packages/agentcore/context_budget.go:41-47` | Between a third of a token and one token per character before correction |
| `ToolSessions.OnceInEveryInterleaving` | `packages/agentcore/tools.go:94-177` | In every interleaving each call is executed and resumed at most once, whatever waits was claimed, and nothing waits while it is resumed |
| `ToolSessions.ReservedNeverRuns` | `packages/agentcore/tools.go:74-92` | A reserved call is never executed, never waits and never resumes |
| `ToolSessions.AnswerTakesOrLeaves` | `packages/agentcore/tools.go:151-162` | A valid answer takes the question out before anything resumes; any other leaves the session as it was |
| `ToolSessions.ReservationComesFirst` | `packages/agentcore/tools.go:77-79` | Once a call has been seen no reservation changes anything |
| `ToolSessions.StepKeeps` | `packages/agentcore/tools.go:94-177` | Every step of every interleaving keeps the invariant |
| `ToolSessions.ValidateAnswer` | `packages/agentcore/tools.go:186-224` | Accepts exactly the answers that may settle the question |
| `ToolSessions.AnswersMean` | `packages/agentcore/tools.go:186-224` | What settles a single-choice question, a multiple-choice question, and a refusal, spelled out |
| `ToolSessions.AnswersElsewhere` | `packages/agentcore/tools.go:186-193` | Answers to other questions or with longer texts settle nothing |
| `ToolSessions.ToolSet.ReserveCallIds` | `packages/agentcore/tools.go:74-92` | All or nothing: distinct, bounded identities, and only before any call |
| `ToolSessions.ToolSet.Claim` | `packages/agentcore/tools.go:105-111` | The first critical section of Invoke |
| `ToolSessions.ParkedWaitsForItsAnswer` | `packages/agentcore/tools.go:131-162` | In every interleaving a question that a call parked waits, unchanged, until an answer that settles it takes it |
| `ToolSessions.FreshCallExecutes` | `packages/agentcore/tools.go:105-115` | A call not seen before is claimed and executed; one seen before changes nothing |
| `ToolSessions.QuestionIsParked` | `packages/agentcore/tools.go:121-141` | A call that comes back with a question leaves it waiting, one without is over |
| `ToolSessions.AnswerResumes` | `packages/agentcore/tools.go:147-177` | An answer resumes its call exactly if it settles the waiting question and is no refusal; any other is rejected and leaves it waiting |
| `ToolSessions.ReservationIsAllOrNothing` | `packages/agentcore/tools.go:74-92` | When a reservation goes through, identity by identity, and that it is all or nothing |
| `ToolSessions.ToolSet.Take` | `packages/agentcore/tools.go:151-162` | The critical section of Resolve |
| `JsonWalker.LegalArguments` | `packages/agentcore/tools.go:226-238` | Accepts if and only if the text is within its limit and exactly one object without null or repeated names at any depth |
| `JsonWalker.CleanAtEveryDepth` | `packages/agentcore/tools.go:240-292` | Clean means: wherever a path leads, neither a null nor an object that repeats a name |
| `JsonWalker.CleanTextHasNoNull` | `packages/agentcore/tools.go:272-292` | The text of a clean value has no null anywhere |
| `JsonWalker.CheckValue` | `packages/agentcore/tools.go:272-292` | Accepts exactly a clean value that comes next, whichever it is, and consumes exactly it |
| `JsonWalker.CheckItems` | `packages/agentcore/tools.go:283-290` | The list loop: accepts exactly a clean list |
| `JsonWalker.CheckMembers` | `packages/agentcore/tools.go:252-270` | Accepts exactly the rest of a clean object |
| `JsonWalker.AdvanceValue` | `packages/agentcore/tools.go:273-284` | Where a value is due the decoder fails or reads its punctuation and first lexeme |
| `JsonWalker.AdvanceName` | `packages/agentcore/tools.go:255-262` | Where a member is due the decoder delivers a name or none |
| `AgentRunner.PausesShareTheBudget` | `packages/agentcore/runner.go:45-60` | Across all pauses a bounded turn makes at most as many model calls as it had rounds left |
| `AgentRunner.CallsArePaid` | `packages/agentcore/runner.go:104-110` | In one run each model call is paid for from the budget, which never goes negative |
| `AgentRunner.OnlyValidatedBatchesRun` | `packages/agentcore/runner.go:126-167` | Every executed batch was validated and appended immediately before, over all pauses |
| `AgentRunner.RunsAreDisciplined` | `packages/agentcore/runner.go:126-167` | The same for one run, and every answer was validated |
| `AgentRunner.Runner.Run` | `packages/agentcore/runner.go:99-169` | There is a last round: every earlier one executed its calls and went on, this one does not; the run is paused exactly if it executed and did not go on, answered exactly if it gave an answer that can be given; calls, appends, executions and remaining rounds follow, round by round |
| `AgentRunner.RunEndsInLastRound` | `packages/agentcore/runner.go:99-169` | The same for the run function |
| `AgentRunner.LastRoundUnique` | `packages/agentcore/runner.go:99-169` | There is only one such round |
| `AgentRunner.ExecutedBatchesAreSound` | `packages/agentcore/runner.go:126-167` | Over all pauses, what is executed is a non-empty batch of named function calls with different identities, within the argument limits one by one and in all |
| `AgentRunner.RoundBudget.Take` | `packages/agentcore/runner.go:51-60` | Unlimited, refused, or one round less |
| `AgentRunner.ValidateModelMessage` | `packages/agentcore/validation.go:11-38` | Accepts exactly the messages within the text and argument limits with distinct, complete calls |
| `AgentRunner.ValidMessages` | `packages/agentcore/validation.go:11-38` | The limits in numbers: text by role, as many identities as calls, arguments of each call by its tool and in all |
| `ResponseProxy.EveryRuleLosesOneSuccess` | `contracttests/cli-m1/responseproxy/proxy.go:331-364` | In every interleaving, whenever a rule is free: the rejected calls are those whose body is not that of the first, every other call was forwarded with that body, and of what came back exactly the first success was lost |
| `ResponseProxy.AuditAndCaptures` | `contracttests/cli-m1/responseproxy/proxy.go:129-165` | In every interleaving the audit is numbered 1 to n and an armed capture stands on a path without rules |
| `ResponseProxy.AuditKeepsEveryEntry` | `contracttests/cli-m1/responseproxy/proxy.go:435-446` | In every interleaving what a request of the current generation records stands in the audit, under its number, until the next reset, and no other request records anything |
| `ResponseProxy.StaleRequestsAreFenced` | `contracttests/cli-m1/responseproxy/proxy.go:183-194` | A request begun before the last reset changes no rule of the table, no capture and no audit entry |
| `ResponseProxy.StaleStays` | `contracttests/cli-m1/responseproxy/proxy.go:196-200` | Such a request stays so until it is finished |
| `ResponseProxy.StepKeeps` | `contracttests/cli-m1/responseproxy/proxy.go:257-311` | Every step of every interleaving keeps the invariant |
| `ResponseProxy.BoundOk` | `contracttests/cli-m1/responseproxy/proxy.go:313-329` | Binding a capture keeps the tables, and never meets an existing rule |
| `ResponseProxy.AnsweredOk` | `contracttests/cli-m1/responseproxy/proxy.go:346-360` | Settling an upstream answer keeps the counters of a rule true |
| `ResponseProxy.EnteringJudges` | `contracttests/cli-m1/responseproxy/proxy.go:331-345` | Step by step: a request enters a free rule and is rejected or forwarded by its body |
| `ResponseProxy.AnsweringSettles` | `contracttests/cli-m1/responseproxy/proxy.go:346-360` | The upstream's answer is lost exactly if it is the rule's first success |
| `ResponseProxy.RecordingReleases` | `contracttests/cli-m1/responseproxy/proxy.go:331-364` | Whoever records leaves the rule free and is done |
| `ResponseProxy.UnruledRequestsAreRecorded` | `contracttests/cli-m1/responseproxy/proxy.go:265-376` | What a request that meets no rule puts on record: nothing dropped, rejected only for want of an operation, and the status of the upstream if it was asked |
| `ResponseProxy.EnteredOk` | `contracttests/cli-m1/responseproxy/proxy.go:332-345` | Entering a rule keeps its counters true, and lets a call pass exactly if it is the first or has the first body |
| `ResponseProxy.Proxy.AddRule` | `contracttests/cli-m1/responseproxy/proxy.go:129-147` | Adds a rule unless a capture is armed or the rule exists |
| `ResponseProxy.Proxy.ArmCaptureNext` | `contracttests/cli-m1/responseproxy/proxy.go:149-165` | Arms unless the path has rules or is armed |
| `ResponseProxy.Proxy.Reset` | `contracttests/cli-m1/responseproxy/proxy.go:183-194` | Clears everything under a new generation |
| `ResponseProxy.Proxy.Dispatch` | `contracttests/cli-m1/responseproxy/proxy.go:257-311` | Where an uninterrupted request goes, and what it does to the tables |
| `ResponseProxy.DispatchRoutes` | `contracttests/cli-m1/responseproxy/proxy.go:277-311` | On the tables a proxy can have, a rule gets exactly the requests of its operation, an armed capture the next operation on its path, and no other request meets a rule or changes a table |
| `ResponseProxy.NamelessRoutes` | `contracttests/cli-m1/responseproxy/proxy.go:278-297` | A request without an operation is refused exactly where there is a rule or a capture, and passes untouched elsewhere |
| `ResponseProxy.DispatchIsItsSteps` | `contracttests/cli-m1/responseproxy/proxy.go:257-329` | The dispatch is what the interleaved steps of a request come to when nothing interrupts them |
| `ResponseProxy.RequestIsRouted` | `contracttests/cli-m1/responseproxy/proxy.go:196-200` | A new request belongs to the current generation and is routed by the tables as they are |
| `ResponseProxy.AddedRuleServes` | `contracttests/cli-m1/responseproxy/proxy.go:129-147` | When a rule is added, and that it then gets the requests of its operation |
| `ResponseProxy.ArmedCaptureServes` | `contracttests/cli-m1/responseproxy/proxy.go:149-165` | When a path is armed, and that the next operation on it then gets a rule and spends the capture |
| `ResponseProxy.ClearedForgets` | `contracttests/cli-m1/responseproxy/proxy.go:183-194` | After a reset nothing is configured or recorded, and the next generation has begun |
| `ResponseProxy.Proxy.BindCapture` | `contracttests/cli-m1/responseproxy/proxy.go:313-329` | Turns an armed capture of the current generation into a rule |
| `ResponseProxy.Proxy.Record` | `contracttests/cli-m1/responseproxy/proxy.go:435-446` | Numbers and appends the entry, unless the request is of an old generation |
| `ResponseProxy.Proxy.ForwardConfigured` | `contracttests/cli-m1/responseproxy/proxy.go:331-364` | One turn in a rule's mutex: the caller is refused exactly if the body is not that of the first call, and loses the response exactly if it is the first success; the audit entry says which |
| `HashFraming.StreamDecodesUniquely` | `contracttests/operations/fingerprint.go:215-218` | Different sequences of framed parts never give the same bytes |
| `HashFraming.PartReadsBack` | `contracttests/operations/fingerprint.go:215-218` | A framed part reads back as the part, whatever follows it |
| `HashFraming.WriteHashParts` | `contracttests/operations/fingerprint.go:215-218` | The loop writes exactly the framed stream |

## Left out

- Pruning.PruneInventory: the size limits of manifest and journal are not computed; whether the journal fits is an input of the method, and a manifest is taken to fit.
- Timestamps.KeyOrderIsInstantOrder: the accepted texts follow the regular expression and the calendar; how Python's own date parser treats longer fractions or hour 24 is not modelled.
- PruneJournals.ValidateJournal: the JSON shape checks (exact key sets, booleans and floats in place of integers) are not modelled, because journals and manifests are typed records here.
- BackupDirectory.BackupRoot.EntrySnapshot: does not tell symbolic links, directories and hard links apart; all are irregular entries that every check rejects.
- BackupDirectory.BackupRoot.CreateControl: an error of the operating system and the clean-up after it are not modelled.
- CompanionBroker.Broker.View: is stated for states with the representation invariant, which every reachable state has.
- CompanionBroker.Broker.Exchange: the clock is read once per call, here and in the other broker calls, where the program may read it more than once.
- CompanionBroker.Connection.Settle: replacing invalid UTF-8 when a value is encoded is not modelled.
- TokenEstimator.ConservativeTokenEstimator.EstimateText: floating point is modelled by reals, and recalibration by another goroutine between two estimates of one plan is not modelled; which characters count as wide is a parameter.
- ContextPlanner.MakePlan: overflow of token sums, ill-formed UTF-8 in texts and the JSON compaction of tool parameters are not modelled; the last and the text digest are parameters.
- ContextMessages.TruncateUtf8: works on well-formed text.
- TokenBudget.SteadyConverges: is about exact reals; rounding is not the point of the calibration.
- ToolSessions.OnceInEveryInterleaving: timeouts and cancellation appear only as a failing execution or resumption; registering tools and publishing events are not modelled.
- JsonWalker.LegalArguments: the decoder is modelled over lexemes, so splitting bytes into lexemes and unescaping names are not; decoding into the target type afterwards, which refuses unknown fields, is not either.
- AgentRunner.Runner.Run: events, streaming, reasoning effort and context cancellation are not modelled; a cancelled call is a failing one.
- ResponseProxy.Proxy.ForwardConfigured: the method takes a whole turn in the rule's mutex at once, with the upstream's status or failure as input (the interleaving model splits it); hijacking, headers and forwarding are not modelled, and a body is taken to be non-empty, as one that carries an operation ID is.
- ResponseProxy.Proxy.AddRule: normalising verbs and paths and reading the operation ID out of a body happen before the step and are inputs.
- HashFraming.StreamDecodesUniquely: nothing is claimed for the file bodies that `HashTree` and `CandidateFingerprint` write without a length.
- File descriptors, locking, flushing and the re-checks of root and lock identity: one exclusive holder and no outside writer are the model's premise.
- UUID generation, secrets, SHA-256 and message authentication: free constructors and fresh inputs instead.
- The maintenance HTTP routes, `web_app.py`, the migration runner and the reference enumeration over SQLAlchemy: foreign libraries carry their logic.
- The browser client under `clients/web`: its state lives behind services that are not in the repository.
- The contract-test coordinator, evidence, events, redaction and attestation: file and process orchestration with easy aggregation properties.
- Listing and sorting of proxy rules, captures and statistics: reads of the modelled tables.
