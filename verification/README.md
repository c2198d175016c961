# gpuqueue: verified model

A Dafny model of the part of gpuqueue that decides who may use a GPU and what
becomes of a job: the per-card claim ledger, the runner's admission pass and
settlement, the on-disk queue, the reaper, the dispatch budget and the issue
body. `dafny verify dfyconfig.toml` checks all of it.

## Modules

| file | models |
|---|---|
| `Ledger.dfy` | the admission rules over a list of records |
| `LedgerProtocol.dfy` | one card's directory under concurrency: `acquire` in single steps, with releases, deaths, sweeps, removals by hand and `set_usage_pid` in between |
| `LedgerRevives.dfy` | a record removed by hand and written again: exactly when it is harmless, and that only the mutex helps |
| `GpuClaim.dfy` | validation, permanent refusal and the wait loop of `gpu_claim` |
| `Procs.dfy`, `Cgroups.dfy`, `Attribution.dfy` | process trees, cgroup scopes, and which record is charged for which CUDA process |
| `Watchdog.dfy` | the VRAM watchdog and its strikes |
| `OrphanSweep.dfy` | recovery of abandoned jobs, the exemptions, the victims and the kill ladder |
| `Queue.dfy`, `QueueRuns.dfy`, `SubmitRace.dfy` | the queue as files and renames, its runs, and `submit` racing with other steps |
| `AdmitPass.dfy` | one admission pass as a function of the runner, the pending jobs and everything outside its control |
| `AdmitProofs.dfy`, `AdmitTheorems.dfy`, `AdmitOutcomes.dfy`, `ShortCircuit.dfy`, `CardStrikes.dfy` | what every turn keeps, what a pass achieves, what becomes of each job, the pass that stops early against the plain one, and the strike counter |
| `Settlement.dfy` | the verdict on a job that ends, giving the card back, shutdown |
| `RunnerRuns.dfy` | whole lives of a runner, what it remembers of them, and one runner after another |
| `Runner.dfy` | the `Runner` class itself, method by method, held to the functions above |
| `DispatchBudget.dfy`, `IssueBody.dfy` | the rolling budget of bug reports, and the issue text that is printed, bumped and read back |
| `Base.dfy`, `Text.dfy`, `Sorting.dfy` | options; splitting and joining strings; the order of strings and `sorted` |

Code that changes state step by step is imperative here too (`Runner`,
`ClaimDir`, `QueueRoot`, `Watchdog`, `Budget`, the sweep and the attribution
loops). Each such method is held to a function or a predicate, and the
properties are proved about those.

## Assumptions

These stand in the contracts; nothing else is assumed.

- A pid is not reused while a record or a spec that names it is on disk
  (`LedgerProtocol.Enabled`, case `Spawn`). Process trees are taken from one
  snapshot in which a parent is older than its child (`ProcTable.Valid`), and in
  which `ps` answers the same whenever it is asked about a pid: its children, or, if
  it fails for that pid, nothing. `MuteHidesExactly` says what a failure hides.
- Every declaration in a ledger is positive or exclusive, as
  src/gpuqueue/claim.py:312-316 and src/gpuqueue/spec.py:77-82 enforce. A pending
  spec may hold anything: the pass fails a malformed one.
- All claimants of a card work with one capacity, or with none when the card would
  not answer, and with one holder cap.
- The token in a record's file name is new.
- The cgroup paths of processes are as the kernel writes them: absolute, with no
  empty component (`Attribution.KernelPaths`); what a record holds may be any text.
- `finish`, `requeue` and `cancel` are single steps, and so are the id check and
  the write at the end of `submit`.
- Results about a whole pass that need it say so: no outside holder leaves during
  the pass and the capacity answer does not change (`AdmitPass.Stable`). The link
  between records and jobs needs no such thing.

Sleeping, mutex waits as time, subprocesses and their output, and what git and
GitHub do are parameters: each method takes their answers (`Luck`, `Poll`,
`Answers`, `Call`, `Ended`, the `mute` pids of a `ProcTable`) and is proved for all
of them.

## Where a promise fails, and exactly when it holds

- The capacity promise. `set_usage_pid` writes the record without the mutex and
  without looking whether it is still on disk (src/gpuqueue/ledger.py:193-204), so
  after a removal by hand it brings the record back, and the card may by then be
  somebody else's. `RevivedRecordOverbooksTheCard` is such a run. Testing first is not
  enough: `TheTestAloneIsNotEnough` is a run in which the card reads as empty when
  the record is written again, and `OnlyTheMutexHelps` shows that an `acquire` can
  defeat any test of any directory. Made while no `acquire` is between its
  listing and its decision, above all by a writer that takes the mutex itself, the
  write is harmless for ever exactly when the card bears the record
  (`ReviveIsHarmlessExactly`). Runs in which each such write passes its tests are safe
  (`CapacityIsNeverExceeded`).
- Dedupe. A retry that lands between `submit`'s scan of pending/ and its scan of
  running/ is seen by neither (src/gpuqueue/queue.py:66-71 against 99-104).
  `RetryInTheGapDuplicates` is such a case. `SubmissionIsSafeExactly` gives the
  condition, which can be tested when the submit lock is taken: whatever others do
  until the submission is over, it duplicates nothing if and only if its id is taken
  or no active job with its key has an attempt left.
- A refund that cannot be saved is swallowed (src/gpuqueue/bugfiler.py:262-282), so a
  failed creation can cost a dispatch. `FailedCreationIsFree` states exactly when it
  does not; the budget itself (`RollingBudget`) holds either way.

## Model

| member | source | states |
|---|---|---|
| Ledger.ExceedsCapacityExact | src/gpuqueue/ledger.py:233-252 | a declaration is refused for good exactly when no ledger at all would admit it |
| Ledger.CardIsClosedExact | src/gpuqueue/ledger.py:286-311 | a card is closed exactly when this ledger refuses every declaration there is |
| Ledger.FitsAntitone | src/gpuqueue/ledger.py:255-277 | whatever a ledger admits, every sub-ledger admits: holders may leave without the mutex |
| Ledger.ClosedIsMonotone | src/gpuqueue/ledger.py:286-311 | a closed card stays closed as holders arrive |
| Ledger.SmallerAskFits | src/gpuqueue/ledger.py:255-277 | a ledger that admits an ask admits every smaller ask the card can hold |
| Ledger.SubLedgerIsLighter | src/gpuqueue/ledger.py:255-283 | different records charged in a second list are no more and no heavier than that list |
| Ledger.AdmissionKeepsCapacity | src/gpuqueue/ledger.py:395-412 | admitting what fits keeps: one holder, or all declared, together within the card, and never over the cap |
| Ledger.DeclaredIsASum | src/gpuqueue/ledger.py:255-283 | what is declared on a card is the plain sum of the numbers declared, an exclusive holder counting as none |
| LedgerProtocol.CapacityIsNeverExceeded | src/gpuqueue/ledger.py:373-416 | in every state any interleaving reaches in which removed records are written again only under their tests, the live records of a card respect its capacity and the holder cap |
| LedgerProtocol.StepKeepsInv | src/gpuqueue/ledger.py:373-416 | each single step keeps safety and keeps what the holder of the mutex has read a cover of the live records |
| LedgerProtocol.ReadKeepsView | src/gpuqueue/ledger.py:161-171 | reading the next file, which may be gone by now, keeps that cover |
| LedgerProtocol.TestOwnerKeepsView | src/gpuqueue/ledger.py:189-190 | dropping a record whose owner is dead keeps that cover |
| LedgerProtocol.DecideKeepsView | src/gpuqueue/ledger.py:396-402 | a decision made on files read one by one is sound for whoever is live when it is made |
| LedgerProtocol.WriteKeepsSafe | src/gpuqueue/ledger.py:397-412 | writing a record decided on from an old view is still safe |
| LedgerProtocol.LeavingKeepsSafe | src/gpuqueue/claim.py:178-211 | a release, sweep, death or removal by hand, without the mutex, is safe |
| LedgerProtocol.LeavingExactly | src/gpuqueue/claim.py:178-211 | who counts after a release, a sweep, a removal by hand or a death: exactly that file or that process no more, everybody else as before, and a dead holder leaves the mutex free |
| LedgerProtocol.ReviveKeepsInvExactly | src/gpuqueue/ledger.py:193-204 | bringing back a removed record keeps the card in order, with any acquire under way, if and only if the card bears it and that acquire counts it, has yet to list, or would be borne beside it |
| LedgerRevives.ReviveIsHarmlessExactly | src/gpuqueue/ledger.py:193-204 | with no acquire between listing and decision, no continuation ever oversteps the card if and only if the card bears the record, and bears a claim just admitted beside it |
| LedgerRevives.OnlyTheMutexHelps | src/gpuqueue/ledger.py:202-204 | whatever the directory holds, an acquire can be under way in which writing the record again overbooks the card |
| LedgerRevives.TheTestAloneIsNotEnough | src/gpuqueue/ledger.py:202-204 | a run in which the card reads as empty at the write and ends overbooked |
| LedgerRevives.RevivedRecordOverbooksTheCard | src/gpuqueue/ledger.py:202-204 | a run in which it is not safe |
| LedgerRevives.ClaimAndReleaseCancelOut | src/gpuqueue/ledger.py:373-416 | on any card, an undisturbed acquire is admitted if and only if its claim fits beside the live records; then its record is on disk and the mutex free, and releasing it leads back to the very same card; a refused one leaves the card as it was |
| GpuClaim.Claim | src/gpuqueue/claim.py:258-363 | taken at the first poll that admits it; refused for good only by a capacity that is too small; who still waits was refused by every poll and would be admitted by an empty card |
| GpuClaim.FirstAnswerStands | src/gpuqueue/claim.py:319-363 | a claimant that asked for itself works with the first capacity the card names, for good; one that was handed "unknown" never asks |
| Procs.ProcTable.Descendants | src/gpuqueue/procs.py:24-41 | recursion over child lists collects exactly the processes whose chain of parents, as far as `ps` answers, meets the pid |
| Procs.ProcTable.AboveFromTheTop | src/gpuqueue/procs.py:24-41 | a chain of parents can be split at its top as well as at its bottom |
| Procs.ProcTable.AboveIsDescent | src/gpuqueue/procs.py:24-41 | a process is in the tree exactly when a line of descent leads to it, each pid the parent of the next and each but the last answering `ps` |
| Procs.ProcTable.MuteHidesExactly | src/gpuqueue/procs.py:32-37 | a failing `ps` hides a process from an ancestor's tree if and only if it fails for some pid on the way |
| Cgroups.InScopeIsComponentPrefix | src/gpuqueue/cgroups.py:90-127 | the string test is: scope not refused and its components a prefix of the process's |
| Cgroups.ScopesNest | src/gpuqueue/cgroups.py:110-127 | two scopes that share a process are nested |
| Cgroups.SiblingIsOutside | src/gpuqueue/cgroups.py:110-127 | a path that only extends the scope's last component is outside |
| Cgroups.InScopeExactly | src/gpuqueue/cgroups.py:25-42 | on the components themselves: a scope of at least two that does not end in a login session or user slice covers exactly the cgroups whose components it starts; any other scope covers nothing |
| Attribution.Attribute | src/gpuqueue/ledger.py:419-463 | the lists are, in order, those of every owner and of nobody, with none empty |
| Attribution.CollectTrees | src/gpuqueue/ledger.py:448-449 | one tree per record with a usage pid, in record order |
| Attribution.OwnerOf | src/gpuqueue/ledger.py:466-489 | the first tree that holds the pid, else the first live scope |
| Attribution.TreesBeforeScopes | src/gpuqueue/ledger.py:466-489 | a process inside some tree is charged to a record whose tree holds it, never by scope; nobody is charged exactly when no tree and no live scope holds it |
| Attribution.ScopeCoversExactly | src/gpuqueue/ledger.py:207-226 | a record's scope covers a process if and only if the pid it named is alive and still in the very cgroup recorded, and the process runs in that cgroup or one nested in it |
| Attribution.OwnedExactly | src/gpuqueue/ledger.py:466-489 | told on the box: a process is owned exactly when it is in the tree some record is charged for, or inside the scope of one whose anchor stands, and then by such a record |
| Attribution.FallenAnchorChargesNothing | src/gpuqueue/ledger.py:207-226 | a record whose anchor is dead or has moved to another cgroup is charged as if it named no scope |
| Attribution.UsageIsASum | src/gpuqueue/ledger.py:492-496 | what is charged is the plain sum of what could be measured |
| Attribution.AttributionIsAPartition | src/gpuqueue/ledger.py:419-496 | every app lands exactly once, and measured usage is conserved |
| Watchdog.Watchdog.CheckVram | src/gpuqueue/reaper.py:351-401 | convicts exactly the declared records whose unbroken run of sweeps over the declaration has reached a multiple of two, and reports what they use and which processes |
| Watchdog.Watchdog.BlindSweep | src/gpuqueue/reaper.py:509-521 | a sweep that saw nothing breaks every run |
| Watchdog.Watchdog.Tally | src/gpuqueue/reaper.py:369-401 | strikes and verdicts over all records, and the strikes of records that are gone |
| Watchdog.DueIsMultiple | src/gpuqueue/reaper.py:383-386 | reaching the strike limit is having a run whose length is a positive multiple of it |
| Watchdog.VerdictIsExact | src/gpuqueue/reaper.py:351-401 | the verdicts of the loop are those of the run lengths |
| Watchdog.BrokenIsSeen | src/gpuqueue/reaper.py:360-367 | the test on the attribution result recognises exactly the broken measurements |
| OrphanSweep.OwnPids | src/gpuqueue/preflight.py:58-90 | exactly this process, its parent, its tree, and what some live record accounts for |
| OrphanSweep.OwnScopes | src/gpuqueue/preflight.py:93-134 | exactly the live scopes of live records |
| OrphanSweep.RunningTrees | src/gpuqueue/reaper.py:177-201 | exactly the trees of the jobs in running/ that have a pid |
| OrphanSweep.RequeueOrphans | src/gpuqueue/reaper.py:42-60 | exactly the jobs nobody follows and whose process is gone are retried or failed; the rest is untouched; the changes are steps of the queue that keep off active jobs |
| OrphanSweep.ChooseVictims | src/gpuqueue/reaper.py:72-143 | exactly the visible CUDA processes no exemption spares, in order |
| OrphanSweep.Ladder | src/gpuqueue/reaper.py:144-174 | the signals sent and the report, for any answers of the system |
| OrphanSweep.SignalsAreExact | src/gpuqueue/reaper.py:144-174 | a SIGTERM to exactly the victims, a SIGKILL to exactly those that took it and outlived the grace |
| OrphanSweep.TermsComeFirst | src/gpuqueue/reaper.py:150-174 | no SIGTERM after a SIGKILL |
| OrphanSweep.ExemptionCoversAttribution | src/gpuqueue/preflight.py:58-134 | a claim directory that grants an attribution grants the exemption too |
| OrphanSweep.SparedExactly | src/gpuqueue/reaper.py:72-143 | why a process is left alone, told on the box: charged to a record of the runner's directory, this process or its family, protected, or accounted for by a living holder anywhere, through its pid, its tree or a scope whose anchor stands |
| OrphanSweep.FallenAnchorSparesNothing | src/gpuqueue/ledger.py:207-226 | a record whose anchor is dead or has moved spares exactly what it would spare if it named no scope |
| OrphanSweep.Reap | src/gpuqueue/reaper.py:549-553 | recovery first, then the sweep: nothing in the tree of a job then left in running/ is signalled, every other unspared process is, and only who took the SIGTERM is reported, with the cgroup it was in |
| Queue.QueueRoot.ListState | src/gpuqueue/queue.py:122-132 | every spec of the state, each once, by file name |
| Queue.QueueRoot.Scan | src/gpuqueue/queue.py:68-71 | the first job of the state with the key, if any has it |
| Queue.QueueRoot.Submit | src/gpuqueue/queue.py:64-76 | rejected, duplicate, taken or accepted, each exactly when it should be; a duplicate names the first job listed, pending before running; only an acceptance writes |
| Queue.RefusedForCause | src/gpuqueue/spec.py:61-96 | a spec is refused if and only if its id or commit uses a character that is not allowed, a required part is missing, its declaration is no positive number or stands on a CPU job, or an artifact path is not contained |
| Queue.MatchesExactly | src/gpuqueue/spec.py:9-16 | ids and commits are letters, digits and, not first, the further characters; a final newline is let through |
| Queue.ContainedExactly | src/gpuqueue/spec.py:94-96 | an artifact path is accepted if and only if it is not absolute and none of its components is ".." |
| Sorting.SortOrders | src/gpuqueue/runner.py:461-462 | sorting by an order without ties yields the same elements, each before the next |
| Sorting.LessExactly | src/gpuqueue/runner.py:461-462 | one string is before another exactly when, where they part, it ends or has the smaller character |
| Queue.QueueRoot.Claim | src/gpuqueue/queue.py:78-86 | the whole new state, and the spec exactly when the file was there |
| Queue.QueueRoot.Finish | src/gpuqueue/queue.py:93-97 | the whole new state |
| Queue.QueueRoot.Requeue | src/gpuqueue/queue.py:99-104 | the whole new state, one attempt spent and no pid |
| Queue.QueueRoot.Cancel | src/gpuqueue/queue.py:106-119 | the whole new state; true exactly when the job was pending |
| QueueRuns.StepMovesOneJob | src/gpuqueue/queue.py:64-119 | every step keeps each job in one directory and moves one job along its path |
| QueueRuns.StepExactly | src/gpuqueue/queue.py:51-119 | what each step does to every file: which one goes, which one is there with which spec, and that no other changes; a submission writes exactly if its spec is valid, its id new and its key free |
| QueueRuns.JobsAreConserved | src/gpuqueue/queue.py:64-119 | after any run exactly the ids there were, or were accepted, exist, each in one directory |
| QueueRuns.VisitsBalance | src/gpuqueue/queue.py:78-119 | what went into pending/ and running/ came out or is still there, and each retry spends an attempt |
| QueueRuns.ExactlyOneWinner | src/gpuqueue/queue.py:78-119 | of any number of claimers and cancellers of one pending visit exactly one gets the job |
| QueueRuns.RetriesAreBounded | src/gpuqueue/reaper.py:42-60 | a job submitted with a attempts is retried at most max(0, 1 - a) times, and enters running/ once more at most |
| QueueRuns.EveryMoveLowersTheTotal | src/gpuqueue/queue.py:78-119 | a natural number falls at every move of a job |
| QueueRuns.TotalNeverRises | src/gpuqueue/queue.py:78-119 | and no step raises it |
| SubmitRace.KeysStayUnique | src/gpuqueue/queue.py:51-76 | at most one active job carries a key, whatever lands during the scans except a retry of that key |
| SubmitRace.SubmissionIsSafeExactly | src/gpuqueue/queue.py:64-76 | decided when the lock is taken: no interleaving duplicates the key if and only if the id is taken or no active job with the key has an attempt left |
| SubmitRace.AttemptLeftDuplicates | src/gpuqueue/queue.py:66-104 | in any queue with such a job and a free id, an interleaving that duplicates exists |
| SubmitRace.SpentIsSafe | src/gpuqueue/queue.py:66-104 | and none exists once the attempts are spent |
| SubmitRace.RetryInTheGapDuplicates | src/gpuqueue/queue.py:66-104 | a queue with one running job, whose key can be submitted twice |
| AdmitProofs.TurnKeepsOrder | src/gpuqueue/runner.py:523-586 | one turn keeps the books, touches its own job's files only, and takes back nothing |
| AdmitProofs.StartKeepsLinked | src/gpuqueue/runner.py:821-837 | a started GPU job and its record join the one-to-one link |
| AdmitProofs.BeginFails | src/gpuqueue/runner.py:577-584 | a lost rename, a failed checkout and a failed start each give the card back |
| AdmitTheorems.PassKeepsOrder | src/gpuqueue/runner.py:430-586 | no leaked hold over a pass: records and active GPU jobs in one-to-one correspondence, each record naming its job as owner, every claim held or exited once, and never more active CPU jobs than `cpu_slots` nor GPU jobs than `gpu_max_jobs` |
| AdmitTheorems.PassIsMaximal | src/gpuqueue/runner.py:457-586 | if a GPU job is still pending at the end, `gpu_max_jobs` GPU jobs are active, or its declaration does not fit beside the holders there are |
| AdmitTheorems.NoOvertaking | src/gpuqueue/runner.py:461-586 | a job is not started past an earlier pending one that asks for no more |
| AdmitTheorems.EarlierGoesFirst | src/gpuqueue/runner.py:461-586 | of two pending jobs, one submitted later, or at the same time under a larger id, is not started while the other, which asks for no more, is still pending |
| AdmitTheorems.CardNeverDelaysCpu | src/gpuqueue/runner.py:430-586 | a CPU job is still pending only if `cpu_slots` CPU jobs are active, whatever the card does |
| AdmitTheorems.CpuGoesInOrder | src/gpuqueue/runner.py:461-586 | while a CPU job is pending at the end of a pass, no CPU job after it was started in that pass |
| AdmitTheorems.OnlyTheHopelessFail | src/gpuqueue/runner.py:714-764 | a look at the card fails a job exactly when no ledger would ever hand it the card |
| AdmitOutcomes.PassAccountsForEach | src/gpuqueue/runner.py:523-586 | each job the pass finds pending ends started, failed for a given reason, or pending, each if and only if the cause for it was there at its turn: cancelled, undeclared project, no name for the card three passes running, too large, malformed, checkout or start failed; a job with no such cause and no slot or no room just stays |
| AdmitOutcomes.DecideExactly | src/gpuqueue/runner.py:523-575 | the verdict of one turn, each if and only if: begin it, fail it and why, close the card, stop asking the ledger |
| AdmitOutcomes.TurnEndsForCause | src/gpuqueue/runner.py:523-586 | one turn leaves its job started, failed or pending for cause, with the file it then has |
| AdmitOutcomes.TurnBooks | src/gpuqueue/runner.py:523-586 | what one turn does to the books: the record taken, owner, declaration and pids included, the job entered, the claims entered and exited |
| AdmitOutcomes.TurnTellsThePass | src/gpuqueue/runner.py:558-573 | GPU admissions stop for the pass if and only if the mutex timed out, or the ledger refused the job and has room for nobody |
| AdmitOutcomes.PassKeepsActive | src/gpuqueue/runner.py:523-586 | a pass does not touch a job that is already active |
| AdmitTheorems.BarredTurn | src/gpuqueue/runner.py:523-586 | what bars a job outlasts a turn, and bars every larger ask |
| AdmitTheorems.PassLeavesOthers | src/gpuqueue/runner.py:523-586 | a job that is not considered stays where it is |
| ShortCircuit.ShortcutStartsTheSameJobs | src/gpuqueue/runner.py:523-586 | stopping at a closed card starts the same jobs and leaves the same ledger as trying every job; hopeless jobs may merely still be pending |
| ShortCircuit.ClosedVerdicts | src/gpuqueue/ledger.py:286-311 | on a closed card the plain pass can do nothing for a GPU job but fail a hopeless one |
| CardStrikes.StrikesAreTheTrailingRun | src/gpuqueue/runner.py:501-522 | the counter is the length of the trailing run of passes that could not name the card |
| CardStrikes.NoUsableGpuNeedsARun | src/gpuqueue/runner.py:539-556 | no job is failed for want of a usable GPU unless the last three passes could not name the card |
| CardStrikes.ARunEndsTheWait | src/gpuqueue/runner.py:539-556 | and then every GPU job with a slot leaves pending/ |
| CardStrikes.LookUpExactly | src/gpuqueue/runner.py:494-496 | the card is left alone exactly when no GPU job is pending or all GPU slots are taken |
| CardStrikes.LookingLessLosesNothing | src/gpuqueue/runner.py:494-496 | and a pass that looks only then does what a pass that always looks would do |
| CardStrikes.RefusedCardIsNotTaken | src/gpuqueue/runner.py:536-556 | with a stranger on the card, or no name for it, a pass enters no claim |
| Settlement.SettleKeepsOrder | src/gpuqueue/runner.py:871-919 | settling a job takes its record with it and no other's |
| Settlement.SettledExactly | src/gpuqueue/runner.py:871-962 | all that settling leaves: the file, its directory, exit code and error, the retry and its window, the ledger and the log of claims |
| Settlement.EachIsSettled | src/gpuqueue/runner.py:860-869 | of several ended jobs each is settled as if it were the only one, at its own clock reading |
| Settlement.SettleIsAStep | src/gpuqueue/runner.py:871-919 | settling is one enabled step of the queue; a retry only below the attempt limit |
| Settlement.StopKeepsOrder | src/gpuqueue/runner.py:350-380 | stopping a job at shutdown keeps the books |
| Settlement.LetGoKeepsLinked | src/gpuqueue/runner.py:1034-1041 | giving the card back keeps the one-to-one link for everybody else |
| RunnerRuns.LifeKeepsOrder | src/gpuqueue/runner.py:110-125 | the books are in order, and the lanes within `cpu_slots` and `gpu_max_jobs`, at every moment of a runner's life, whatever others do |
| RunnerRuns.IdleRunnerHoldsNothing | src/gpuqueue/runner.py:350-380 | with no active job nothing is held and every claim ever entered was exited exactly once |
| RunnerRuns.LifeIsAQueueRun | src/gpuqueue/runner.py:457-586 | what passes, settlements and stops do to the files is a run of the queue |
| RunnerRuns.LifeConservesJobs | src/gpuqueue/runner.py:891-896 | over a runner's life no job is lost, and both retry paths together stay within the attempts left |
| RunnerRuns.LivesConserveJobs | src/gpuqueue/runner.py:957-958 | so they do over any number of runners, one after the other, each ending anyhow |
| RunnerRuns.MemoryIsHistory | src/gpuqueue/runner.py:340-341 | what the runner remembers of convictions that freed the card is the last one noted in its life |
| RunnerRuns.SentBackForCause | src/gpuqueue/runner.py:921-962 | settlement sends a job back if and only if it ran out of memory unconvicted and in time, with an attempt left, and the last conviction that freed the card was noted after the job started and within the window |
| RunnerRuns.DoneForCause | src/gpuqueue/runner.py:876-918 | a job settled for the first time ends in done/ if and only if it exited 0 in time, its artifacts could be collected and no conviction of it was ever noted |
| RunnerRuns.ConvictedJobFails | src/gpuqueue/runner.py:880-890 | a job convicted while it runs ends in failed/, however it exits and whatever happens before it is collected, and its file says so |
| RunnerRuns.ConvictedRecordFailsItsJob | src/gpuqueue/runner.py:345-346 | a conviction of a record the runner holds brands exactly the job that record backs, which then ends in failed/, however it exits |
| RunnerRuns.CounterIsTheTrailingRun | src/gpuqueue/runner.py:501-522 | at every moment of a life the strike counter is the length of the trailing run of passes that could not name the card |
| RunnerRuns.FreshRunnerIsInOrder | src/gpuqueue/runner.py:61-107 | a runner starts in order, whatever an earlier one left in the queue |
| Runner.ClaimDir.Acquire | src/gpuqueue/ledger.py:373-416 | one whole `acquire`: the answer and the new directory |
| Runner.ClaimDir.Release | src/gpuqueue/ledger.py:229-230 | the record with that path goes, and no other |
| Runner.ClaimDir.SetUsagePid | src/gpuqueue/ledger.py:193-204 | the record is written over its file, or anew if the file is gone; no other changes |
| Runner.WrittenOver | src/gpuqueue/ledger.py:193-204 | a record written under a name there is takes the place of that file and no other |
| Runner.WrittenAnew | src/gpuqueue/ledger.py:193-204 | under a new name it is one more file |
| Runner.Runner.PendingInOrder | src/gpuqueue/runner.py:461-462 | the pending jobs, each once, by submission time and then by id |
| Runner.Runner.Admit | src/gpuqueue/runner.py:457-586 | a stopping runner admits nothing; otherwise the pass over the jobs in that order does to the runner, the ledger and the queue what `RunPass` does, and to the counter what `NextStrikes` does |
| Runner.Runner.Walk | src/gpuqueue/runner.py:463-586 | the loop is `RunPass`, whatever the list |
| Runner.Runner.HandOut | src/gpuqueue/runner.py:523-575 | the tests of one turn are those of `Decide`, and what they change is what the verdict says |
| Runner.Runner.TakeCard | src/gpuqueue/runner.py:690-764 | the four ways `_take_card` can end, each with the whole new state |
| Runner.Runner.Launch | src/gpuqueue/runner.py:794-837 | the whole new state of a start and of both failures |
| Runner.Runner.Settle | src/gpuqueue/runner.py:871-919 | the whole new state, and the conviction forgotten once described |
| Runner.Runner.Judge | src/gpuqueue/runner.py:876-910 | the decisions of `_settle` are those of `FateOf` |
| Runner.Runner.Collect | src/gpuqueue/runner.py:860-869 | exactly the ended jobs are settled, each once, as if it were the only one, at its own clock reading and by what was remembered of its own conviction |
| Runner.Runner.NoteConvictions | src/gpuqueue/runner.py:320-343 | only a conviction that freed the card opens the retry window; exactly the jobs named as owners are branded |
| Runner.Runner.Shutdown | src/gpuqueue/runner.py:350-380 | no job stays active; exactly the records of jobs whose claim cannot be given back are left, and every other file is written, so one job's failure strands no other's hold; if all can be given back, every claim ever entered was exited once |
| DispatchBudget.RollingBudget | src/gpuqueue/bugfiler.py:421-471 | for any calls in time order, every 24-hour window holds at most the cap of filings |
| DispatchBudget.FiledExactly | src/gpuqueue/bugfiler.py:421-471 | a call is filed if and only if the issue is created, the debit is saved and the last 24 hours hold fewer stamps than the cap |
| DispatchBudget.NextCallIsFiledExactly | src/gpuqueue/bugfiler.py:421-471 | while saves and creations succeed, after any calls the next is filed if and only if the filings of the 24 hours before it are fewer than the cap |
| DispatchBudget.ADayFilesExactlyTheCap | src/gpuqueue/bugfiler.py:421-471 | the calls of one day, all successful, file exactly as many as there are calls or the cap allows, whichever is less |
| DispatchBudget.FilingCostsOne | src/gpuqueue/bugfiler.py:248-259 | a filing costs one stamp in every window that holds it, and a throttled call none, as far back as two days |
| DispatchBudget.InWindowCounts | src/gpuqueue/bugfiler.py:248-250 | stamps are counted by position, equal ones each |
| DispatchBudget.Budget.File | src/gpuqueue/bugfiler.py:421-471 | outcome and stored stamps after debit, creation and refund |
| DispatchBudget.Budget.RecordDispatch | src/gpuqueue/bugfiler.py:257-259 | the stamp is stored exactly if the save succeeds |
| DispatchBudget.Budget.RefundDispatch | src/gpuqueue/bugfiler.py:262-282 | one stamp of that moment goes if the save succeeds |
| DispatchBudget.CallStaysWithinBudget | src/gpuqueue/bugfiler.py:421-471 | one call keeps the bound and keeps recent filings on record, despite pruning |
| DispatchBudget.FailedCreationIsFree | src/gpuqueue/bugfiler.py:262-282 | a failed creation costs nothing if and only if nothing was debited or the refund is saved |
| IssueBody.IssueBodyRoundTrip | src/gpuqueue/bugreport.py:145-211 | for every text, n bumps leave the header count at n+1, the last stamp last, and every other line as it was |
| IssueBody.BumpChangesTheHeaderOnly | src/gpuqueue/bugreport.py:180-192 | one bump changes the two header lines and nothing below |
| IssueBody.ReadsBack | src/gpuqueue/bugreport.py:195-207 | the count and the text of the last-seen line read back what was printed |
| IssueBody.BodyLines | src/gpuqueue/bugreport.py:145-177 | the issue as first filed, line for line: the count and both stamps above, the traceback between its fences, the job and the queue below it, for texts of any number of lines |
| IssueBody.NoLeadingZero | src/gpuqueue/bugreport.py:186-192 | a count is printed without a leading zero |
| IssueBody.BumpCountsOne | src/gpuqueue/bugreport.py:180-192 | of any text at all, a bump raises the first count line by exactly one, and leaves the text alone if and only if it has none |
| IssueBody.BumpStampsOne | src/gpuqueue/bugreport.py:180-192 | of any text that has a count line, a bump replaces the first last-seen line, wherever it stands, and leaves every line but these two alone |

## Left out

- Pid reuse, hand-edited records, unreadable or garbage files, and crashes between `start_job` and `queue.update`.
- Claimants from before the ledger (`<key>.lock.json`): they never look at the ledger, so the capacity promise does not cover them.
- The steps inside `cancel`, `finish` and `requeue`, and between `submit`'s id check and its write: each is one step here.
- LedgerRevives.ReviveIsHarmlessExactly: says nothing of a write that falls between an acquire's listing and its decision; there LedgerProtocol.ReviveKeepsInvExactly decides whether the card stays in order, which suffices but is more than safety needs, and LedgerRevives.OnlyTheMutexHelps shows that a writer could not know.
- Queue.QueueRoot.ListState: does not skip unreadable files, because the files here are specs.
- RunnerRuns.LifeKeepsOrder: a removal of the runner's own record by hand is not among its events; what such a removal can do is in LedgerRevives.
- IssueBody.ReadsBack: gives the text that is handed to the date parser; parsing dates is `strptime`'s business.
- OrphanSweep.Reap: the stale sweep of claim files, partial-file cleaning and the watchdog call are not repeated in it; the first is a step of LedgerProtocol, the last is Watchdog.
- A crash in the middle of one job's turn or of one settlement: a life ends between events, or between two jobs of a pass.
- The watchdog's own kill (`_kill_convicted`, `_kill_pids`): who is convicted is modelled, the second ladder is not.
- `sweep_stale` and `all_claim_dirs` as loops over directories: only path collection, whose effect on the ledger is the sweep step.
- Preflight's cache, report cooldown, the capacity cache, log lines and their change gating: they decide when something is asked or said, not what.
- `executor.py`, `git_ops.py`, `gpuid.py`, `killlog.py`, `config.py`, the command lines and the unit files.
- The GitHub searches and labels of the bug filer, and the signature that groups failures.
