# Orkia dispatch: a verified model

Orkia dispatches the tasks of an RFC to agents. One run actor owns a run: it takes waves of ready tasks from a kernel, reconciles each
task with its issue file, spawns detached agent jobs, routes final responses back to tasks, runs acceptance oracles, retries, appends
every output and verdict to a hash chain, and may start a bounded number of re-plan rounds. A second entry point resumes a run from
whatever a crash left on disk. This project models that actor, the formats beneath it (hash chain, issue file, atomic write, shell
quoting), and four smaller computations of the same repository (the `eval` envelope reader, the `-c` scanner, the Seatbelt profile
generator, the bracket depth of the difficulty scorer), and proves what they are for.

## How the actor is modelled

`DispatchDriver.Driver` is one class with the actor's fields. Everything outside it is a value of type `World.World`: the kernel's round and
what it has released and heard, the spawner's jobs, the oracles in flight, and `disks`, every durable state so far. Kernel, spawner and
oracle threads are the most general environments that meet their contracts: waves name planned tasks, a task is released once per
round, `Completed` is answered only when nothing released is unreported, a targeted wave is part of what is re-opened, job ids are
fresh, and an oracle that was started answers at most once, so that any other verdict is one for a superseded attempt. Every read, write
and call may fail, and an append may stop anywhere in its line. A crash is any member of `disks`.

The seal file is a `Seal.File`: what its lines show (whole lines, an unended last line, or undecodable) and its length, which the
reader's cap of 4 MiB is about. `SealFile` proves that its text shows just that, and `Runs.AppendIsOperation` that the actor's append is the
file's. The ghost `chain` holds every record found or handed to the file since. While its lines decode they decode to `chain`; promises
about what the actor did speak of `chain`, promises about a disk speak of what its file decodes to.

What comes back from outside is kept in the ghost `log` (`DriverSpec.Event`): every reply of the kernel's, the integration results, the
oracles started, every failed read, write, spawn and seal, aborts, and the reason the run is closed with. `tried` holds the records the
actor tried to seal, `World.heard` the responses it took in with their texts, and `runFaults` counts failures of the run's own file, which
the actor ignores. Events are written only by the methods at the boundary, so "goes on", "stops" and "fails" are claims about what was
heard: a step fails only on a failure in the log, and a run ends only on a stop of the kernel's, an error or an abort.

Two invariants carry the proofs. `DriverState.Safe` speaks about the whole history and holds in every state, also after an error.
`DriverState.Live` holds whenever the actor goes on; it places every planned task exactly once (waiting, queued, in hand, running as a
job, judged by an oracle, told to the kernel) and ties routes, issues and oracles to that place. Each method states its own effect as an
equation between states besides keeping both invariants, and `Runs.RunActor` reads off the promises for any sequence of messages.
What the steps write is specified in `DriverSpec` and written out again in the methods, part by part, as the source writes it.

Whether a run was begun by `start_run` is the ghost field `st.isNew`; the claims that the code only makes for such runs carry it.
"Verified before done" is instead a claim about tasks: those vouched for by what the actor found (`DriverState.Vouched`, every planned task
of a new run) and those a later round started over.

## What the code does that its documentation does not say

- On resume a captured response, and an issue that is already `Done`, are reported as done without running the oracle
  (crates/orkia-dispatch-proxy/src/run.rs:274-277, 341-346). `Runs.UnvouchedIsReportedUnverified` gives the run for every such issue and
  every chain without a verdict; for all other tasks, also of a resumed run, `Runs.RunActor` proves that the verdict comes first.
- The hash preimages are unseparated concatenations and leave out the agent. The documentation says that a record binds task id, response
  hash and path (crates/orkia-dispatch-proxy/src/seal.rs:17-21); `SealBytes.OutputFieldsCanShift` gives, for every chain, two different
  outputs with one tip, `SealBytes.OutputFieldsPinnedIffWidths` says exactly when the fields are bound, and
  `SealBytes.RegularOutputsPinned` gives a condition on single records. A failing and a passing verdict can share a tip, too
  (`SealBytes.VerdictCanFlip`, `SealBytes.VerdictPinnedIffTaskWidths`).
- `writeln!` puts the newline in a write of its own. If only it is lost, the record still reads and verifies, the next append succeeds
  and joins two records on one line, and from then on the chain cannot be read (`SealFile.LostNewlineBreaksChain`). The exact condition
  is `SealFile.SuccessIsReadableIffLineEnded`; the 4 MiB read cap is its other half. For runs: a crash can leave such a file
  (`Runs.CrashCanLoseNewline`), a resumed actor keeps the chain readable exactly when the file it found ends in a newline and has room
  for the line (`Runs.ResumeKeepsChainIffRoom`, `Runs.SealingSurvivesIffLineEnded`), and otherwise reports a task whose record nobody can
  read (`Runs.ResumeCanLoseChain`).
- A marker in the title, or the response marker in the prompt, changes what an issue reads back as
  (`IssueFile.WriteMeansNormalizedIffMarkersFree`). The response of the issue itself is unrestricted, but it goes into the prompts of the
  tasks that depend on it: a started task is stored with its composed prompt exactly when nothing in it is marked
  (`Prompts.StartedPromptStoredIffUnmarked`), and otherwise with a cut prompt and a response that nobody gave
  (`Prompts.MarkedResponseSpoilsDependent`); likewise a retried one (`Prompts.RetryPromptStoredIffUnmarked`). Under a marked title a re-plan
  leaves a response or a longer prompt behind (`Runs.ReplanClearsIffTitleFree`).
- A blank response is stored as no response (`Runs.HeardTextIsStored`), so a task that depends on it cannot be started
  (crates/orkia-dispatch-proxy/src/run.rs:375-393).
- The issue with the empty id is written and read but never listed (`IssueStore.ListedIffReadable`).
- `max_attempts` and `max_replans` are cut to 32 bits by `as u32`. That never raises a limit, and keeps it exactly when it fits
  (`Runs.BudgetIsLimitIffFits`, `Runs.ConfigOfRequest`).
- If two issue files name one job when a run is resumed, the job's response is heard for one of the two tasks and no job is
  routed to the other any more (`Runs.SharedJobOrphans`); otherwise no released task is left behind (`DriverState.NothingIsOrphaned`).
- The `-c` scanner is documented to react to any unquoted command position that starts with an agent name. Among its own positions the
  first `@` decides alone (`DashC.AnyAgentIffNotShadowed`, `DashC.BareMarkShadows`). Its positions are not those of a shell list: a newline
  starts a command there, and the scanner misses it exactly when an unquoted word stands on a line before, behind the last separator
  (`DashC.ScannerMissesIffNewline`, `DashC.NewlineHidesAgent`); and a quoted word does not end its command position
  (`DashC.QuotedRegionInvisible`, `DashC.QuotedCommandKeepsPosition`), so it takes an argument for a command exactly when a quoted or escaped
  character stands between it and the last separator or newline (`DashC.ScannerErrsIffQuoted`).
- The profile's comment line carries the tag unescaped. For every tag, the text reads back as the rules exactly when the tag's later lines
  are blank or comments (`SbplProfile.ReadsBackIffTagIsSilent`); a form on the second line is read as a rule
  (`SbplProfile.TagFormIsRule`), and one such tag turns the profile around (`SbplProfile.TagCanUndoProfile`).

## Files

`Wrappers`, `Text`: shared types and Rust's string primitives. `Seal`, `SealBytes`, `SealFile`: the chain as records, as hashed bytes and
as a text file. `IssueFile`, `IssueStore`: the issue format and its directory. `World`, `DriverState`, `DriverSteps`, `DriverSpec`, `Driver`,
`Runs`: the environment, the invariants, one lemma per kind of step, what steps write and hear, the actor, whole runs. `Compose`, `Prompts`: prompts and how they are stored.
`ShellQuote`, `Envelope`, `DashC`, `Nesting`, `SbplText`, `Sbpl`, `SbplProfile`: as named.

## Model

| member | source | states |
|---|---|---|
| Runs.RunActor | crates/orkia-dispatch-proxy/src/run.rs:970-996 | For any sequence of responses, verdicts and aborts, in new and resumed runs: the actor ends early only on a stop of the kernel's (a paused, aborted or failed plan, or a drained round that closes), an error or an abort, and then the run's file holds that reason unless it could not be read or written; otherwise every message was handled, the run is open and every released task is reported, or has its job running (routed to it unless two issues were found with one job) or its oracle in flight; the kernel hears at most one outcome per task and round; a task with an oracle that is vouched for by what was found, or that a round has started over, is reported done only on a passing verdict for the attempt reported, sealed in the round that started it over last, otherwise in this actor's life, unless it was verified before; every job's attempt stays below its task's limit, and jobs are bounded per task, per round and in all; a retry answers a failing verdict sealed in its own round; before the first re-plan only unstarted tasks are started and settled ones are reported as they were settled; a task a round starts over is spawned before it is reported; no job of a new run is heard twice; every answered task stores the text heard from its job (in a resumed run, if the actor started or heard the job); consecutive re-plans never share a failure signature; at every disk state on the way, cuts inside appends included, the seal file is unreadable or the issues are anchored in it, its records only grew and verify, and a closing reason stays; and a reader gets the records exactly when the found file and the extents of the appends leave decodable lines and the file is within the cap. |
| Runs.Drive | crates/orkia-dispatch-proxy/src/run.rs:970-996 | Each message leads from one state to the next as its kind says, or ends the run; the loop ends before the last message only on a stop of the kernel's, an error or an abort, and then the run is closed; it keeps `Safe` always and `Live` whenever it goes on. |
| Runs.Handle | crates/orkia-dispatch-proxy/src/run.rs:983-995 | A routed response is heard, and a finished task with an oracle is then judged while any other outcome is reported; a passing verdict and the last failing one are reported, any other starts exactly one job at the next attempt with a self-repair prompt; other responses and verdicts change nothing; an abort ends the run. |
| Runs.Lifetime | crates/orkia-dispatch-proxy/src/lib.rs:196-298 | A run crashed at any point, inside an append too, and resumed any number of times with any messages: every actor kept the promises of `Runs.RunActor`; while the lines of the seal file decode, its records only grew and verify, and each planned issue that is Done, Verifying, Verified or Rejected is anchored in them, also when opening the run stops halfway. On undecodable lines nothing is claimed. |
| Runs.LifetimeOf | crates/orkia-dispatch-proxy/src/lib.rs:343-390 | The same for the configuration a request is launched with, in the request's own terms: an oracle runs only for a task with an acceptance command, with exactly that command (the last entry of a repeated id); the integration command is the request's; a round starts at most one job for a task without an oracle or a limit and at most max(limit, 1) otherwise; re-plans stay within the limit; with distinct ids all rounds start at most (re-plans + 1) times the sum of the limits. |
| Runs.LifeKeepsToRequest | crates/orkia-dispatch-proxy/src/lib.rs:343-390 | Every life that keeps its promises under a request's configuration keeps to the request's commands and limits. |
| Runs.AcceptSpecsMean | crates/orkia-dispatch-proxy/src/lib.rs:352-368 | A task has an oracle exactly if an entry of it has an acceptance command; the last such entry gives the command and the attempts. |
| Runs.BudgetIsLimitIffFits | crates/orkia-dispatch-proxy/src/lib.rs:358-363 | With distinct ids the jobs a round may spend on a task never exceed its limit (one without an oracle or a limit), and equal it exactly when there is none or it is below 2^32. |
| Runs.ConfigOfRequest | crates/orkia-dispatch-proxy/src/lib.rs:369-385 | The actor has the request's plan and integration command, and its re-plan limit exactly when that is below 2^32. |
| Runs.SameSignatureIffSameOutput | crates/orkia-dispatch-proxy/src/run.rs:904-909 | Two integration failures count as unchanged exactly if their trimmed outputs agree, for a digest without collisions. |
| Runs.HeardTextIsStored | crates/orkia-dispatch-proxy/src/run.rs:583-637 | Every Done, Verifying, Verified or Rejected issue of a new run, and of a job that a resumed actor started or heard, stores the trimmed text of the response heard for its job, or nothing if that is blank, under a title without a marker. |
| Runs.DependentHoldsHeardText | crates/orkia-dispatch-proxy/src/run.rs:295-332 | The prompt a task is started with holds, for each such dependency, that text in a block under the names of its agent and task, in front of the rule and the body. |
| Runs.NewRunIsSeparate | crates/orkia-dispatch-proxy/src/lib.rs:303-340 | In a new run no two planned issues name one job. |
| Runs.SharedJobOrphans | crates/orkia-dispatch-proxy/src/run.rs:341-352 | For every state: adopting one job for two tasks leaves, after its response, no route to the first of them, whose issue still names the job. |
| Runs.Afterlives | crates/orkia-dispatch-proxy/src/lib.rs:239-298 | The same from any disk whose file is unreadable or anchors the plan, over any number of resumes and crashes. |
| Runs.Crash | crates/orkia-dispatch-proxy/src/run.rs:583-637 | Whatever durable state a crash leaves, between a seal append and an issue write or inside the append, its file is unreadable or verifies, only grew and anchors the plan. |
| Runs.SealingSurvivesIffLineEnded | crates/orkia-dispatch-proxy/src/seal.rs:408-456 | In every reachable state of an actor that has sealed, each line to its end, reading the file gives the records exactly when the text it found ends in a newline and the present text is within the cap. |
| Runs.AppendIsOperation | crates/orkia-dispatch-proxy/src/seal.rs:408-456 | Under a request's configuration the text after any seal operation on a readable file, cut anywhere, shows the actor's state after its append, and the operation succeeds exactly when the whole line was written and synced. |
| Runs.CrashCanLoseNewline | crates/orkia-dispatch-proxy/src/seal.rs:442-456 | Among the durable states of any append to whole lines is one with every record readable and the last line unended. |
| Runs.ResumeKeepsChainIffRoom | crates/orkia-dispatch-proxy/src/run.rs:341-346 | For every plan and captured response over a readable file: the resumed actor seals, the issue is Done and names the record, the kernel hears it, and the file can be read afterwards exactly when it ended in a newline and the line keeps it within the cap. |
| Runs.ResumeCanLoseChain | crates/orkia-dispatch-proxy/src/run.rs:341-346 | It cannot be read afterwards if it was unended, or at the cap. |
| Runs.MisnamedFileLosesAnchor | crates/orkia-dispatch-proxy/src/run.rs:583-637 | If the issue file of one task names another in its metadata, folding in a response writes the other's file as Done on a record that is not its own. |
| Runs.UnvouchedIsReportedUnverified | crates/orkia-dispatch-proxy/src/run.rs:274-277 | The converse of "verified before done": for every task with an oracle that is not vouched for and every chain without a passing verdict for it, a resume reports it done without one. |
| Runs.NewRunIsVouched | crates/orkia-dispatch-proxy/src/lib.rs:303-340 | Every planned task of a new run is vouched for, and none was verified before. |
| Runs.StartRun | crates/orkia-dispatch-proxy/src/lib.rs:196-228 | An actor is started exactly if the kernel authorized the plan and every write succeeded; it begins live on the kernel's first wave, under its run id, on one Pending issue per planned task, with the old chain untouched; a start that fails leaves an anchored plan anchored. |
| Runs.ResumeRun | crates/orkia-dispatch-proxy/src/lib.rs:239-298 | Exactly an open run that the kernel authorizes again and whose file can be written is resumed, on the kernel's first wave, with the issues, the chain and the start time as found. |
| Runs.OpenRun | crates/orkia-dispatch-proxy/src/lib.rs:303-340 | The issues after opening are those of the plan over the old ones; a failing write leaves a prefix of that. |
| Runs.OpenedMeans | crates/orkia-dispatch-proxy/src/lib.rs:319-337 | Opening leaves every planned task Pending at attempt 0 with no job, response hash, seal or verdict seal, and every other issue as it was. |
| Runs.PartlyOpened | crates/orkia-dispatch-proxy/src/lib.rs:303-340 | Opening stopped after any number of issues keeps an anchored plan anchored. |
| Runs.SafeKeepsPromises | crates/orkia-dispatch-proxy/src/run.rs:397-682 | The safety invariant implies every promise about reports and jobs, including where each verdict lies and the total job bound. |
| Runs.SafeKeepsDurable | crates/orkia-dispatch-proxy/src/run.rs:583-637 | The safety invariant implies that every past disk state has an unreadable seal file or is anchored in one that verifies and lies between the first and the present chain. |
| Runs.JobLinesNameTheirTask | crates/orkia-dispatch-proxy/src/run.rs:295-332 | In every reachable state each started job's command line splits into ten words naming the run's RFC, the job's own task, its agent and the project. |
| Runs.ReplanClearsIffTitleFree | crates/orkia-dispatch-proxy/src/run.rs:837-849 | On disk, a re-plan leaves a named issue with its prompt and no response, however often it is named, exactly when its title holds no marker; other issues are untouched. |
| DispatchDriver.Driver.constructor | crates/orkia-dispatch-proxy/src/run.rs:201-225 | A new actor satisfies both invariants for the kernel's first wave, and nothing has happened yet. |
| DispatchDriver.Driver.ProcessWave | crates/orkia-dispatch-proxy/src/run.rs:232-242 | Goes on exactly with the wave and every plan released meanwhile processed, in that order; stops only on a reply of the kernel's after which the run is closed, and fails only on a failure it heard. Terminates for every kernel that meets its contract, by (re-plans left, tasks unreleased this round, queue length), even when fast-forwarding drains the plan and re-plans inside; keeps both invariants, and nothing that happened is forgotten. |
| DispatchDriver.Driver.ProcessOne | crates/orkia-dispatch-proxy/src/run.rs:247-288 | An absent or Pending task is spawned with its dependencies' stored responses in its prompt; a settled one is reported exactly as settled, with no verdict sealed on the way; one being verified goes back to its oracle; one that was running is adopted or reported. Nothing else is spawned. |
| DispatchDriver.Driver.SpawnOne | crates/orkia-dispatch-proxy/src/run.rs:295-332 | The new state: one fresh job at attempt 0, its issue Spawned with that job and the composed prompt, the job routed to its task; a failure is one that was heard. |
| DispatchDriver.Driver.DepContexts | crates/orkia-dispatch-proxy/src/run.rs:375-393 | One context per dependency in order, with the stored agent and response; it fails only on a failed read or a dependency without a stored response. |
| DispatchDriver.Driver.ReconcileSpawned | crates/orkia-dispatch-proxy/src/run.rs:341-361 | A task spawned before a restart: exactly the outcome of its captured response is reported, also if the job still runs; otherwise a live job is adopted under its recorded id; otherwise the task is reported lost; no job is started and no verdict sealed. |
| DispatchDriver.Driver.ReconcileVerifying | crates/orkia-dispatch-proxy/src/run.rs:260-272 | A task under verification goes back to its oracle at its attempt, or is reported done when its oracle is gone. |
| DispatchDriver.Driver.Recover | crates/orkia-dispatch-proxy/src/run.rs:341-346 | A response captured before the restart is folded in and exactly its outcome is reported. |
| DispatchDriver.Driver.FailLost | crates/orkia-dispatch-proxy/src/run.rs:352-361 | A lost job's task is stored as failed and then reported failed, once. |
| DispatchDriver.Driver.OnResponse | crates/orkia-dispatch-proxy/src/run.rs:397-405 | A response for a job that is not routed changes nothing; any other is heard, and judged or reported; the run ends only as the kernel's reply or an error says, and is then closed. |
| DispatchDriver.Driver.RouteResponse | crates/orkia-dispatch-proxy/src/run.rs:397-400 | The job's route is removed, so a second response for it finds none. |
| DispatchDriver.Driver.HandleResponse | crates/orkia-dispatch-proxy/src/run.rs:407-422 | A finished task with an oracle is sealed, marked Verifying and given to its oracle without a word to the kernel; otherwise the kernel hears its outcome first. |
| DispatchDriver.Driver.Absorb | crates/orkia-dispatch-proxy/src/run.rs:583-637 | The output is sealed, with the task's agent, hash and path, before the issue claims it, and the issue names that record, its hash and the text of the response; without a response file the issue is Failed with the preview and nothing is sealed. |
| DispatchDriver.Driver.Append | crates/orkia-dispatch-proxy/src/seal.rs:442-456 | An append reaches the file as nothing, a torn line, a line without its newline or a full line; each durable state on the way is recorded, and success means a full line. |
| DispatchDriver.Driver.SealOutput | crates/orkia-dispatch-proxy/src/seal.rs:201-235 | On an unreadable file the operation fails without a trace; success returns the hash of the record it appended onto the tip it read. |
| DispatchDriver.Driver.LaunchOracle | crates/orkia-dispatch-proxy/src/run.rs:448-470 | The issue is Verifying on disk before the oracle for its attempt starts, with the configured command. |
| DispatchDriver.Driver.OnVerdict | crates/orkia-dispatch-proxy/src/run.rs:476-486 | A stale verdict that lets the actor go on has changed nothing; a current one is reported, or answered by exactly one job with a self-repair prompt; the run ends only as the kernel's reply or an error says, and is then closed. |
| DispatchDriver.Driver.HandleVerdict | crates/orkia-dispatch-proxy/src/run.rs:488-541 | A stale verdict changes nothing. A current one is sealed; on a pass the Verified issue is stored and then reported done, a failure with attempts left becomes exactly one new job at the next attempt and no report, on the last failure the Rejected issue is stored and then reported failed with its command, count and exit code. |
| DispatchDriver.Driver.RetryTask | crates/orkia-dispatch-proxy/src/run.rs:546-578 | The new state: one fresh job at the next attempt, the issue Spawned with the self-repair prompt, no response and no response hash. |
| DispatchDriver.ComposeRetryBody | crates/orkia-dispatch-proxy/src/run.rs:914-928 | The text put together for a retry is the self-repair prompt. |
| DriverSpec.RetryBodyReads | crates/orkia-dispatch-proxy/src/run.rs:914-928 | That prompt is the old prompt, and behind it "Attempt" with the numeral of the attempt, the command in backquotes, the output between two fences, and the command in backquotes again. |
| DriverSpec.DecimalMeans | crates/orkia-dispatch-proxy/src/run.rs:914-928 | The numerals have no leading zero and the value they are written for. |
| DispatchDriver.Driver.Settle | crates/orkia-dispatch-proxy/src/run.rs:517-540 | The first new durable state holds the judged issue, and only then the kernel hears the matching outcome. |
| DispatchDriver.Driver.Advance | crates/orkia-dispatch-proxy/src/run.rs:651-682 | Exactly one report is sent and no job started; the next wave, or the wave of a new round after a drained one, comes back as the kernel gave it and with progress in the termination measure; the run stops only on a paused, aborted or failed plan or a drained round that closes, with that reason; it fails only if the kernel could not be reached. |
| DispatchDriver.Driver.Tell | crates/orkia-dispatch-proxy/src/run.rs:651-660 | One report with the issue's attempt; `Completed` means that nothing is queued, in hand, running or judged. |
| DispatchDriver.Driver.FinalizeRound | crates/orkia-dispatch-proxy/src/run.rs:695-734 | Without an integration command the run completes. Otherwise it is judged by that command, the verdict sealed, and: a pass converges; a failure without rounds left, or the same as the last one, closes the run; any other failure asks the kernel exactly once, with the round and the output, and its answer decides: another round with exactly the kernel's wave, having reset exactly what was re-opened, or a closing reason that carries the kernel's refusal or the failed step. What was decided is sealed. |
| DispatchDriver.Driver.ReplanRound | crates/orkia-dispatch-proxy/src/run.rs:753-799 | The kernel is asked once. A re-plan starts its wave unless a reset read or write failed; without an answer the plan is authorized exactly once, and an authorization starts its first wave under the new run id unless a reset failed; a new round has reset exactly the re-opened tasks (every planned task in the fallback); every other answer closes the run with its reason; nothing is reported or spawned. |
| DispatchDriver.Driver.ReopenTargeted | crates/orkia-dispatch-proxy/src/run.rs:761-780 | The kernel's wave is driven after resetting everything it re-opened; only a failed reset read or write closes the run. |
| DispatchDriver.Driver.RerunAll | crates/orkia-dispatch-proxy/src/run.rs:806-833 | The plan is authorized once; an authorization resets every planned task and drives the first wave under the new run id, and only a refusal, a failed call or a failed reset closes the run, with that reason. |
| DispatchDriver.Driver.ResetIssues | crates/orkia-dispatch-proxy/src/run.rs:837-849 | The loop computes the reset of the named issues, fails only on a failed read or write, and keeps every disk state on the way anchored. |
| DispatchDriver.Driver.CloseRun | crates/orkia-dispatch-proxy/src/run.rs:870-887 | A closing reason is stamped at most once and never replaced; an open run is closed with it unless its file could not be read or written. |
| DriverSteps.ResetAllMeans | crates/orkia-dispatch-proxy/src/run.rs:837-849 | Exactly the named stored issues become Pending at attempt 0 with no job, response hash or seals; all others are unchanged. |
| DriverSteps.RoundLive | crates/orkia-dispatch-proxy/src/run.rs:753-799 | A drained run whose named issues were reset is live in its next round. |
| DriverSteps.DrainedIsIdle | crates/orkia-dispatch-proxy/src/run.rs:660-667 | When everything released is reported, no job is routed, no oracle is in flight and the queue is empty. |
| DriverSteps.WaveShrinks | crates/orkia-dispatch-proxy/src/run.rs:651-660 | A non-empty wave leaves strictly fewer tasks to release. |
| DriverState.PutSafe | crates/orkia-dispatch-proxy/src/seal.rs:442-456 | Wherever an append stops, the invariant holds and every disk state on the way is unreadable or anchored. |
| DriverState.JobsBounded | crates/orkia-dispatch-proxy/src/run.rs:525-577 | One actor starts at most (max_replans + 1) times the sum of its tasks' attempts, with one attempt for a task without an oracle. |
| DriverState.NothingIsOrphaned | crates/orkia-dispatch-proxy/src/run.rs:397-434 | Between messages every released, unreported task has its job running, routed to it unless two issues were found with one job, or an oracle in flight. |
| DriverState.RoutesAreExact | crates/orkia-dispatch-proxy/src/run.rs:295-361 | A route names the job of a Spawned issue; unless two issues were found with one job, the Spawned issues of released, unreported tasks, and all of a new run, are routed. |
| Seal.Verify | crates/orkia-dispatch-proxy/src/seal.rs:362-404 | The walk along the links accepts exactly the chains in which every record points at its predecessor and hashes to its own hash. |
| Seal.AppendKeepsVerified | crates/orkia-dispatch-proxy/src/seal.rs:201-342 | A record sealed onto the tip keeps a verified chain verified and becomes its tip. |
| Seal.PrefixVerifies | crates/orkia-dispatch-proxy/src/seal.rs:362-404 | Every prefix of a verified chain verifies. |
| Seal.ViewAfterNext | crates/orkia-dispatch-proxy/src/seal.rs:442-456 | Over any sequence of appends the file is readable exactly when it was found readable and either nothing reached it, or it was found with whole lines, every append but the last was complete and the last was not torn. |
| SealBytes.HashedBytes | crates/orkia-dispatch-proxy/src/seal.rs:113-176 | What is hashed for each kind: the previous hash, the kind's tag and the fields in their order, unseparated. |
| SealBytes.FourBytes | crates/orkia-dispatch-proxy/src/seal.rs:126-176 | Numbers are hashed as four bytes, the lowest first, negative ones in two's complement. |
| SealBytes.TipPinsChain | crates/orkia-dispatch-proxy/src/seal.rs:113-176 | Two verified chains with one tip have one length and equal hashed bytes at every position, if the digest has no collision among their bytes and never gives the genesis hash (SHA-256, section 6.2 of FIPS 180-4). |
| SealBytes.TipPinsGlobalVerdicts | crates/orkia-dispatch-proxy/src/seal.rs:148-165 | Hence every GlobalVerdict stands in both with equal round, exit code and passed flag. |
| SealBytes.OutputFieldsCanShift | crates/orkia-dispatch-proxy/src/seal.rs:113-122 | For every chain: text moved from the task id to the response hash, and any other agent, give the same tip. |
| SealBytes.OutputFieldsPinnedIffWidths | crates/orkia-dispatch-proxy/src/seal.rs:113-122 | Equal hashed bytes bind an output's task id, response hash, path and time exactly when the encoded widths of the first three agree. |
| SealBytes.RegularOutputsPinned | crates/orkia-dispatch-proxy/src/seal.rs:113-122 | Equal hashed bytes bind all fields of outputs that have no slash before an absolute path and a response hash and time of fixed width. |
| SealBytes.Utf8Injective | crates/orkia-dispatch-proxy/src/seal.rs:113-122 | Strings with equal bytes are equal. |
| SealBytes.VerdictPinnedIffTaskWidths | crates/orkia-dispatch-proxy/src/seal.rs:126-145 | Equal hashed bytes bind a task verdict's task, attempt, exit code and flag exactly when the task ids have one encoded width. |
| SealBytes.VerdictCanFlip | crates/orkia-dispatch-proxy/src/seal.rs:126-145 | For every digest, chain and task: a failing and a passing verdict with one tip. |
| SealBytes.RegularVerdictsPinned | crates/orkia-dispatch-proxy/src/seal.rs:126-145 | Equal hashed bytes bind task, attempt, exit code and flag of verdicts whose task ids hold no control character and whose attempts are below 32. |
| SealBytes.ReplanDecisionPinned | crates/orkia-dispatch-proxy/src/seal.rs:168-176 | Equal hashed bytes bind a re-plan decision's round, and its text and time exactly when the texts have one encoded width. |
| SealBytes.ShaIgnoresHash | crates/orkia-dispatch-proxy/src/seal.rs:113-176 | No kind of record hashes its own hash field. |
| SealFile.OpRefinesNext | crates/orkia-dispatch-proxy/src/seal.rs:442-456 | Each seal operation, cut after any character, acts on the file as a small transition acts on what it shows, and reports success exactly when the whole line was written and synced. |
| SealFile.HistoryKeepsReachable | crates/orkia-dispatch-proxy/src/seal.rs:201-342 | Any mix of the four operations, each cut anywhere, leaves a file whose readable records verify and extend the earlier ones. |
| SealFile.VerifyReachable | crates/orkia-dispatch-proxy/src/seal.rs:362-404 | On such a file `verify` says yes exactly when it is readable and within the cap, and never says no. |
| SealFile.RecordsIffReadable | crates/orkia-dispatch-proxy/src/seal.rs:345-360 | Reading gives the records exactly when the lines decode and the file is within the cap. |
| SealFile.SuccessIsReadableIffLineEnded | crates/orkia-dispatch-proxy/src/seal.rs:408-456 | After a successful operation the chain reads, verifies and ends in the returned hash exactly when the file ended in a newline before it and stays within the cap. |
| SealFile.SuccessBehindUnended | crates/orkia-dispatch-proxy/src/seal.rs:442-456 | Behind an unended line every operation that succeeds makes the file unreadable, and each one can succeed. |
| SealFile.LostNewlineBreaksChain | crates/orkia-dispatch-proxy/src/seal.rs:442-456 | For every chain and every two records, losing one newline makes the next successful append leave an unreadable chain. |
| SealFile.DispatchSeal.SealDraft | crates/orkia-dispatch-proxy/src/seal.rs:201-235 | The shared body of the four operations: the file stays reachable, grows while readable, and a success on whole lines appends exactly the sealed record. |
| SealFile.DispatchSeal.SealOutput | crates/orkia-dispatch-proxy/src/seal.rs:201-235 | The output operation keeps the file's invariant; over whole lines success appends its record and returns that record's hash. |
| SealFile.DispatchSeal.SealVerdict | crates/orkia-dispatch-proxy/src/seal.rs:238-277 | The verdict operation likewise. |
| SealFile.DispatchSeal.SealGlobalVerdict | crates/orkia-dispatch-proxy/src/seal.rs:282-312 | The integration verdict likewise. |
| SealFile.DispatchSeal.SealReplanDecision | crates/orkia-dispatch-proxy/src/seal.rs:316-342 | The re-plan decision likewise. |
| SealFile.DispatchSeal.VerifyChain | crates/orkia-dispatch-proxy/src/seal.rs:362-404 | The verifier over the file says yes exactly when it is readable, and never no. |
| IssueFile.WriteMeansNormalizedIffMarkersFree | crates/orkia-dispatch-proxy/src/issues.rs:241-290 | An issue reads back as its metadata, trimmed prompt and trimmed response (absent if empty) exactly when its title holds no marker and its prompt no response marker, for every response. |
| IssueFile.ParseRendered | crates/orkia-dispatch-proxy/src/issues.rs:241-277 | Parsing a printed issue never fails and gives the metadata exactly, whatever the texts hold. |
| IssueFile.RenderReads | crates/orkia-dispatch-proxy/src/issues.rs:241-250 | The file is the delimited frontmatter, the title as a heading, and the prompt and the response behind their markers. |
| IssueFile.RereadTwice | crates/orkia-dispatch-proxy/src/issues.rs:241-290 | Writing what was read changes nothing exactly when the title holds no marker. |
| IssueFile.RereadIsNormal | crates/orkia-dispatch-proxy/src/issues.rs:253-290 | What is read has trimmed texts, no response marker in its prompt and no blank response, whatever was written. |
| IssueFile.MarkedTitle | crates/orkia-dispatch-proxy/src/issues.rs:241-290 | A marker in the title adds a response, or makes the prompt longer, each time an issue without a response is written. |
| IssueFile.RewriteKeepsPrompt | crates/orkia-dispatch-proxy/src/issues.rs:253-290 | Under a title without a marker, a step that reads an issue and writes it back with other metadata and response keeps the prompt, and stores a response exactly when it is not blank. |
| IssueFile.ResponseReadBack | crates/orkia-dispatch-proxy/src/issues.rs:282-290 | The response section reads back as the trimmed response exactly when no response marker precedes it. |
| IssueFile.PromptReadBack | crates/orkia-dispatch-proxy/src/issues.rs:282-290 | The prompt section reads back as the trimmed prompt. |
| IssueFile.PromptLosesMarker | crates/orkia-dispatch-proxy/src/issues.rs:282-290 | The prompt that is read is trimmed and free of the response marker, whatever was written. |
| IssueStore.StoppedWriteIsAtomic | crates/orkia-dispatch-proxy/src/issues.rs:294-305 | Wherever a write stops, each id reads as its complete old text or its complete new one. |
| IssueStore.WritesAreAtomic | crates/orkia-dispatch-proxy/src/issues.rs:170-205 | Any sequence of writes, each stopped anywhere: the directory reads and lists as a map in which exactly the completed writes happened. |
| IssueStore.ListedIffReadable | crates/orkia-dispatch-proxy/src/issues.rs:188-237 | Among ids of one path component, a scan lists exactly the readable ones other than the empty one, and never a temporary file. |
| IssueStore.StoreWriteRefinesMap | crates/orkia-dispatch-proxy/src/issues.rs:170-186 | A stopped write of an issue is the actor's abstract store write, or nothing. |
| IssueStore.Directory.AtomicWrite | crates/orkia-dispatch-proxy/src/issues.rs:294-305 | Every directory state the writer passes through is a stopped write, success is a completed one and failure is not. |
| Compose.ComposeBody | crates/orkia-dispatch-proxy/src/compose.rs:30-46 | The loop computes the composed prompt. |
| Compose.BlockReads | crates/orkia-dispatch-proxy/src/compose.rs:30-46 | A dependency's block names its agent and its task and then holds its response without trailing blanks. |
| Compose.PromptHoldsDependency | crates/orkia-dispatch-proxy/src/compose.rs:30-46 | Each dependency's block stands in its place in the prompt, and the body comes last. |
| Prompts.StartedPromptStoredIffUnmarked | crates/orkia-dispatch-proxy/src/run.rs:295-332 | A started task is stored with its composed prompt, trimmed, and no response, exactly when its title holds no marker and neither its body nor any dependency's agent, id or response holds the response marker. |
| Prompts.MarkedResponseSpoilsDependent | crates/orkia-dispatch-proxy/src/run.rs:295-332 | If a dependency is marked, the stored prompt is cut before the marker and the issue has a response that nobody gave. |
| Prompts.RetryPromptStoredIffUnmarked | crates/orkia-dispatch-proxy/src/run.rs:546-578 | A retried task is stored with the self-repair prompt, trimmed, exactly when its title holds no marker and neither prompt, command nor output holds the response marker. |
| Prompts.ComposedMarked | crates/orkia-dispatch-proxy/src/compose.rs:30-46 | A composed prompt holds the response marker exactly when the body or something of a dependency does; the fixed phrases never complete one. |
| ShellQuote.CommandLineSplits | crates/orkia-dispatch-proxy/src/spawn.rs:26-48 | A word splitter after sections 2.2.1 and 2.2.2 of XCU in POSIX.1-2017 turns the command line back into its ten words, for all arguments. |
| ShellQuote.CommandLineInjective | crates/orkia-dispatch-proxy/src/spawn.rs:26-48 | Equal command lines have equal RFC, task, agent and project. |
| ShellQuote.QuotedIsOneWord | crates/orkia-dispatch-proxy/src/spawn.rs:39-48 | A quoted argument is one word, whatever it holds and whatever follows. |
| Envelope.UnwrapEval | bins/orkia-sh/src/decide.rs:60-81 | The loop decodes the text behind the first marker up to its closing quote, or finds none. |
| Envelope.ExtractCommand | bins/orkia-sh/src/decide.rs:46-55 | A payload without the marker is its trimmed self; one with it is decoded or unparseable. |
| Envelope.ExtractInvertsQuoting | bins/orkia-sh/src/decide.rs:46-81 | Behind a prefix without the marker every command, escaped as the shell printer escapes it, is recovered exactly when the suffix does not continue an escaped quote. |
| DashC.HasUnquotedAgentCommand | bins/orkia/src/dash_c.rs:153-196 | The loop over four flags computes the scanner's answer. |
| DashC.FirstMarkDecides | bins/orkia/src/dash_c.rs:153-196 | The answer is yes exactly when the first unquoted, unescaped `@` at command position is followed by a name. |
| DashC.AnyAgentIffNotShadowed | bins/orkia/src/dash_c.rs:117-124 | It agrees with "some position that the scanner takes for the start of a command has an agent name" exactly when no bare `@` comes first. |
| DashC.BareMarkShadows | bins/orkia/src/dash_c.rs:190-192 | A payload in which a bare `@` hides an agent. |
| DashC.QuotedContentsIrrelevant | bins/orkia/src/dash_c.rs:159-181 | Replacing the contents of any quoted region does not change the answer. |
| DashC.QuotedRegionInvisible | bins/orkia/src/dash_c.rs:159-181 | Neither does dropping the region, unless an `@` stands right in front of it. |
| DashC.QuotedCommandKeepsPosition | bins/orkia/src/dash_c.rs:179-193 | After any quoted command name its first argument counts as command position. |
| DashC.ScannerMissesIffNewline | bins/orkia/src/dash_c.rs:117-196 | An unquoted `@` that starts a command of a shell list is missed exactly when an unquoted word character stands between the last separator and the newline in front of it. |
| DashC.NewlineHidesAgent | bins/orkia/src/dash_c.rs:182-193 | For every plain word and agent name: the name on the next line starts a command, and the scanner does not see it. |
| DashC.ScannerErrsIffQuoted | bins/orkia/src/dash_c.rs:159-193 | An `@` that the scanner takes for the start of a command is none exactly when a quoted or escaped character stands between it and the last separator or newline. |
| DashC.QuotedLineIsSeen | bins/orkia/src/dash_c.rs:159-193 | Behind a line that is one quoted word the scanner sees the agent on the next line. |
| DashC.AtCommandMeans | bins/orkia/src/dash_c.rs:159-193 | The scanner's flag says that no unquoted word character stands behind the last unquoted separator. |
| DashC.NeedsReplPipeline | bins/orkia/src/dash_c.rs:121-124 | Trimming does not matter to the scanner: the decision is the builtin test on the trimmed text or the answer on the whole text. |
| DashC.RoutingIgnoresQuotedContents | bins/orkia/src/dash_c.rs:121-204 | The contents of a quoted region never change where a payload is routed. |
| Nesting.ComputeNestingDepth | crates/orkia-difficulty-scorer/src/structural.rs:127-143 | The clamped counter computes the maximum, over all substrings, of openers minus closers. |
| Nesting.ComputeParenDepth | crates/orkia-difficulty-scorer/src/structural.rs:145-161 | The same for round brackets alone. |
| SbplText.EscapeSbpl | bins/orkia-cage/src/sbpl.rs:51-63 | The loop computes the quoted literal. |
| SbplText.ReadEscaped | bins/orkia-cage/src/sbpl.rs:51-63 | Reading an escaped literal gives the text and the remainder, for every text. |
| SbplText.ReadFormsExact | bins/orkia-cage/src/sbpl.rs:80-87 | The reader finds a list of forms in exactly that list's tokens. |
| SbplText.LexOn | bins/orkia-cage/src/sbpl.rs:91-95 | Any text in front of a profile adds its own tokens in front of the profile's, or leaves a literal open that swallows the profile up to its first quote. |
| Sbpl.ProfileMeansGranted | bins/orkia-cage/src/sbpl.rs:80-249 | With the last matching rule winning, the rules permit an access exactly when the spec grants it, for every operation and lists of any length: creation and removal under a read-write root or the writable workspace and under no write-denied root; data writes there and to devices; reads, metadata, ioctl and exec likewise; signals, process information and task ports exactly within the sandbox; lookups of exactly the eight services; network, forking and the listed system operations always; every other operation never. |
| SbplProfile.BuildProfile | bins/orkia-cage/src/sbpl.rs:80-87 | The text that is written, read back and evaluated, grants exactly what the spec grants, for every operation, file, target and service and every tag whose later lines hold no token. |
| SbplProfile.DenialsAreTagged | bins/orkia-cage/src/sbpl.rs:80-249 | Every denial carries the log tag as its message. |
| SbplProfile.TextMeansGranted | bins/orkia-cage/src/sbpl.rs:80-249 | The same as a statement about the text alone. |
| SbplProfile.ReadsBackIffTagIsSilent | bins/orkia-cage/src/sbpl.rs:91-95 | For every tag, the text reads back as the rules exactly when the tag's later lines hold no token. |
| SbplProfile.TagFormIsRule | bins/orkia-cage/src/sbpl.rs:91-95 | A form on the tag's second line is read as a rule between the head and the rest. |
| SbplProfile.DefaultTagPermits | bins/orkia-cage/src/sbpl.rs:91-95 | With `(allow default)` there, exactly the accesses that no denial names are permitted. |
| SbplProfile.TagCanUndoProfile | bins/orkia-cage/src/sbpl.rs:91-95 | A spec, a tag and a write that the spec refuses and the text permits. |
| SbplProfile.EmitPreamble | bins/orkia-cage/src/sbpl.rs:91-155 | The preamble's lines, with the name list spread over several. |
| SbplProfile.EmitReadRules | bins/orkia-cage/src/sbpl.rs:177-203 | The read section's lines. |
| SbplProfile.EmitWriteRules | bins/orkia-cage/src/sbpl.rs:213-249 | The write section's lines, denials last. |
| SbplProfile.MandatoryWritesDenied | bins/orkia-cage/src/sbpl.rs:67-72 | Nothing at or below `.git/hooks`, `.git/config`, `.env` or `.mcp.json` of the workspace is written, whatever else the spec says, and reading is as without the denials. |

## Left out

- Kernel, spawner, daemon and final-response internals: only their contracts are used. That a released task's dependencies were reported is not needed; `dep_contexts` fails closed instead.
- Running oracles, `tail_of`, reading response files, clocks: arbitrary results.
- `resolve_tasks`, `plan_hash`, `title_from_body`: the resolved plan and the titles are inputs.
- `abort_kernel` and `notify_kernel_converged`: best-effort calls whose answers are ignored.
- Sizes and elapsed times of task outputs; the texts of I/O errors. That a response and the job list are asked for one after the other is not modelled: `PollJob` draws both answers at once.
- TOML and JSON: an encoder of metadata without a delimiter line inside, and of records as one line each that decode back and whose proper prefixes and extensions do not decode. `\r` before a newline is not modelled.
- SHA-256: an abstract digest, free of collisions only where a lemma says so.
- DispatchDriver.Driver.RetryTask: the attempt counter stays below the 32-bit limit because it stays below `max_attempts`; a resumed issue recorded at the last 32-bit attempt is outside the model.
- Runs.ResumeRun: expects each planned issue file to carry its own id, as every disk state of this program does (`Runs.PlanAnchored` says so and `Runs.Crash` proves it); for a file renamed or edited by hand the results fail (`Runs.MisnamedFileLosesAnchor`).
- DashC.ScannerMissesIffNewline: a command of a list starts behind `|`, `;`, `&`, `(` or a newline. Reserved words, assignments, redirections, `{`, backquotes, comments and here-documents, which also open or close command positions in a shell, are not modelled, and a line continuation counts as an escaped character.
- IssueStore.ListedIffReadable: ids are single path components. An id with a slash in it, which the source does not reject, names a file elsewhere or the same file twice.
- SealFile.VerifyReachable: the 4 MiB cap counts characters where the source counts bytes, and an append is cut between characters, not inside a multi-byte one.
- Nesting.ComputeNestingDepth: for texts of fewer than 2^31 characters, the range of the counter.
- Paths in profiles are strings; path normalisation, symbolic links and the operating system's own rule semantics beyond operation patterns, path filters and the last match are not part of this model.
- `PlanResolver`, the scorer's weights and other counters, the daemon, the Linux cage, argument parsers, rendering and storage elsewhere in the repository: plumbing or one-branch facts.
