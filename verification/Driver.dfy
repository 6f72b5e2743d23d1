/** The run actor: one object owns all mutable state of a dispatch run and performs its steps. */
module DispatchDriver {
  import opened Wrappers
  import opened Seal
  import opened IssueFile
  import opened Compose
  import opened World
  import opened DriverState
  import opened DriverSteps
  import opened DriverSpec

  datatype Flow = GoOn | Finished

  datatype Step = Proceed | Cascade(more: seq<TaskPlan>) | Stop

  datatype Advanced = Wave(wave: seq<TaskPlan>) | Halt

  datatype FleetStep = Close(reason: string) | Rerun(wave: seq<TaskPlan>)

  function FirstOr(failed: seq<TaskId>, fallback: TaskId): TaskId {
    if failed == [] then fallback else failed[0]
  }

  /** The self-repair prompt of a retry. */
  method ComposeRetryBody(prompt: string, command: string, tail: string, attempt: nat) returns (body: string)
    ensures body == RetryBody(prompt, command, tail, attempt)
  {
    body := prompt + (("\n\n---\nAttempt " + Decimal(attempt) + (": the acceptance" + " check `")) + (command +
      ("` failed. Its output was:\n```\n" + (tail +
      ("\n```\nFix the underlying cause so `" + (command + "` passes, then stop."))))));
  }

  class Driver {
    const cfg: Config
    ghost const st: Start

    var issues: map<TaskId, Issue>
    var seal: File
    var run: Option<RunMeta>
    var runId: string
    var jobToTask: map<JobId, TaskId>
    var round: u32
    var lastFailSig: Option<string>
    var world: World

    ghost var chain: seq<Record>
    ghost var extents: seq<Extent>
    ghost var marks: seq<nat>
    ghost var place: map<TaskId, Place>
    ghost var sigs: seq<string>

    // what came back from outside, the records the actor has tried to seal, and how often the run's own file failed it
    ghost var log: seq<Event>
    ghost var tried: seq<Record>
    ghost var runFaults: nat

    /** An actor over what is on disk, with the kernel's first wave. */
    constructor (cfg: Config, ghost st: Start, issues: map<TaskId, Issue>, seal: File, run: RunMeta,
                 first: seq<TaskPlan>, used: set<JobId>)
      requires ConfigOk(cfg) && StartOk(cfg, st) && st.issues == issues && st.seal == seal
      requires Named(ToSet(cfg.tasks), issues) && Distinct(first) && Ids(first) <= ToSet(cfg.tasks)
      requires forall t :: t in issues && issues[t].meta.jobId.Some? ==> issues[t].meta.jobId.value in used
      requires run.closed.None?
      ensures this.cfg == cfg && this.st == st && IsLive(first, {}) && runId == run.runId
      ensures St() == FirstState(cfg, st, Some(run), first, used) && Fresh()
    {
      this.cfg, this.st := cfg, st;
      this.issues, this.seal, this.run, this.runId := issues, seal, Some(run), run.runId;
      jobToTask, round, lastFailSig := map[], 0, None;
      world := FirstWorld(cfg.tasks, issues, seal, Some(run), first, used);
      chain, extents, marks, sigs := st.chain, [], [|st.chain|], [];
      place := FirstState(cfg, st, Some(run), first, used).place;
      log, tried, runFaults := [], [], 0;
      new;
      FirstSafe(cfg, st, Some(run), first, used);
      FirstLive(cfg, st, Some(run), first, used);
    }

    ghost function St(): State
      reads this
    {
      State(issues, chain, seal, run, jobToTask, round, lastFailSig, world, place, sigs, marks, extents)
    }

    ghost predicate IsSafe()
      reads this
    {
      ConfigOk(cfg) && StartOk(cfg, st) && Safe(cfg, st, St()) && LogOk(cfg, log)
    }

    ghost predicate IsLive(q: seq<TaskPlan>, hand: set<TaskId>)
      reads this
    {
      IsSafe() && Live(cfg, st, St(), q, hand) && IsOpen()
    }

    /** The run has not been closed. */
    predicate IsOpen()
      reads this
    {
      run.Some? && run.value.closed.None?
    }

    /** The actor has closed its run, and the reason is in the run's file unless that could not be read or written. */
    ghost predicate IsShut()
      reads this
    {
      log != [] && log[|log| - 1].Closing? &&
      (runFaults == 0 ==> run.Some? && run.value.closed == Some(log[|log| - 1].reason))
    }

    /** Nothing has happened yet. */
    ghost predicate Fresh()
      reads this
    {
      log == [] && tried == [] && runFaults == 0
    }

    /** What has come back from outside since. */
    twostate function News(): seq<Event>
      reads this
      requires |old(log)| <= |log|
    {
      log[|old(log)|..]
    }

    ghost function Past(): History
      reads this
    {
      HistoryOf(St(), log, tried, runFaults)
    }

    /** A step failed, on what came back last; the run can still be closed. */
    twostate predicate FailedWith(new error: string)
      reads this
    {
      IsOpen() && |old(log)| < |log| && FailsAt(log, error)
    }

    /** The run ended on what has come back since, and was closed. */
    twostate predicate Ended()
      reads this
    {
      Halted(cfg, log, |old(log)|) && IsShut()
    }

    /** The kernel's reply to a report of `t`, the only one since, led to more work or to the end of the run. */
    twostate predicate RuledOn(new t: TaskId, new wave: Option<seq<TaskPlan>>)
      reads this
    {
      old(log) <= log && Ruled(cfg, t, News(), wave) && (wave.None? ==> IsShut())
    }

    /** Nothing that happened is forgotten. */
    twostate predicate Extends()
      reads this
    {
      Grew(old(Past()), Past())
    }

    /** Nothing was reported, spawned or judged. */
    twostate predicate Quiet()
      reads this
    {
      GrewQuietly(old(Past()), Past()) && world.planned == old(world.planned)
    }

    /** Exactly one outcome was reported, and nothing spawned or judged. */
    twostate predicate ToldOnly(new t: TaskId, new outcome: TaskOutcome, new attempt: nat)
      reads this
    {
      GrewByReport(old(Past()), Past(), Report(old(world.round), t, outcome, attempt))
    }

    /** The first thing the kernel heard since. */
    twostate predicate FirstTold(new t: TaskId, new outcome: TaskOutcome, new attempt: nat)
      reads this
    {
      Extends() && |old(world.sent)| < |world.sent| &&
      world.sent[|old(world.sent)|] == Report(old(world.round), t, outcome, attempt)
    }

    /** What a step on the task `t` came to: an error; nothing more to do; plans the kernel released; or the end. */
    twostate predicate Stepped(new r: Result<Step>, new t: TaskId, new rest: seq<TaskPlan>)
      reads this
    {
      match r
      case Err(e) => FailedWith(e)
      case Ok(Proceed) => IsLive(rest, {}) && SameRound(old(St()), St()) && AtMostOracle(old(log), log)
      case Ok(Cascade(more)) => IsLive(rest + more, {}) && Progress(more) && RuledOn(t, Some(more))
      case Ok(Stop) => RuledOn(t, None)
    }

    /** What a message or a wave came to: an error, a run that goes on, or the end. */
    twostate predicate Flowed(new r: Result<Flow>)
      reads this
    {
      match r
      case Err(e) => FailedWith(e)
      case Ok(GoOn) => IsLive([], {})
      case Ok(Finished) => Ended()
    }

    // ---- Durable primitives: each may fail, and each success is one new disk state ----

    method ReadIssue(id: TaskId) returns (r: Result<Option<Issue>>)
      modifies this`log
      ensures r.Ok? ==> log == old(log) && r.value == if id in issues then Some(issues[id]) else None
      ensures r.Err? ==> log == old(log) + [Fault(r.error)] && FailsAt(log, r.error)
      ensures (old(LogOk(cfg, log)) ==> LogOk(cfg, log)) && Quiet()
    {
      var readable: bool := *;
      if !readable {
        r := Err("issues read failed");
        Faulted(r.error);
        return;
      }
      r := Ok(if id in issues then Some(issues[id]) else None);
    }

    method WriteIssue(issue: Issue) returns (r: Outcome)
      requires IsSafe() && (InBase(st, issue.meta.id) ==> Anchored(issue.meta, chain))
      requires AnswerOk(cfg, st, world.jobs, world.heard, issue.meta.id, cfg.reread(issue))
      modifies this`issues, this`world, this`log
      ensures St() == if r.Pass? then Wrote(cfg, old(St()), issue) else old(St())
      ensures log == if r.Pass? then old(log) else old(log) + [Fault(r.error)]
      ensures IsSafe() && Quiet() && (r.Fail? ==> FailsAt(log, r.error))
    {
      hide Safe, ConfigOk, StartOk, LogOk, AnswerOk, Anchored, InBase, FailsAt;
      ghost var s := St();
      var writable: bool := *;
      if !writable {
        r := Fail("issue write failed");
        Faulted(r.error);
        return;
      }
      issues := issues[issue.meta.id := cfg.reread(issue)];
      world := world.(disks := world.disks + [Disk(issues, seal, run)]);
      WroteSafe(cfg, st, s, issue);
      r := Pass;
    }

    method ReadRun() returns (meta: Option<RunMeta>)
      modifies this`runFaults
      ensures old(runFaults) <= runFaults && (runFaults == old(runFaults) ==> meta == run)
      ensures (meta.Some? ==> meta == run) && Quiet()
    {
      var readable: bool := *;
      if readable {
        return run;
      }
      meta := None;
      runFaults := runFaults + 1;
    }

    method WriteRun(meta: RunMeta)
      requires IsSafe() && ClosedAs(run, Some(meta))
      modifies this`run, this`world, this`runFaults
      ensures old(runFaults) <= runFaults && (runFaults == old(runFaults) ==> run == Some(meta))
      ensures (run == Some(meta) || run == old(run)) && Quiet()
      ensures IsSafe() && world == old(world).(disks := world.disks) && old(world.disks) <= world.disks
    {
      hide Safe, ConfigOk, StartOk, LogOk;
      ghost var s := St();
      var writable: bool := *;
      if !writable {
        runFaults := runFaults + 1;
        return;
      }
      run := Some(meta);
      world := world.(disks := world.disks + [Disk(issues, seal, run)]);
      WroteRunSafe(cfg, st, s, meta);
    }

    /** Append one sealed record. Its line may be cut anywhere, and a whole line may still be reported as a failure
        (fsync). */
    method Append(r: Record) returns (ok: bool, ghost n: nat)
      requires IsSafe() && !seal.view.Broken? && Follows(cfg.hasher, chain, r)
      modifies this`chain, this`seal, this`extents, this`world
      ensures IsSafe() && n <= cfg.width(r) + 1 && St() == Put(cfg, old(St()), r, n) && (ok ==> n > cfg.width(r))
      ensures world == old(world).(disks := world.disks) && Extends() && (!r.kind.AcceptanceVerdict? ==> Quiet())
    {
      hide Safe, CutDisks, ConfigOk, StartOk, LogOk, Grew, Unjudged, GrewQuietly, Grown;
      ghost var s := St();
      var width := cfg.width(r);
      var any: int := *;
      var synced: bool := *;
      var written: nat := if 0 <= any <= width then any else width + 1;
      n, ok := written, written > width && synced;
      PositiveWidth(cfg, r);
      PutSafe(cfg, st, s, r, written);
      PutGrows(cfg, s, r, written, log, tried, runFaults);
      if written > 0 {
        world := world.(disks := world.disks + CutDisks(Disk(issues, seal, run), r, written, width));
        seal := Grown(seal, r, written, width);
        chain := if written < width then chain else chain + [r];
        extents := extents + [Reached(written, width)];
        assert St() == Put(cfg, s, r, written);
      }
    }

    method Clock() returns (ts: string) {
      ts := *;
    }

    ghost method Faulted(what: string)
      modifies this`log
      ensures log == old(log) + [Fault(what)] && (old(LogOk(cfg, log)) ==> LogOk(cfg, log)) && Quiet() &&
        FailsAt(log, what)
    {
      log := log + [Fault(what)];
    }

    ghost method NoteVanished(t: TaskId)
      modifies this`log
      ensures log == old(log) + [Vanished(t)] && (old(LogOk(cfg, log)) ==> LogOk(cfg, log)) && Quiet()
      ensures FailsAt(log, "spawn detached task `" + t + "`: issue vanished before its verdict")
    {
      log := log + [Vanished(t)];
    }

    /** Every seal operation: read the tip, link the record to it, append. It fails without a trace on a file that
        cannot be read or exceeds the cap. */
    method SealOnto(draft: Record) returns (r: Result<string>, ghost rec: Record, ghost n: nat)
      requires IsSafe()
      modifies this`chain, this`seal, this`extents, this`world, this`tried
      ensures IsSafe() && St() == Put(cfg, old(St()), rec, n) && (!old(seal).Readable() ==> r.Err? && n == 0)
      ensures r.Ok? ==> n == cfg.width(rec) + 1 && rec.hash == r.value
      ensures world == old(world).(disks := world.disks)
      ensures tried == old(tried) + [rec] && Extends() && (!rec.kind.AcceptanceVerdict? ==> Quiet())
      ensures rec == draft.(prevHash := Tip(cfg.hasher, old(chain)), hash := rec.hash)
    {
      hide Safe, LogOk, CutDisks, StartOk, Follows, Put;
      ghost var h := Past();
      rec, n := Sealed(cfg.hasher, draft.(prevHash := Tip(cfg.hasher, chain))), 0;
      tried := tried + [rec];
      ghost var noted := Past();
      assert GrewQuietly(h, noted);
      hide Grew, Unjudged;
      SamePut(cfg, St(), rec);
      if !seal.Readable() {
        return Err("seal unreadable"), rec, n;
      }
      SealSeen(cfg, st, St());
      var linked := draft.(prevHash := Tip(cfg.hasher, seal.view.recs));
      SealedFollows(cfg.hasher, chain, linked);
      hide ConfigOk;
      var ok, reached := Append(Sealed(cfg.hasher, linked));
      GrewTwice(h, noted, Past());
      if !rec.kind.AcceptanceVerdict? {
        QuietTwice(h, noted, Past());
      }
      r, n := if ok then Ok(Sealed(cfg.hasher, linked).hash) else Err("seal append failed"), reached;
    }

    method SealOutput(task: TaskId, agent: string, sha: Option<string>, path: string)
      returns (r: Result<string>, ghost rec: Record, ghost n: nat)
      requires IsSafe()
      modifies this`chain, this`seal, this`extents, this`world, this`log, this`tried
      ensures IsSafe() && St() == Put(cfg, old(St()), rec, n) && (!old(seal).Readable() ==> r.Err? && n == 0)
      ensures r.Ok? ==> n == cfg.width(rec) + 1 && rec.hash == r.value
      ensures world == old(world).(disks := world.disks)
      ensures IsOutput(rec, task, agent, sha, path) && tried == old(tried) + [rec]
      ensures log == (if r.Ok? then old(log) else old(log) + [Fault(r.error)]) && Quiet()
      ensures r.Err? ==> FailsAt(log, r.error)
    {
      hide Safe, LogOk, StartOk, ConfigOk, Put, Grew, Unjudged, FailsAt;
      ghost var h := Past();
      var ts := Clock();
      r, rec, n := SealOnto(
        Record(DispatchOutput, ts, task, agent, sha, path, None, None, None, None, None, None, "", ""));
      ghost var sealed := Past();
      if r.Err? {
        Faulted(r.error);
        QuietTwice(h, sealed, Past());
      }
    }

    method SealVerdict(task: TaskId, agent: string, attempt: u32, command: string, result: AcceptanceResult)
      returns (r: Result<string>, ghost rec: Record, ghost n: nat)
      requires IsSafe()
      modifies this`chain, this`seal, this`extents, this`world, this`log, this`tried
      ensures IsSafe() && St() == Put(cfg, old(St()), rec, n) && (!old(seal).Readable() ==> r.Err? && n == 0)
      ensures r.Ok? ==> n == cfg.width(rec) + 1 && rec.hash == r.value
      ensures world == old(world).(disks := world.disks)
      ensures IsVerdictOf(rec, task, agent, attempt, command, result) && tried == old(tried) + [rec]
      ensures log == (if r.Ok? then old(log) else old(log) + [Fault(r.error)]) && Extends()
      ensures r.Err? ==> FailsAt(log, r.error)
    {
      hide Safe, LogOk, StartOk, ConfigOk, Put, Grew, Unjudged, FailsAt;
      ghost var h := Past();
      var ts := Clock();
      r, rec, n := SealOnto(
        Record(AcceptanceVerdict, ts, task, agent, None, "", Some(attempt), Some(result.exitCode),
          Some(result.Passed()),
          Some(command), None, None, "", ""));
      ghost var sealed := Past();
      if r.Err? {
        Faulted(r.error);
        GrewTwice(h, sealed, Past());
      }
    }

    // ---- Starting and adopting jobs ----

    ghost method NoteMissing(plan: TaskPlan, dep: TaskId)
      requires dep in plan.dependsOn && Unanswered(issues, dep)
      modifies this`log
      ensures log == old(log) + [Missing(plan.taskId, dep)] && (old(LogOk(cfg, log)) ==> LogOk(cfg, log)) && Quiet()
      ensures FailsAt(log, "task `" + plan.taskId + "` depends on `" + dep + "`, whose response was never captured")
      ensures Excused(issues, plan, log[|old(log)|..])
    {
      log := log + [Missing(plan.taskId, dep)];
    }

    /** The stored responses of the dependencies; one that is missing fails closed. */
    method DepContexts(plan: TaskPlan) returns (r: Result<seq<DepContext>>)
      modifies this`log
      ensures r.Ok? ==> log == old(log) && DepsOf(issues, plan.dependsOn, r.value)
      ensures r.Err? ==> old(log) < log && FailsAt(log, r.error) && Excused(issues, plan, log[|old(log)|..])
      ensures (old(LogOk(cfg, log)) ==> LogOk(cfg, log)) && Quiet()
    {
      hide FailsAt, LogOk, Excused;
      var deps: seq<DepContext> := [];
      for i := 0 to |plan.dependsOn|
        invariant log == old(log) && DepsOf(issues, plan.dependsOn[..i], deps)
      {
        var dep := plan.dependsOn[i];
        var read := ReadIssue(dep);
        if read.Err? {
          FaultExcused(issues, plan, old(log), read.error);
          return Err(read.error);
        }
        if read.value.None? || read.value.value.response.None? {
          NoteMissing(plan, dep);
          return Err("task `" + plan.taskId + "` depends on `" + dep + "`, whose response was never captured");
        }
        deps := deps + [DepContext(dep, read.value.value.meta.agent, read.value.value.response.value)];
      }
      assert plan.dependsOn[..|plan.dependsOn|] == plan.dependsOn;
      r := Ok(deps);
    }

    /** Start one detached job for a task. */
    method StartJob(t: TaskId, agent: string, attempt: u32) returns (r: Result<JobId>, ghost job: Job)
      requires IsSafe() && t in world.planned && CountJobs(world.jobs, world.round, t) < Budget(cfg, t)
      requires attempt < Budget(cfg, t) &&
        (attempt > 0 ==> HasVerdict(chain, marks[world.round], t, attempt - 1, false))
      requires attempt == 0 && world.round == 0 ==> UnstartedAt(st, t)
      requires forall u :: u in world.planned && u in issues && issues[u].meta.jobId.Some? ==>
        issues[u].meta.jobId.value in world.used
      modifies this`world, this`log
      ensures IsSafe() && St() == if r.Ok? then old(St()).(w := Spawning(old(world), job)) else old(St())
      ensures log == (if r.Ok? then old(log) else old(log) + [Fault(r.error)]) && Extends()
      ensures r.Err? ==> FailsAt(log, r.error)
      ensures r.Ok? ==> r.value == job.id && job.id !in old(world.used)
      ensures job.task == t && job.agent == agent && job.round == old(world.round) && job.attempt == attempt
    {
      hide Safe, HasVerdict, CountJobs, Budget, LogOk, ConfigOk, StartOk, FailsAt;
      SafeCounted(cfg, st, St());
      ghost var s := St();
      var line := cfg.line(t, agent);
      var w, started := SpawnDetached(world, t, agent, attempt, line);
      job := Job(started.GetOk(0), t, agent, world.round, attempt, line);
      r := started;
      if started.Ok? {
        SpawningSafe(cfg, st, s, job);
        world := w;
      } else {
        Faulted(r.error);
      }
    }

    /** Write the issue of a started job and route the job's response to its task. */
    method RouteJob(ghost s: State, ghost job: Job, jobId: JobId, issue: Issue) returns (r: Outcome)
      requires IsSafe() && St() == s.(w := Spawning(s.w, job)) && jobId == job.id
      requires issue.meta.id == job.task && issue.meta.status.Spawned?
      modifies this`issues, this`world, this`jobToTask, this`place, this`log
      ensures IsSafe() && (r.Pass? ==> St() == JobRouted(cfg, s, job, issue)) && (r.Fail? ==> St() == old(St()))
      ensures log == (if r.Pass? then old(log) else old(log) + [Fault(r.error)]) && Quiet()
      ensures r.Fail? ==> FailsAt(log, r.error)
    {
      hide Safe, AnswerOk, LogOk, Anchored, ConfigOk, StartOk, FailsAt;
      SpawnedUnanchored(issue.meta, chain);
      AnswerNone(cfg, st, world.jobs, world.heard, issue);
      r := WriteIssue(issue);
      if r.Pass? {
        jobToTask := jobToTask[jobId := issue.meta.id];
        place := place[issue.meta.id := Running(jobId)];
        RoutedSafe(cfg, st, s, job, issue);
        assert St() == JobRouted(cfg, s, job, issue);
      }
    }

    /** Start a task: its prompt carries the stored responses of its dependencies, and its issue the new job. */
    method SpawnOne(plan: TaskPlan, ghost rest: seq<TaskPlan>)
      returns (r: Outcome, ghost job: Job, ghost deps: seq<DepContext>)
      requires IsLive([plan] + rest, {}) && (plan.taskId in issues ==> issues[plan.taskId].meta.status.Pending?)
      modifies this
      ensures IsSafe() && SameRound(old(St()), St()) && Extends()
      ensures r.Pass? ==> IsLive(rest, {}) && DepsOf(old(issues), plan.dependsOn, deps) && log == old(log)
      ensures r.Pass? ==> job.task == plan.taskId && job.agent == plan.agent && job.attempt == 0
      ensures r.Pass? ==> St() == JobRouted(cfg, old(St()), job, SpawnedIssue(plan, job.id, Composed(plan.body, deps)))
      ensures r.Fail? ==> FailedWith(r.error) && Excused(old(issues), plan, News())
    {
      hide Safe, Live, LogOk, Grew, Unjudged, Excused, ConfigOk, StartOk, FailsAt, CountJobs, HasVerdict, OpenAtStart,
        Composed;
      job, deps := *, *;
      ghost var s, h := St(), Past();
      var t := plan.taskId;
      HeadMayStart(cfg, st, s, plan, rest);
      JobsKnown(cfg, st, s, [plan] + rest, {});
      var read := DepContexts(plan);
      if read.Err? {
        return Fail(read.error), job, deps;
      }
      deps := read.value;
      ghost var read1 := Past();
      var composed := ComposeBody(plan.body, read.value);
      var started, j := StartJob(t, plan.agent, 0);
      job := j;
      GrewTwice(h, read1, Past());
      ghost var started1 := Past();
      if started.Err? {
        FaultExcused(s.issues, plan, h.log, started.error);
        return Fail(started.error), job, deps;
      }
      var issue := Issue(
        IssueMeta(plan.taskId, plan.title, plan.agent, plan.dependsOn, Spawned, Some(started.value), None, None, 0,
          None),
        composed, None);
      r := RouteJob(s, job, started.value, issue);
      GrewTwice(h, started1, Past());
      if r.Pass? {
        SpawnLive(cfg, st, s, plan, rest, job, issue);
      } else {
        FaultExcused(s.issues, plan, h.log, r.error);
      }
    }

    // ---- Responses and oracles ----

    /** Fold a finished job into its issue. The output is sealed before the issue claims it. */
    method Absorb(t: TaskId, ev: FinalResponse, ghost q: seq<TaskPlan>)
      returns (r: Result<TaskOutcome>, ghost rec: Record)
      requires IsLive(q, {t}) && JustHeard(St(), t, ev)
      modifies this
      ensures IsSafe() && SameRound(old(St()), St()) && Quiet() && world.heard == old(world.heard)
      ensures r.Ok? ==> IsLive(q, {t}) && t in issues && log == old(log) && runFaults == old(runFaults)
      ensures r.Ok? ==>
        r.value == if ev.path.Some? then OutcomeDone(ev.path.value) else OutcomeFailed(ev.preview)
      ensures r.Ok? ==>
        var sealed := if ev.path.Some? then Appended(cfg, old(St()), rec) else old(St());
        St() == Wrote(cfg, sealed, Absorbed(old(issues[t]), ev, rec.hash))
      ensures r.Ok? ==> issues[t].meta == Absorbed(old(issues[t]), ev, rec.hash).meta && issues[t].meta.id == t
      ensures r.Ok? && ev.path.Some? ==>
        IsOutput(rec, t, old(issues[t].meta.agent), ev.sha, ev.path.value) && old(seal).Readable()
      ensures r.Err? ==> FailedWith(r.error)
    {
      hide Safe, Live, CutDisks, NamesOutput, AnswerOk, LogOk, Grew, Unjudged, ConfigOk, StartOk, FailsAt;
      rec := *;
      HandFacts(cfg, st, St(), q, t);
      var read := ReadIssue(t);
      if read.Err? {
        return Err(read.error), rec;
      }
      var issue := read.value.value;
      if ev.path.Some? {
        r, rec := AbsorbOutput(t, issue, ev, ev.path.value, q);
      } else {
        issue := issue.(meta := issue.meta.(status := Failed), response := Some(ev.preview));
        AnswerNone(cfg, st, world.jobs, world.heard, issue);
        r := StoreInHand(t, issue, q, OutcomeFailed(ev.preview));
      }
    }

    method AbsorbOutput(t: TaskId, issue: Issue, ev: FinalResponse, path: string, ghost q: seq<TaskPlan>)
      returns (r: Result<TaskOutcome>, ghost rec: Record)
      requires IsLive(q, {t}) && JustHeard(St(), t, ev) && ev.path == Some(path) && issues[t] == issue
      modifies this
      ensures IsSafe() && SameRound(old(St()), St()) && Quiet() && world.heard == old(world.heard)
      ensures r.Ok? ==> IsLive(q, {t}) && t in issues && log == old(log) && runFaults == old(runFaults)
      ensures r.Ok? ==> r.value == OutcomeDone(path)
      ensures r.Ok? ==> St() == Wrote(cfg, Appended(cfg, old(St()), rec), Absorbed(issue, ev, rec.hash))
      ensures r.Ok? ==> issues[t].meta == Absorbed(issue, ev, rec.hash).meta && issues[t].meta.id == t
      ensures r.Ok? ==> IsOutput(rec, t, issue.meta.agent, ev.sha, path) && old(seal).Readable()
      ensures r.Err? ==> FailedWith(r.error)
    {
      hide Safe, Live, CutDisks, NamesOutput, AnswerOk, LogOk, Grew, Unjudged, ConfigOk, StartOk, FailsAt, InBase,
        Anchored, Grown, Reached;
      ghost var s, h := St(), Past();
      HandFacts(cfg, st, s, q, t);
      var sealed, output, reached := SealOutput(t, issue.meta.agent, ev.sha, path);
      rec := output;
      if sealed.Err? {
        return Err(sealed.error), rec;
      }
      PutLive(cfg, st, s, q, {t}, rec, cfg.width(rec) + 1);
      ghost var mid := Past();
      var done := issue.(meta := issue.meta.(status := Done, responseSha := ev.sha, seal := Some(sealed.value)),
        response := Some(ev.text));
      DoneKeeps(cfg, st, s, t, ev, rec, done);
      assert St() == Appended(cfg, s, rec) && done == Absorbed(issue, ev, rec.hash);
      hide Appended, Put, Absorbed;
      r := StoreInHand(t, done, q, OutcomeDone(path));
      QuietTwice(h, mid, Past());
    }

    /** Write the issue of the task in hand. */
    method StoreInHand(t: TaskId, issue: Issue, ghost q: seq<TaskPlan>, outcome: TaskOutcome)
      returns (r: Result<TaskOutcome>)
      requires IsLive(q, {t}) && t in issues && issue.meta.id == t
      requires issue.meta.jobId == issues[t].meta.jobId && issue.meta.attempt == issues[t].meta.attempt
      requires InBase(st, t) ==> Anchored(issue.meta, chain)
      requires AnswerOk(cfg, st, world.jobs, world.heard, t, cfg.reread(issue))
      modifies this`issues, this`world, this`log
      ensures IsSafe() && St() == if r.Ok? then Wrote(cfg, old(St()), issue) else old(St())
      ensures log == (if r.Ok? then old(log) else old(log) + [Fault(r.error)]) && Quiet()
      ensures r.Err? ==> FailsAt(log, r.error)
      ensures r.Ok? ==> IsLive(q, {t}) && r.value == outcome && t in issues && issues[t].meta == issue.meta
    {
      hide AnswerOk, LogOk, Safe, Live, Grew, Unjudged, Anchored, ConfigOk, StartOk, FailsAt;
      ghost var s := St();
      var written := WriteIssue(issue);
      if written.Fail? {
        return Err(written.error);
      }
      RereadMeta(cfg, issue);
      HandWrite(cfg, st, s, q, t, issue);
      r := Ok(outcome);
    }

    /** An oracle thread starts; its verdict will come back as a message. */
    method StartOracle(t: TaskId, attempt: u32, command: string, ghost q: seq<TaskPlan>)
      requires IsLive(q, {t}) && t in cfg.accept && command == cfg.accept[t].command && OpenAtStart(st, world.round, t)
      requires t in issues && issues[t].meta.status.Verifying? && issues[t].meta.attempt == attempt
      modifies this`world, this`place, this`log
      ensures IsLive(q, {}) && St() == Launched(old(St()), t, attempt)
      ensures log == old(log) + [OracleStarted(t, attempt, command)] && Quiet()
    {
      hide Safe, Live;
      ghost var s := St();
      world := world.(inflight := world.inflight + {(t, attempt as nat)});
      place := place[t := Judging(attempt)];
      log := log + [OracleStarted(t, attempt, command)];
      assert St() == Launched(s, t, attempt);
      LaunchLive(cfg, st, s, q, t);
      LaunchedSafe(cfg, st, s, t, attempt);
    }

    /** Flip the task in hand to `Verifying` and start its acceptance oracle. */
    method LaunchOracle(t: TaskId, ghost q: seq<TaskPlan>) returns (r: Outcome)
      requires IsLive(q, {t}) && t in cfg.accept && t in issues && OpenAtStart(st, world.round, t)
      requires issues[t].meta.status.Done? || issues[t].meta.status.Verifying?
      modifies this
      ensures IsSafe() && SameRound(old(St()), St()) && Quiet()
      ensures r.Pass? ==>
        IsLive(q, {}) && runFaults == old(runFaults) &&
        log == old(log) + [OracleStarted(t, old(issues[t].meta.attempt), cfg.accept[t].command)] &&
        St() == Launched(Wrote(cfg, old(St()), AsVerifying(old(issues[t]))), t, old(issues[t].meta.attempt))
      ensures r.Fail? ==> FailedWith(r.error)
    {
      hide Safe, Live, AnswerOk, LogOk, Grew, Unjudged, ConfigOk, StartOk, FailsAt, InBase, Anchored, OpenAtStart;
      ghost var h := Past();
      HandFacts(cfg, st, St(), q, t);
      var spec := cfg.accept[t];
      var read := ReadIssue(t);
      if read.Err? {
        return Fail(read.error);
      }
      var issue := read.value.value;
      var verifying := issue.(meta := issue.meta.(status := Verifying));
      VerifyingKeeps(cfg, st, St(), t, verifying);
      var stored := StoreInHand(t, verifying, q, OutcomeFailed(""));
      if stored.Err? {
        return Fail(stored.error);
      }
      ghost var stored1 := Past();
      StartOracle(t, issue.meta.attempt, spec.command, q);
      QuietTwice(h, stored1, Past());
      r := Pass;
    }

    // ---- Rounds ----

    /** Best effort: the round's integration verdict. */
    method SealGlobal(command: string, result: AcceptanceResult) returns (ghost rec: Record, ghost n: nat)
      requires IsSafe()
      modifies this`chain, this`seal, this`extents, this`world, this`tried
      ensures IsSafe() && St() == Put(cfg, old(St()), rec, n) && Quiet()
      ensures IsGlobal(rec, round, command, result) && tried == old(tried) + [rec]
    {
      hide Safe, LogOk, StartOk, ConfigOk, Put, Grew, Unjudged;
      var ts := Clock();
      var _, record, reached := SealOnto(
        Record(GlobalVerdict, ts, "<rfc>", "<fleet>", None, "", None, Some(result.exitCode), Some(result.Passed()),
          Some(command), Some(round), None, "", ""));
      rec, n := record, reached;
    }

    /** Best effort: what was decided about another round. */
    method SealReplan(decision: string) returns (ghost rec: Record, ghost n: nat)
      requires IsSafe()
      modifies this`chain, this`seal, this`extents, this`world, this`tried
      ensures IsSafe() && St() == Put(cfg, old(St()), rec, n) && Quiet() && world == old(world).(disks := world.disks)
      ensures IsDecision(rec, round, decision) && tried == old(tried) + [rec]
    {
      hide Safe, LogOk, StartOk, ConfigOk, Grew, Unjudged, CutDisks;
      var ts := Clock();
      var _, record, reached := SealOnto(
        Record(ReplanDecision, ts, "<rfc>", "<fleet>", None, "", None, None, None, None, Some(round), Some(decision),
          "",
          ""));
      rec, n := record, reached;
    }

    /** Reset the named issues for a fresh round. */
    method ResetIssues(ids: seq<TaskId>) returns (r: Outcome)
      requires IsSafe() && forall t :: t in ToSet(ids) && t in issues ==> issues[t].meta.id == t
      modifies this`issues, this`world, this`log
      ensures IsSafe() && world == old(world).(disks := world.disks) && old(world.disks) <= world.disks
      ensures r.Pass? ==> issues == ResetAll(cfg, old(issues), ids)
      ensures log == (if r.Pass? then old(log) else old(log) + [Fault(r.error)]) && Quiet()
    {
      hide Safe, AnswerOk, LogOk, Grew, Unjudged;
      ghost var before, h := issues, Past();
      QuietSame(h);
      for i := 0 to |ids|
        invariant IsSafe() && world == old(world).(disks := world.disks) && old(world.disks) <= world.disks
        invariant issues == ResetAll(cfg, before, ids[..i]) && log == old(log) && GrewQuietly(h, Past())
      {
        ghost var h1 := Past();
        ResetAllMeans(cfg, before, ids[..i]);
        assert ids[i] in ToSet(ids) && ids[..i + 1][..i] == ids[..i];
        r := ResetIssue(ids[i]);
        QuietTwice(h, h1, Past());
        if r.Fail? {
          return;
        }
      }
      assert ids[..|ids|] == ids;
      r := Pass;
    }

    /** Back to `Pending`: no job, response, attempt or seals. */
    method ResetIssue(id: TaskId) returns (r: Outcome)
      requires IsSafe() && (id in issues ==> issues[id].meta.id == id)
      modifies this`issues, this`world, this`log
      ensures IsSafe() && world == old(world).(disks := world.disks) && old(world.disks) <= world.disks
      ensures r.Pass? ==>
        issues == if id in old(issues) then old(issues)[id := cfg.reread(Reset(old(issues)[id]))] else old(issues)
      ensures log == (if r.Pass? then old(log) else old(log) + [Fault(r.error)]) && Quiet()
    {
      hide Safe, AnswerOk, LogOk, Grew, Unjudged, Anchored;
      ghost var h := Past();
      var read := ReadIssue(id);
      if read.Err? {
        return Fail(read.error);
      }
      ghost var read1 := Past();
      r := Pass;
      if read.value.Some? {
        var issue := read.value.value;
        issue := issue.(
          meta := issue.meta.(
            status := Pending, jobId := None, responseSha := None, seal := None, attempt := 0, verdictSeal := None),
          response := None);
        AnswerNone(cfg, st, world.jobs, world.heard, issue);
        PendingUnanchored(issue.meta, chain);
        r := WriteIssue(issue);
        QuietTwice(h, read1, Past());
      }
    }

    /** Enter the round the kernel has just opened. `s` is the drained state before it did. */
    method EnterRound(ghost s: State, wave: seq<TaskPlan>, ghost ids: seq<TaskId>)
      requires IsSafe() && Live(cfg, st, s, [], {}) && Safe(cfg, st, s) && s.w.released == s.w.reported &&
        round == s.round && IsOpen()
      requires world.round == s.w.round + 1
      requires NextRound(cfg, s, RoundEntered(St(), wave), wave, ids)
      requires Distinct(wave) && Ids(wave) <= s.w.planned
      modifies this`round, this`place
      ensures IsLive(wave, {}) && St() == RoundEntered(old(St()), wave) && Past() == old(Past())
    {
      hide LogOk, ConfigOk, StartOk, NextRound;
      RoundsBefore(cfg, st, s);
      ghost var t := St();
      hide Safe, Live;
      RoundEnteredSafe(cfg, st, t, wave);
      RoundLive(cfg, st, s, RoundEntered(t, wave), wave, ids);
      round := round + 1;
      place := RoundPlaces(world.planned, wave);
      assert St() == RoundEntered(t, wave);
    }

    ghost predicate Drained()
      reads this
    {
      IsLive([], {}) && world.released == world.reported
    }

    /** Ask the kernel about a failed round. */
    method AskFinalize(tail: string) returns (w: World, reply: FinalizeReply)
      requires IsSafe() && round < cfg.maxReplans
      modifies this`log
      ensures IsSafe() && Quiet() && log == old(log) + [FinalizeSaid(round, tail, reply)] &&
        FinalizeAllowed(world, reply)
      ensures w == if reply.Replan? then NewRound(world, reply.rewave, ToSet(reply.reopened)) else world
    {
      hide Safe;
      w, reply := KernelFinalize(world);
      log := log + [FinalizeSaid(round, tail, reply)];
    }

    /** Ask the kernel to authorize the whole plan again. */
    method AskAuthorize() returns (w: World, reply: AuthorizeReply)
      requires IsSafe()
      modifies this`log
      ensures IsSafe() && Quiet() && log == old(log) + [AuthorizeSaid(reply)] && AuthorizeAllowed(world, reply)
      ensures w == if reply.Authorized? then NewRound(world, reply.first, world.planned) else world
    {
      hide Safe;
      w, reply := KernelAuthorize(world);
      log := log + [AuthorizeSaid(reply)];
    }

    /** Re-plan one round: the kernel's targeted re-open, or the whole plan again. The kernel is asked once, about this
        failure; its answer decides, and a round that begins has reset exactly the re-opened tasks (every planned task
        in the fallback). */
    method ReplanRound(tail: string) returns (step: FleetStep)
      requires Drained() && round < cfg.maxReplans && round < |sigs|
      modifies this
      ensures IsSafe() && Quiet() && lastFailSig == old(lastFailSig)
      ensures AsksAbout(News(), old(round), tail)
      ensures step.Rerun? ==> Resumes(News(), step.wave) && IsLive(step.wave, {}) && round == old(round) + 1
      ensures step.Rerun? ==> RestartedFrom(cfg, old(St()), St(), step.wave, StartedOver(cfg, News()))
      ensures step.Rerun? ==> runId == if News()[0].finalize.Replan? then old(runId) else News()[1..][0].authorize.runId
      ensures step.Close? ==> Declines(News(), step.reason) && IsOpen()
      ensures SealsDecision(tried[|old(tried)|..], old(round), Decision(cfg, News()))
    {
      hide Safe, Live, RestartedFrom, LogOk, Grew, Unjudged, ConfigOk, StartOk,
        Resumes, Declines, Decision, StartedOver, AsksAbout, Unauthorized, Reauthorized;
      ghost var s, h := St(), Past();
      var w, answer := AskFinalize(tail);
      ghost var asked := Past();
      QuietSame(asked);
      match answer {
        case Replan(wave, reopened) =>
          step := ReopenTargeted(w, wave, reopened);
        case GiveUp(reason) =>
          step := Close("re-plan declined: " + reason);
        case Converged =>
          step := Close("converged");
        case _ =>
          step := Fallback();
      }
      QuietTwice(h, asked, Past());
      LogPrefix(asked, Past());
      ReplyLeads(cfg, h.log, log, s.round, tail, answer);
    }

    /** Without an answer of the kernel's: what was decided is sealed, then the whole plan runs again. */
    method Fallback() returns (step: FleetStep)
      requires Drained() && round < cfg.maxReplans && round < |sigs|
      modifies this
      ensures IsSafe() && Quiet() && lastFailSig == old(lastFailSig)
      ensures step.Rerun? ==> IsLive(step.wave, {}) && round == old(round) + 1
      ensures step.Rerun? ==> Reauthorized(News(), step.wave) && runId == News()[0].authorize.runId
      ensures step.Rerun? ==> RestartedFrom(cfg, old(St()), St(), step.wave, cfg.tasks)
      ensures step.Close? ==> Unauthorized(News(), step.reason) && IsOpen()
      ensures SealsDecision(tried[|old(tried)|..], old(round), Some("rerun-all"))
    {
      hide Safe, Live, RestartedFrom, LogOk, CutDisks, Grew, Unjudged, ConfigOk, StartOk, Unauthorized;
      ghost var s, h := St(), Past();
      ghost var rec, n := SealReplan("rerun-all");
      PutLive(cfg, st, s, [], {}, rec, n);
      ghost var sealed := Past();
      step := RerunAll();
      QuietTwice(h, sealed, Past());
      if step.Rerun? {
        RestartedAfterPut(cfg, s, rec, n, St(), step.wave, cfg.tasks);
      }
    }

    /** The kernel's next round begins; the chain's length marks where. */
    method OpenRound(w: World, wave: seq<TaskPlan>, ids: seq<TaskId>)
      requires Drained() && round < cfg.maxReplans && round < |sigs| && w == NewRound(world, wave, ToSet(ids))
      modifies this`world, this`marks
      ensures IsSafe() && IsOpen() && Past() == old(Past()) && world.planned == old(world.planned) &&
        RoundBegun(old(St()), St(), wave, ids)
    {
      hide Safe, Live, LogOk, ConfigOk, StartOk;
      ghost var s := St();
      RoundFacts(cfg, st, s, [], {});
      NewRoundSafe(cfg, st, s, wave, ToSet(ids));
      world, marks := w, marks + [|chain|];
      assert St() == RoundOpened(s, wave, ToSet(ids));
    }

    /** Reset the tasks that the round starts over, and enter it. `s` is the drained state before. */
    method BeginRound(ghost s: State, wave: seq<TaskPlan>, ids: seq<TaskId>) returns (r: Outcome)
      requires IsSafe() && IsOpen() && Safe(cfg, st, s) && Live(cfg, st, s, [], {}) && s.w.released == s.w.reported
      requires RoundBegun(s, St(), wave, ids) && Distinct(wave) && Ids(wave) <= ToSet(ids) <= s.w.planned
      modifies this`issues, this`world, this`round, this`place, this`log
      ensures IsSafe() && IsOpen() && Quiet()
      ensures log == if r.Pass? then old(log) else old(log) + [Fault(r.error)]
      ensures r.Pass? ==> IsLive(wave, {}) && round == old(round) + 1 && RestartedFrom(cfg, s, St(), wave, ids)
    {
      hide Safe, Live, LogOk, ConfigOk, StartOk, Grew, Unjudged, NextRound, RestartedFrom, ResetAll, NewRound;
      RoundFacts(cfg, st, s, [], {});
      r := ResetIssues(ids);
      if r.Pass? {
        ReopenedIsNext(cfg, s, St(), wave, ids);
        EnterRound(s, wave, ids);
      }
    }

    /** The kernel re-opened part of the plan and its new round has begun. */
    method ReopenTargeted(w: World, wave: seq<TaskPlan>, reopened: seq<TaskId>) returns (step: FleetStep)
      requires Drained() && round < cfg.maxReplans && round < |sigs| && FinalizeAllowed(world, Replan(wave, reopened))
      requires w == NewRound(world, wave, ToSet(reopened))
      modifies this
      ensures IsSafe() && Quiet() && lastFailSig == old(lastFailSig) && runId == old(runId)
      ensures step.Rerun? ==> step.wave == wave && IsLive(wave, {}) && round == old(round) + 1 && log == old(log)
      ensures step.Rerun? ==> RestartedFrom(cfg, old(St()), St(), wave, reopened)
      ensures step.Close? ==> ResetFails(News(), "re-plan reset failed: ", step.reason) && IsOpen()
      ensures SealsDecision(tried[|old(tried)|..], old(round), Some("rerun-targeted"))
    {
      hide Safe, Live, Put, RestartedFrom, LogOk, Grew, Unjudged, ConfigOk, StartOk, NewRound;
      ghost var s, h := St(), Past();
      OpenRound(w, wave, reopened);
      ghost var _, _ := SealReplan("rerun-targeted");
      ghost var sealed := Past();
      ChainPrefix(h, sealed);
      var begun := BeginRound(s, wave, reopened);
      QuietTwice(h, sealed, Past());
      step := if begun.Pass? then Rerun(wave) else Close("re-plan reset failed: " + begun.error);
    }

    /** The fallback: authorize the whole plan again and reset every task. */
    method RerunAll() returns (step: FleetStep)
      requires Drained() && round < cfg.maxReplans && round < |sigs|
      modifies this
      ensures IsSafe() && Quiet() && lastFailSig == old(lastFailSig) && tried == old(tried)
      ensures step.Rerun? ==> IsLive(step.wave, {}) && round == old(round) + 1
      ensures step.Rerun? ==> Reauthorized(News(), step.wave) && runId == News()[0].authorize.runId
      ensures step.Rerun? ==> RestartedFrom(cfg, old(St()), St(), step.wave, cfg.tasks)
      ensures step.Close? ==> Unauthorized(News(), step.reason) && IsOpen()
    {
      hide Safe, Live, RestartedFrom, LogOk, Grew, Unjudged, ConfigOk, StartOk, NewRound;
      ghost var h := Past();
      var w, reply := AskAuthorize();
      ghost var asked := Past();
      match reply {
        case Authorized(id, wave) =>
          var begun := Restart(w, id, wave);
          QuietTwice(h, asked, Past());
          step := if begun.Pass? then Rerun(wave) else Close("re-plan failed: " + begun.error);
        case Refused(reason) =>
          step := Close(
            "re-plan failed: " + ("spawn detached task `<re-plan>`: " + ("kernel refused re-authorize: " + reason)));
        case AuthorizeError(why) =>
          step := Close("re-plan failed: " + ("kernel advance: " + why));
      }
    }

    /** The whole plan was authorized again: under the new run id, every task starts over. */
    method Restart(w: World, id: string, wave: seq<TaskPlan>) returns (r: Outcome)
      requires Drained() && round < cfg.maxReplans && round < |sigs|
      requires Distinct(wave) && Ids(wave) <= world.planned && w == NewRound(world, wave, world.planned)
      modifies this
      ensures IsSafe() && IsOpen() && Quiet() && lastFailSig == old(lastFailSig) && tried == old(tried) && runId == id
      ensures log == if r.Pass? then old(log) else old(log) + [Fault(r.error)]
      ensures r.Pass? ==>
        IsLive(wave, {}) && round == old(round) + 1 && RestartedFrom(cfg, old(St()), St(), wave, cfg.tasks)
    {
      hide Safe, Live, RestartedFrom, LogOk, Grew, Unjudged, ConfigOk, StartOk, NewRound;
      ghost var s, h := St(), Past();
      RoundFacts(cfg, st, s, [], {});
      OpenRound(w, wave, cfg.tasks);
      RestampRun(id);
      ghost var stamped := Past();
      r := BeginRound(s, wave, cfg.tasks);
      QuietTwice(h, stamped, Past());
    }

    /** The run goes on under a new id. Best effort: it is written, the start time and the closing reason are kept. */
    method RestampRun(id: string)
      requires IsSafe()
      modifies this`runId, this`run, this`world, this`runFaults
      ensures IsSafe() && world == old(world).(disks := world.disks) && old(world.disks) <= world.disks
      ensures run == old(run) || (old(run).Some? && run == Some(old(run).value.(runId := id)))
      ensures old(runFaults) <= runFaults && Quiet() && runId == id
      ensures runFaults == old(runFaults) && run.Some? ==> run == Some(old(run).value.(runId := id))
    {
      hide Safe, LogOk, Grew, Unjudged;
      ghost var h := Past();
      runId := id;
      var meta := ReadRun();
      if meta.Some? {
        ghost var read := Past();
        WriteRun(meta.value.(runId := id));
        QuietTwice(h, read, Past());
      }
    }

    /** The integration command runs. */
    method RunIntegration(command: string) returns (result: AcceptanceResult)
      requires IsSafe() && cfg.globalAccept == Some(command)
      modifies this`log
      ensures IsSafe() && Quiet() && log == old(log) + [Integrated(command, round, lastFailSig, result)]
    {
      hide Safe;
      result := *;
      log := log + [Integrated(command, round, lastFailSig, result)];
    }

    /** The plan has drained: judge the round and decide whether the fleet goes on. A failing integration with re-plans
        left and a changed failure asks the kernel, once, and its answer decides; everything else closes the run. */
    method FinalizeRound() returns (step: FleetStep)
      requires Drained()
      modifies this
      ensures IsSafe() && Quiet()
      ensures JudgedAt(cfg, News(), old(round), old(lastFailSig)) && SealsRound(cfg, News(), tried[|old(tried)|..])
      ensures step.Rerun? ==> Reopens(cfg, News(), step.wave)
      ensures step.Rerun? ==> IsLive(step.wave, {}) && round == old(round) + 1 <= cfg.maxReplans
      ensures step.Rerun? ==>
        RestartedFrom(cfg, old(St()), St(), step.wave, StartedOver(cfg, News()[1..])) &&
        lastFailSig == Some(cfg.signature(News()[0].result.outputTail))
      ensures step.Close? ==> Closes(cfg, News(), step.reason) && IsOpen()
    {
      hide Safe, Live, Decimal, Signed, LogOk, RestartedFrom, Grew, Unjudged, ConfigOk, StartOk, CutDisks,
        Closes, Reopens, JudgedAt, SealsRound, Declines, Resumes, AsksAbout, Decision, SealsDecision, IsGlobal;
      ghost var h := Past();
      QuietSame(h);
      if cfg.globalAccept.None? {
        NothingJudged(cfg, h, round, lastFailSig);
        return Close("completed");
      }
      var command := cfg.globalAccept.value;
      ghost var s := St();
      var verdict := RunIntegration(command);
      ghost var ran, e := Past(), Integrated(command, round, lastFailSig, verdict);
      ghost var rec, n := JudgeRound(command, verdict);
      QuietTwice(h, ran, Past());
      ghost var judged := Past();
      RoundBounded([]);
      if verdict.Passed() {
        ClosedAtOnce(cfg, h, judged, e, rec, "converged");
        return Close("converged");
      }
      if round >= cfg.maxReplans {
        var reason := "integration failed: `" + command + "` exit " + Signed(verdict.exitCode) + " (after "
          + Decimal(round) + " re-plan(s))";
        ClosedAtOnce(cfg, h, judged, e, rec, reason);
        return Close(reason);
      }
      step := AfterFailure(verdict.outputTail);
      QuietTwice(h, judged, Past());
      LogPrefix(judged, Past());
      TriedPrefix(judged, Past());
      if Repeats(cfg, e) {
        ClosedAsRepeated(cfg, h, judged, Past(), e, rec, step.reason);
      } else {
        DecidedByKernel(cfg, h, judged, Past(), e, rec);
        if step.Rerun? {
          RestartedAfterPut(cfg, s, rec, n, St(), step.wave, StartedOver(cfg, News()[1..]));
        }
      }
    }

    /** The integration failed with re-plans left: stop if nothing changed, otherwise re-plan. */
    method AfterFailure(tail: string) returns (step: FleetStep)
      requires Drained() && round < cfg.maxReplans
      modifies this
      ensures IsSafe() && Quiet() && lastFailSig == Some(cfg.signature(tail))
      ensures old(lastFailSig) == Some(cfg.signature(tail)) ==>
        step == Close("oscillating: integration failure unchanged") && IsOpen() && log == old(log) &&
        SealsDecision(tried[|old(tried)|..], old(round), Some("give-up: no progress"))
      ensures old(lastFailSig) != Some(cfg.signature(tail)) ==>
        AsksAbout(News(), old(round), tail) &&
        SealsDecision(tried[|old(tried)|..], old(round), Decision(cfg, News())) &&
        match step
        case Rerun(wave) =>
          Resumes(News(), wave) && IsLive(wave, {}) && round == old(round) + 1 &&
          RestartedFrom(cfg, old(St()), St(), wave, StartedOver(cfg, News()))
        case Close(reason) => Declines(News(), reason) && IsOpen()
    {
      hide Safe, Live, LogOk, RestartedFrom, Grew, Unjudged, ConfigOk, StartOk, CutDisks,
        Declines, Resumes, AsksAbout, Decision;
      var sig := cfg.signature(tail);
      if lastFailSig == Some(sig) {
        ghost var _, _ := SealReplan("give-up: no progress");
        return Close("oscillating: integration failure unchanged");
      }
      ghost var s, h := St(), Past();
      NoteFailure(sig);
      step := ReplanRound(tail);
      LogPrefix(h, Past());
      if step.Rerun? {
        RestartedAfterNote(cfg, s, sig, St(), step.wave, StartedOver(cfg, News()));
      }
    }

    method JudgeRound(command: string, result: AcceptanceResult) returns (ghost rec: Record, ghost n: nat)
      requires Drained()
      modifies this`chain, this`seal, this`extents, this`world, this`tried
      ensures Drained() && SameRound(old(St()), St()) && Quiet() && St() == Put(cfg, old(St()), rec, n)
      ensures IsGlobal(rec, round, command, result) && tried == old(tried) + [rec]
    {
      hide Safe, Live, Grew, Unjudged, CutDisks;
      ghost var s := St();
      rec, n := SealGlobal(command, result);
      PutLive(cfg, st, s, [], {}, rec, n);
    }

    method NoteFailure(sig: string)
      requires Drained() && lastFailSig != Some(sig)
      modifies this`lastFailSig, this`sigs
      ensures Drained() && St() == Noted(old(St()), sig) && round < |sigs| && Past() == old(Past())
    {
      RoundCovered(cfg, st, St());
      hide Safe, Live, LogOk, ConfigOk, StartOk;
      ghost var s := St();
      NotedSafe(cfg, st, s, sig);
      NotedLive(cfg, st, s, [], {}, sig);
      lastFailSig := Some(sig);
      sigs := sigs + [sig];
      assert St() == Noted(s, sig);
    }

    /** Stamp the closing reason on the run, unless one is already there. */
    method CloseRun(reason: string)
      requires IsSafe()
      modifies this`run, this`world, this`log, this`runFaults
      ensures IsSafe() && world == old(world).(disks := world.disks) && old(world.disks) <= world.disks &&
        ClosedAs(old(run), run)
      ensures log == old(log) + [Closing(reason)] && old(runFaults) <= runFaults && Quiet()
      ensures run == old(run) || (old(run).Some? && run == Some(old(run).value.(closed := Some(reason))))
      ensures old(IsOpen()) ==> IsShut()
    {
      hide Safe;
      ghost var h := Past();
      log := log + [Closing(reason)];
      ghost var closing := Past();
      assert GrewQuietly(h, closing) && LogOk(cfg, log);
      hide LogOk, Grew, Unjudged;
      var meta := ReadRun();
      QuietTwice(h, closing, Past());
      if meta.Some? && meta.value.closed.None? {
        ghost var read := Past();
        WriteRun(meta.value.(closed := Some(reason)));
        QuietTwice(h, read, Past());
      }
    }

    // ---- Reporting to the kernel ----

    /** The report may be sent: it is true of the issue and of the chain. */
    ghost predicate MayReport(t: TaskId, outcome: TaskOutcome)
      reads this
    {
      t in issues && Counted(St()) && (Vetted(cfg, st, St(), t) ==> Settled(cfg, st, St(), t)) &&
      ReportOk(cfg, st, St(), Report(world.round, t, outcome, issues[t].meta.attempt))
    }

    /** The measure that makes wave processing terminate went down, or at least the rounds and releases did not go back.
        */
    twostate predicate Progress(new wave: seq<TaskPlan>)
      reads this
    {
      world.planned == old(world.planned) &&
      (old(round) < round <= cfg.maxReplans ||
       (round == old(round) &&
        if wave == [] then world.released == old(world.released)
        else |world.planned - world.released| < |old(world.planned) - old(world.released)|))
    }

    method Tell(t: TaskId, outcome: TaskOutcome, ghost q: seq<TaskPlan>) returns (reply: AdvanceReply)
      requires IsLive(q, {t}) && MayReport(t, outcome)
      modifies this`world, this`place, this`log
      ensures IsSafe() && world.planned == old(world.planned) && world.round == old(world.round)
      ensures log == old(log) + [AdvanceSaid(reply)] && ToldOnly(t, outcome, issues[t].meta.attempt)
      ensures reply.NextWave? ==> IsLive(q + reply.wave, {}) && Progress(reply.wave)
      ensures reply.Completed? ==> q == [] && Drained() && world.released == old(world.released)
    {
      hide Safe, Live, ConfigOk, StartOk, LogOk, Grew, Unjudged, GrewByReport, ReportOk, Vetted, Settled,
        AdvanceAllowed, Ids;
      var attempt := issues[t].meta.attempt;
      ghost var h, told := Past(), Reported(world, t, outcome, attempt);
      Reportable(cfg, st, St(), q, t, outcome, attempt);
      var w, answer := KernelAdvance(world, t, outcome, attempt);
      reply := answer;
      MarkTold(t, outcome, attempt, reply, q);
      if reply.NextWave? {
        WaveIsFresh(told, reply);
        QueueWave(w, reply.wave, q);
      } else if reply.Completed? {
        AllReported(told, reply);
        DrainedIsIdle(cfg, st, St(), q);
      }
    }

    /** The kernel has heard the outcome of the task in hand, and replied. */
    method MarkTold(t: TaskId, outcome: TaskOutcome, attempt: u32, ghost reply: AdvanceReply, ghost q: seq<TaskPlan>)
      requires IsLive(q, {t}) && MayReport(t, outcome) && attempt == issues[t].meta.attempt
      modifies this`world, this`place, this`log
      ensures IsLive(q, {}) && St() == Told1(old(St()), t, outcome, attempt)
      ensures log == old(log) + [AdvanceSaid(reply)] && ToldOnly(t, outcome, attempt)
    {
      hide Safe, Live, ConfigOk, StartOk, ReportOk;
      ghost var s := St();
      ReportLive(cfg, st, s, q, t, outcome, attempt);
      ToldSafe(cfg, st, s, t, outcome, attempt);
      world := Reported(world, t, outcome, attempt);
      place := place[t := Told];
      log := log + [AdvanceSaid(reply)];
      assert St() == Told1(s, t, outcome, attempt);
    }

    /** The wave the kernel released is queued. */
    method QueueWave(w: World, wave: seq<TaskPlan>, ghost q: seq<TaskPlan>)
      requires IsLive(q, {}) && w == Released(world, wave) && FreshWave(world, wave)
      modifies this`world, this`place
      ensures IsLive(q + wave, {}) && Past() == old(Past()) && world.round == old(world.round) && Progress(wave)
    {
      hide Safe, Live, ConfigOk, StartOk, LogOk, FreshWave;
      ghost var s := St();
      WaveLive(cfg, st, s, q, wave);
      WaveSafe(cfg, st, s, wave);
      if wave != [] {
        WaveShrinks(world, wave);
      }
      world := w;
      place := WaveQueued(s, wave).place;
      assert St() == WaveQueued(s, wave);
    }

    /** Report an outcome and turn the kernel's verdict into more work or a stop. */
    method Advance(t: TaskId, outcome: TaskOutcome, ghost q: seq<TaskPlan>) returns (r: Result<Advanced>)
      requires IsLive(q, {t}) && MayReport(t, outcome)
      modifies this
      ensures IsSafe() && ToldOnly(t, outcome, old(issues[t].meta.attempt))
      ensures r.Ok? && r.value.Wave? ==> IsLive(q + r.value.wave, {}) && Progress(r.value.wave)
      ensures r.Ok? ==> RuledOn(t, if r.value.Wave? then Some(r.value.wave) else None)
      ensures r.Err? ==> FailedWith(r.error)
    {
      hide Safe, Live, LogOk, ClosesRun, Reopens, Ruled, Stops, Grew, Unjudged, ConfigOk, StartOk, ReportOk,
        AdvanceAllowed, FailsAt, Ids;
      ghost var h, report := Past(), Report(world.round, t, outcome, issues[t].meta.attempt);
      var reply := Tell(t, outcome, q);
      ghost var told := Past();
      if reply.NextWave? {
        RuledNext(cfg, t, h.log, reply.wave);
        r := Ok(Wave(reply.wave));
      } else if reply.Completed? {
        r := AfterDrain();
        ReportThenQuiet(h, told, Past(), report);
        LogPrefix(told, Past());
        if r.value.Wave? {
          RuledDrained(cfg, t, h.log, log, r.value.wave);
        } else {
          RuledClosed(cfg, t, h.log, log);
        }
        assert r.value.Wave? ==> q + r.value.wave == r.value.wave;
      } else {
        r := CloseOn(reply, t);
        LogPrefix(told, Past());
        if r.Ok? {
          RuledStop(cfg, t, log[|h.log|..]);
        }
        ReportThenQuiet(h, told, Past(), report);
      }
    }

    /** The kernel will not go on. */
    method CloseOn(reply: AdvanceReply, t: TaskId) returns (r: Result<Advanced>)
      requires IsSafe() && IsOpen() && FreshReply(reply) && !reply.NextWave? && !reply.Completed?
      modifies this`run, this`world, this`log, this`runFaults
      ensures IsSafe() && Quiet()
      ensures r.Ok? ==>
        r.value.Halt? && IsShut() && |log| == |old(log)| + 1 && Stops(cfg, t, log[|old(log)| - 1..])
      ensures r.Err? ==> log == old(log) && IsOpen() && FailsAt(log, r.error)
    {
      hide Safe, LogOk, Grew, Unjudged;
      QuietSame(Past());
      match reply {
        case Paused(failed) => CloseRun("paused: " + FirstOr(failed, t));
        case Aborted(failed) => CloseRun("aborted: " + failed);
        case Unfolded(reason) => CloseRun("kernel: " + reason);
        case AdvanceError(why) => return Err("kernel advance: " + why);
      }
      r := Ok(Halt);
    }

    /** The kernel has just said this. */
    ghost predicate FreshReply(reply: AdvanceReply)
      reads this
    {
      log != [] && log[|log| - 1] == AdvanceSaid(reply)
    }

    method AfterDrain() returns (r: Result<Advanced>)
      requires Drained()
      modifies this
      ensures IsSafe() && r.Ok? && Quiet()
      ensures r.value.Wave? ==>
        IsLive(r.value.wave, {}) && world.planned == old(world.planned) &&
        round == old(round) + 1 <= cfg.maxReplans && Reopens(cfg, News(), r.value.wave)
      ensures r.value.Halt? ==>
        IsShut() && ClosesRun(cfg, News())
    {
      hide Safe, Live, LogOk, Closes, ClosesRun, Reopens, Grew, Unjudged, ConfigOk, StartOk, JudgedAt, SealsRound,
        RestartedFrom;
      ghost var h := Past();
      var step := FinalizeRound();
      LogPrefix(h, Past());
      match step {
        case Close(reason) =>
          ghost var judged := Past();
          ClosesRunBy(cfg, h.log, log, reason);
          CloseRun(reason);
          QuietTwice(h, judged, Past());
          r := Ok(Halt);
        case Rerun(wave) =>
          r := Ok(Wave(wave));
      }
    }

    // ---- Waves ----

    method FastForward(t: TaskId, outcome: TaskOutcome, ghost rest: seq<TaskPlan>) returns (r: Result<Step>)
      requires IsLive(rest, {t}) && MayReport(t, outcome)
      modifies this
      ensures IsSafe() && ToldOnly(t, outcome, old(issues[t].meta.attempt))
      ensures Stepped(r, t, rest) && r != Ok(Proceed)
    {
      hide Safe, Live, LogOk, Ruled, Grew, Unjudged, ConfigOk, StartOk, FailsAt;
      var advanced := Advance(t, outcome, rest);
      match advanced {
        case Err(e) => r := Err(e);
        case Ok(Wave(wave)) => r := Ok(Cascade(wave));
        case Ok(Halt) => r := Ok(Stop);
      }
    }

    /** A task already settled on disk: take it in hand and report it as it is. */
    method ReportSettled(plan: TaskPlan, issue: Issue, ghost rest: seq<TaskPlan>) returns (r: Result<Step>)
      requires IsLive([plan] + rest, {}) && plan.taskId in issues && issues[plan.taskId] == issue
      requires Terminal(issue.meta.status)
      modifies this
      ensures IsSafe() && ToldOnly(plan.taskId, SettledOutcome(issue), issue.meta.attempt)
      ensures Stepped(r, plan.taskId, rest) && r != Ok(Proceed)
    {
      hide Safe, Live, Since, Trusted, HasVerdict, LogOk, Ruled, Grew, Unjudged, ConfigOk, StartOk, FailsAt;
      var t := plan.taskId;
      var outcome := OutcomeDone(issue.meta.id + ".md");
      if issue.meta.status.Failed? {
        outcome := OutcomeFailed(issue.response.GetOr("failed"));
      } else if issue.meta.status.Rejected? {
        outcome := OutcomeFailed("acceptance oracle rejected after max attempts");
      }
      TakeInHand(plan, rest);
      SettledMayReport(t, outcome, rest);
      r := FastForward(t, outcome, rest);
    }

    method TakeInHand(plan: TaskPlan, ghost rest: seq<TaskPlan>)
      requires IsLive([plan] + rest, {}) && plan.taskId in issues && !issues[plan.taskId].meta.status.Pending?
      modifies this`place
      ensures IsLive(rest, {plan.taskId}) && St() == HeadTaken(old(St()), plan.taskId) && Past() == old(Past())
      ensures world.round == 0 ==> plan.taskId in st.issues && st.issues[plan.taskId] == issues[plan.taskId]
      ensures st.isNew ==> Settled(cfg, st, St(), plan.taskId)
      ensures Vetted(cfg, st, St(), plan.taskId) ==>
        Undecided(st, issues[plan.taskId].meta) ||
        Settled(cfg, st, St(), plan.taskId)
    {
      hide Safe, Live, LogOk;
      ghost var s := St();
      TakeHead(cfg, st, s, plan, rest);
      SafeFrame(cfg, st, s, HeadTaken(s, plan.taskId));
      place := place[plan.taskId := InHand];
      assert St() == HeadTaken(s, plan.taskId);
    }

    lemma SettledMayReport(t: TaskId, outcome: TaskOutcome, rest: seq<TaskPlan>)
      requires IsLive(rest, {t}) && t in issues && outcome == SettledOutcome(issues[t])
      requires Terminal(issues[t].meta.status) || issues[t].meta.status.Verifying?
      requires world.round == 0 ==> t in st.issues && st.issues[t] == issues[t]
      requires Vetted(cfg, st, St(), t) ==> Settled(cfg, st, St(), t)
      ensures MayReport(t, outcome)
    {
      hide Safe, Live, LogOk;
      RoundFacts(cfg, st, St(), rest, {t});
      SettledReport(cfg, st, St(), rest, t, outcome);
    }

    /** What becomes of a task that has run before: a settled one is reported as it is, one under judgement goes back to
        its oracle, and one that was running is adopted or reported. Nothing is spawned. */
    twostate predicate Reconciled(new t: TaskId, new step: Step)
      requires t in old(issues)
      reads this
    {
      var issue := old(issues[t]);
      if issue.meta.status.Spawned? then
        if step.Proceed? then
          issue.meta.jobId.Some? && St() == Adopted(old(St()), t, issue.meta.jobId.value) && log == old(log)
        else
          |world.sent| == |old(world.sent)| + 1 &&
          ToldOnly(t, world.sent[|old(world.sent)|].outcome, issue.meta.attempt)
      else if issue.meta.status.Verifying? && t in cfg.accept then
        step.Proceed? && log == old(log) + [OracleStarted(t, issue.meta.attempt, cfg.accept[t].command)] &&
        St() == Launched(Wrote(cfg, HeadTaken(old(St()), t), AsVerifying(issue)), t, issue.meta.attempt)
      else !step.Proceed? && ToldOnly(t, SettledOutcome(issue), issue.meta.attempt)
    }

    /** Reconcile one released task with its issue on disk. */
    method ProcessOne(plan: TaskPlan, ghost rest: seq<TaskPlan>)
      returns (r: Result<Step>, ghost job: Job, ghost deps: seq<DepContext>)
      requires IsLive([plan] + rest, {})
      modifies this
      ensures IsSafe() && Extends()
      ensures r.Ok? && Unstarted(old(issues), plan.taskId) ==>
        r.value.Proceed? && DepsOf(old(issues), plan.dependsOn, deps) && log == old(log) &&
        St() == JobRouted(cfg, old(St()), job, SpawnedIssue(plan, job.id, Composed(plan.body, deps)))
      ensures r.Ok? && !Unstarted(old(issues), plan.taskId) ==> Reconciled(plan.taskId, r.value)
      ensures Stepped(r, plan.taskId, rest)
    {
      hide Safe, Live, LogOk, Ruled, Grew, Unjudged, ConfigOk, StartOk, FailsAt;
      job, deps := *, *;
      var read := ReadIssue(plan.taskId);
      if read.Err? {
        return Err(read.error), job, deps;
      }
      if read.value.None? || read.value.value.meta.status.Pending? {
        var spawned, j, ds := SpawnOne(plan, rest);
        return if spawned.Pass? then Ok(Proceed) else Err(spawned.error), j, ds;
      }
      var issue := read.value.value;
      if issue.meta.status.Spawned? {
        var done, _, _ := ReconcileSpawned(plan, issue, rest);
        r := done;
      } else if issue.meta.status.Verifying? {
        r := ReconcileVerifying(plan, issue, rest);
      } else {
        r := ReportSettled(plan, issue, rest);
      }
    }

    /** On resume: the response was captured but the verdict never landed. */
    method ReconcileVerifying(plan: TaskPlan, issue: Issue, ghost rest: seq<TaskPlan>) returns (r: Result<Step>)
      requires IsLive([plan] + rest, {}) && plan.taskId in issues && issues[plan.taskId] == issue &&
        issue.meta.status.Verifying?
      modifies this
      ensures IsSafe() && Extends() && (r.Ok? ==> Reconciled(plan.taskId, r.value))
      ensures Stepped(r, plan.taskId, rest)
    {
      hide Safe, Live, LogOk, Ruled, Grew, Unjudged, ConfigOk, StartOk, FailsAt;
      TakeInHand(plan, rest);
      if plan.taskId in cfg.accept {
        var launched := LaunchOracle(plan.taskId, rest);
        r := if launched.Pass? then Ok(Proceed) else Err(launched.error);
      } else {
        var outcome := OutcomeDone(issue.meta.id + ".md");
        SettledMayReport(plan.taskId, outcome, rest);
        r := FastForward(plan.taskId, outcome, rest);
      }
    }

    /** On resume: fold in a captured response, or adopt the live job, or fail the lost one. */
    method ReconcileSpawned(plan: TaskPlan, issue: Issue, ghost rest: seq<TaskPlan>)
      returns (r: Result<Step>, ghost captured: Option<FinalResponse>, ghost alive: bool)
      requires IsLive([plan] + rest, {}) && plan.taskId in issues && issues[plan.taskId] == issue &&
        issue.meta.status.Spawned?
      modifies this
      ensures IsSafe() && Extends() && (r.Ok? ==> Reconciled(plan.taskId, r.value))
      ensures Stepped(r, plan.taskId, rest)
      ensures r.Ok? && issue.meta.jobId.Some? && captured.Some? ==>
        ToldOnly(plan.taskId, OutcomeOf(captured.value), issue.meta.attempt) &&
        old(world.heard) + [Heard(issue.meta.jobId.value, plan.taskId, captured.value)] <= world.heard
      ensures r.Ok? && issue.meta.jobId.Some? && captured.None? && alive ==> r.value.Proceed?
      ensures r.Ok? && (issue.meta.jobId.None? || (captured.None? && !alive)) ==>
        ToldOnly(plan.taskId, OutcomeFailed("lost on restart"), issue.meta.attempt)
    {
      hide Safe, Live, LogOk, Ruled, Grew, Unjudged, ConfigOk, StartOk, FailsAt;
      captured, alive := None, false;
      var t := plan.taskId;
      TakeInHand(plan, rest);
      if issue.meta.jobId.Some? {
        var latest, listed := PollJob(issue.meta.jobId.value);
        captured, alive := latest, listed;
        if latest.Some? {
          r := Recover(t, issue.meta.jobId.value, latest.value, rest);
          return;
        }
        if listed {
          Adopt(t, issue.meta.jobId.value, rest);
          GrewSame(Past());
          assert place == old(place)[t := Running(issue.meta.jobId.value)];
          return Ok(Proceed), captured, alive;
        }
      }
      r := FailLost(t, issue, rest);
    }

    /** What the daemon has of a job: its last response, and whether it is listed as running. */
    method PollJob(j: JobId) returns (latest: Option<FinalResponse>, listed: bool) {
      latest, listed := *, *;
    }

    method Recover(t: TaskId, j: JobId, ev: FinalResponse, ghost rest: seq<TaskPlan>) returns (r: Result<Step>)
      requires IsLive(rest, {t}) && OpenAtStart(st, world.round, t) && !st.isNew
      requires t in issues && issues[t].meta.status.Spawned? && issues[t].meta.jobId == Some(j)
      requires Vetted(cfg, st, St(), t) ==> !st.seal.Readable()
      modifies this
      ensures IsSafe() && Extends()
      ensures r.Ok? ==> ToldOnly(t, OutcomeOf(ev), old(issues[t].meta.attempt))
      ensures r.Ok? ==> old(world.heard) + [Heard(j, t, ev)] <= world.heard
      ensures Stepped(r, t, rest) && r != Ok(Proceed)
    {
      hide Safe, Live, LogOk, Ruled, Grew, Unjudged, ConfigOk, StartOk, FailsAt;
      ghost var h, report := Past(), Report(world.round, t, OutcomeOf(ev), issues[t].meta.attempt);
      HearCaptured(t, j, ev, rest);
      ghost var heard := Past();
      if seal.Readable() {
        SealGrew(cfg, st, St());
      }
      var outcome, rec := Absorb(t, ev, rest);
      QuietTwice(h, heard, Past());
      ghost var absorbed := Past();
      if outcome.Err? {
        return Err(outcome.error);
      }
      OpenMayReport(t, outcome.value, rest);
      r := FastForward(t, outcome.value, rest);
      QuietThenReport(h, absorbed, Past(), report);
      HeardPrefix(absorbed, Past());
    }

    /** A captured response of the job of the task in hand is taken in. */
    method HearCaptured(t: TaskId, j: JobId, ev: FinalResponse, ghost rest: seq<TaskPlan>)
      requires IsLive(rest, {t}) && !st.isNew
      requires t in issues && issues[t].meta.status.Spawned? && issues[t].meta.jobId == Some(j)
      modifies this`world
      ensures IsLive(rest, {t}) && St() == HeardOf(old(St()), t, j, ev) && JustHeard(St(), t, ev) && Quiet()
    {
      hide Safe, Live, LogOk;
      ghost var s := St();
      HandFacts(cfg, st, s, rest, t);
      JobsKnown(cfg, st, s, rest, {t});
      HeardSafe(cfg, st, s, t, j, ev);
      HeardLive(cfg, st, s, rest, t, j, ev);
      world := world.(heard := world.heard + [Heard(j, t, ev)]);
    }

    method FailLost(t: TaskId, issue: Issue, ghost rest: seq<TaskPlan>) returns (r: Result<Step>)
      requires IsLive(rest, {t}) && !st.isNew && OpenAtStart(st, world.round, t) && t in issues && issues[t] == issue
      modifies this
      ensures IsSafe() && Extends()
      ensures r.Ok? ==> ToldOnly(t, OutcomeFailed("lost on restart"), issue.meta.attempt)
      ensures r.Ok? ==>
        StoredFirst(|old(world.disks)|, old(issues)[t := cfg.reread(
          issue.(meta := issue.meta.(status := Failed), response := Some("lost on restart")))])
      ensures Stepped(r, t, rest) && r != Ok(Proceed)
    {
      hide Safe, Live, LogOk, Ruled, AnswerOk, Grew, Unjudged, ConfigOk, StartOk, FailsAt;
      ghost var h, report := Past(), Report(world.round, t, OutcomeFailed("lost on restart"), issue.meta.attempt);
      HandFacts(cfg, st, St(), rest, t);
      var lost := issue.(meta := issue.meta.(status := Failed), response := Some("lost on restart"));
      AnswerNone(cfg, st, world.jobs, world.heard, lost);
      var outcome := StoreInHand(t, lost, rest, OutcomeFailed("lost on restart"));
      ghost var stored := Past();
      if outcome.Err? {
        return Err(outcome.error);
      }
      OpenMayReport(t, outcome.value, rest);
      r := FastForward(t, outcome.value, rest);
      QuietThenReport(h, stored, Past(), report);
      DisksPrefix(stored, Past());
    }

    lemma OpenMayReport(t: TaskId, outcome: TaskOutcome, rest: seq<TaskPlan>)
      requires IsLive(rest, {t}) && OpenAtStart(st, world.round, t) && t in issues
      requires Vetted(cfg, st, St(), t) ==> Settled(cfg, st, St(), t)
      requires outcome.OutcomeDone? && t in cfg.accept && Trusted(st, world.resets, t, world.round) ==>
        HasVerdict(chain, Since(st, world.resets, marks, t, world.round), t, issues[t].meta.attempt, true)
      ensures MayReport(t, outcome)
    {
      hide Safe, Live, Since, Trusted, HasVerdict, LogOk;
      RoundFacts(cfg, st, St(), rest, {t});
      OpenReport(cfg, st, St(), rest, t, outcome);
    }

    method Adopt(t: TaskId, j: JobId, ghost rest: seq<TaskPlan>)
      requires IsLive(rest, {t}) && !st.isNew && OpenAtStart(st, world.round, t)
      requires t in issues && issues[t].meta.status.Spawned? && issues[t].meta.jobId == Some(j)
      modifies this`jobToTask, this`place
      ensures IsLive(rest, {}) && St() == Adopted(old(St()), t, j) && Past() == old(Past())
    {
      hide Safe, Live, LogOk;
      ghost var s := St();
      AdoptLive(cfg, st, s, rest, t, j);
      SafeFrame(cfg, st, s, Adopted(s, t, j));
      jobToTask := jobToTask[j := t];
      place := place[t := Running(j)];
      assert St() == Adopted(s, t, j);
    }

    lemma RoundBounded(q: seq<TaskPlan>)
      requires IsLive(q, {})
      ensures round <= cfg.maxReplans
    {
    }

    /** Drive a wave, feeding back whatever fast-forwarding releases. Terminates for every kernel that meets its
        contract. The actor goes on when the wave and every plan released meanwhile has been processed, in that order,
        and otherwise ends: on an error, or on a reply of the kernel's after which the run is closed. */
    method ProcessWave(wave: seq<TaskPlan>)
      returns (r: Result<Flow>, ghost done: seq<TaskPlan>, ghost more: seq<TaskPlan>)
      requires IsLive(wave, {})
      modifies this
      ensures IsSafe() && Extends() && Flowed(r)
      ensures r == Ok(GoOn) ==> Waves(log) == Waves(old(log)) + more && done == wave + more
    {
      hide Safe, Live, LogOk, Ruled, Waves, Halted, Grew, Unjudged, SameRound, ConfigOk, StartOk, FailsAt;
      RoundBounded(wave);
      ghost var h := Past();
      GrewSame(h);
      var queue := wave;
      done, more := [], [];
      while queue != []
        invariant IsLive(queue, {}) && round <= cfg.maxReplans && Grew(h, Past()) && |h.log| <= |log|
        invariant Waves(log) == Waves(h.log) + more && done + queue == wave + more
        decreases cfg.maxReplans - round, |world.planned - world.released|, |queue|
      {
        var plan, rest := queue[0], queue[1..];
        assert [plan] + rest == queue;
        ghost var h1 := Past();
        var step, _, _ := ProcessOne(plan, rest);
        GrewTwice(h, h1, Past());
        LogPrefix(h1, Past());
        if step.Err? {
          return Err(step.error), done, more;
        }
        match step.value {
          case Proceed =>
            SameWaves(h1.log, log);
            Fed(done, plan, rest, [], wave, more);
            done, queue := done + [plan], rest;
          case Cascade(released) =>
            RuledWave(cfg, plan.taskId, h1.log, log[|h1.log|..], released);
            Fed(done, plan, rest, released, wave, more);
            WavesGrow(h.log, more, released);
            assert h1.log + log[|h1.log|..] == log;
            done, queue, more := done + [plan], rest + released, more + released;
          case Stop =>
            StoppedHalts(plan.taskId, h1.log);
            return Ok(Finished), done, more;
        }
      }
      r := Ok(GoOn);
    }

    lemma StoppedHalts(t: TaskId, before: seq<Event>)
      requires before <= log && Ruled(cfg, t, log[|before|..], None)
      ensures forall from :: 0 <= from <= |before| ==> Halted(cfg, log, from)
    {
      HaltedBy(cfg, log, |before|);
    }

    // ---- Messages ----

    method AdvanceIntoFlow(t: TaskId, outcome: TaskOutcome) returns (r: Result<Flow>)
      requires IsLive([], {t}) && MayReport(t, outcome)
      modifies this
      ensures IsSafe() && FirstTold(t, outcome, old(issues[t].meta.attempt))
      ensures Flowed(r)
    {
      hide Safe, Live, LogOk, Ruled, Waves, Halted, Grew, Unjudged, ConfigOk, StartOk, FailsAt;
      ghost var h := Past();
      ghost var before := log;
      var advanced := Advance(t, outcome, []);
      ghost var told := Past();
      LogPrefix(h, told);
      match advanced {
        case Err(e) => r := Err(e);
        case Ok(Halt) =>
          StoppedHalts(t, before);
          r := Ok(Finished);
        case Ok(Wave(wave)) =>
          assert [] + wave == wave;
          ghost var mid := log;
          var flow, _, _ := ProcessWave(wave);
          r := flow;
          GrewTwice(h, told, Past());
          SentPrefix(told, Past());
          if r == Ok(Finished) {
            HaltedSooner(cfg, log, |mid|, |before|);
          }
      }
    }

    method HandleResponse(t: TaskId, ev: FinalResponse) returns (r: Result<Flow>, ghost rec: Record)
      requires IsLive([], {t}) && OpenAtStart(st, world.round, t) && JustHeard(St(), t, ev)
      modifies this
      ensures IsSafe() && Extends()
      ensures r.Ok? && ev.path.Some? ==> IsOutput(rec, t, old(issues[t].meta.agent), ev.sha, ev.path.value)
      ensures r.Ok? && (ev.path.None? || t !in cfg.accept) ==>
        FirstTold(t, OutcomeOf(ev), old(issues[t].meta.attempt)) &&
        var sealed := if ev.path.Some? then Appended(cfg, old(St()), rec) else old(St());
        StoredFirst(|sealed.w.disks|, old(issues)[t := cfg.reread(Absorbed(old(issues[t]), ev, rec.hash))])
      ensures r.Ok? && ev.path.Some? && t in cfg.accept ==>
        r.value.GoOn? && log == old(log) + [OracleStarted(t, old(issues[t].meta.attempt), cfg.accept[t].command)] &&
        St() == Launched(Wrote(cfg, Wrote(cfg, Appended(cfg, old(St()), rec), Absorbed(old(issues[t]), ev, rec.hash)),
                               AsVerifying(cfg.reread(Absorbed(old(issues[t]), ev, rec.hash)))), t,
                                 old(issues[t].meta.attempt))
      ensures Flowed(r)
    {
      hide Safe, Live, LogOk, Halted, CutDisks, Grew, Unjudged, ConfigOk, StartOk, FailsAt;
      ghost var h := Past();
      rec := *;
      var outcome, output := Absorb(t, ev, []);
      rec := output;
      ghost var absorbed := Past();
      if outcome.Err? {
        return Err(outcome.error), rec;
      }
      if outcome.value.OutcomeDone? && t in cfg.accept {
        var launched := LaunchOracle(t, []);
        GrewTwice(h, absorbed, Past());
        return if launched.Pass? then Ok(GoOn) else Err(launched.error), rec;
      }
      OpenMayReport(t, outcome.value, []);
      r := AdvanceIntoFlow(t, outcome.value);
      GrewTwice(h, absorbed, Past());
      DisksPrefix(absorbed, Past());
    }

    /** A final response landed for some job; only a routed job's response does anything. */
    method OnResponse(ev: FinalResponse) returns (flow: Flow)
      requires IsLive([], {})
      modifies this
      ensures IsSafe() && Extends()
      ensures flow.GoOn? ==> IsLive([], {}) && AnsweredBy(cfg, old(St()), St(), ev)
      ensures flow.Finished? ==> Ended()
      ensures ev.jobId !in old(jobToTask) ==> flow.GoOn? && St() == old(St()) && log == old(log)
    {
      hide Safe, Live, LogOk, Halted, Grew, Unjudged, ConfigOk, StartOk, FailsAt;
      ghost var h := Past();
      GrewSame(h);
      if ev.jobId !in jobToTask {
        return GoOn;
      }
      var t := RouteResponse(ev);
      ghost var routed := Past();
      var handled, _ := HandleResponse(t, ev);
      GrewTwice(h, routed, Past());
      HeardPrefix(routed, Past());
      ghost var answered := Past();
      if handled.Err? {
        flow := Teardown("response `" + t + "`: ", handled.error);
        GrewTwice(h, answered, Past());
        return;
      }
      flow := handled.value;
    }

    /** The route of a finished job is removed, so a second response for it finds none. */
    method RouteResponse(ev: FinalResponse) returns (t: TaskId)
      requires IsLive([], {}) && ev.jobId in jobToTask
      modifies this`jobToTask, this`place, this`world
      ensures t == old(jobToTask)[ev.jobId] && IsLive([], {t}) && St() == JobTaken(old(St()), ev)
      ensures OpenAtStart(st, world.round, t) && ev.jobId !in jobToTask && JustHeard(St(), t, ev) && Quiet()
    {
      hide Safe, Live, LogOk;
      ghost var s := St();
      TakeJob(cfg, st, s, ev);
      JobTakenSafe(cfg, st, s, ev);
      t := jobToTask[ev.jobId];
      jobToTask := jobToTask - {ev.jobId};
      world := world.(heard := world.heard + [Heard(ev.jobId, t, ev)]);
      place := place[t := InHand];
      assert St() == JobTaken(s, ev);
    }

    /** An error ends the run: it is closed with it. */
    method Teardown(where: string, error: string) returns (flow: Flow)
      requires IsSafe() && IsOpen() && FailsAt(log, error)
      modifies this`run, this`world, this`log, this`runFaults
      ensures IsSafe() && flow.Finished? && IsShut() && Quiet()
      ensures forall from :: 0 <= from < |old(log)| ==> Halted(cfg, log, from)
    {
      hide Safe, LogOk, Grew, Unjudged;
      ghost var k := |log| - 1;
      CloseRun(where + error);
      assert TornDown(log[k..], where);
      HaltedBy(cfg, log, k);
      flow := Finished;
    }

    method OnAbort() returns (flow: Flow)
      requires IsSafe() && IsOpen()
      modifies this`run, this`world, this`log, this`runFaults
      ensures IsSafe() && flow.Finished? && Ended() && Quiet()
    {
      hide Safe, ConfigOk, StartOk;
      ghost var h := Past();
      log := log + [AbortSaid];
      ghost var told := Past();
      assert GrewQuietly(h, told) && LogOk(cfg, log);
      hide Grew, Unjudged, LogOk;
      CloseRun("cancelled");
      QuietTwice(h, told, Past());
      assert log[|old(log)|..] == [AbortSaid, Closing("cancelled")];
      HaltedBy(cfg, log, |old(log)|);
      flow := Finished;
    }

    /** A verdict that no oracle of the current attempt can have sent. */
    predicate Stale(t: TaskId, attempt: u32)
      reads this
    {
      t !in cfg.accept || t !in issues || issues[t].meta.attempt != attempt
    }

    method OnVerdict(t: TaskId, attempt: u32, result: AcceptanceResult) returns (flow: Flow)
      requires IsLive([], {}) && ((t, attempt as nat) in world.inflight || Stale(t, attempt))
      modifies this
      ensures IsSafe() && Extends()
      ensures flow.GoOn? ==> IsLive([], {}) && JudgedBy(cfg, old(St()), St(), t, attempt, result)
      ensures flow.Finished? ==> Ended()
      ensures old(Stale(t, attempt)) && flow.GoOn? ==> St() == old(St())
    {
      hide Safe, Live, LogOk, Halted, CutDisks, RetryBody, Reprompted, IsVerdictOf, Grew, Unjudged, ConfigOk,
        StartOk, FailsAt;
      ghost var h := Past();
      ghost var s := St();
      var handled, rec, job := HandleVerdict(t, attempt, result);
      ghost var judged := Past();
      SentPrefix(h, judged);
      if handled.Err? {
        flow := Teardown("verdict `" + t + "`: ", handled.error);
        GrewTwice(h, judged, Past());
        return;
      }
      if (t, attempt as nat) in s.w.inflight && !result.Passed() && attempt + 1 < cfg.accept[t].maxAttempts {
        RetryReprompts(cfg, s.issues[t], WithVerdict(s.issues[t], rec.hash), job.id, cfg.accept[t].command,
          result.outputTail);
      }
      flow := handled.value;
    }

    /** A stale verdict changes nothing. A current one is sealed; then a pass is reported as done, a failure with
        attempts left is retried without a word to the kernel, and the last failure is reported. */
    method HandleVerdict(t: TaskId, attempt: u32, result: AcceptanceResult)
      returns (r: Result<Flow>, ghost rec: Record, ghost job: Job)
      requires IsLive([], {}) && ((t, attempt as nat) in world.inflight || Stale(t, attempt))
      modifies this
      ensures IsSafe() && Extends()
      ensures Flowed(r)
      ensures old(Stale(t, attempt)) ==> St() == old(St()) && (r.Ok? ==> r.value.GoOn? && log == old(log))
      ensures !old(Stale(t, attempt)) && r.Ok? ==>
        Judged(VerdictTaken(old(St()), t, attempt), t, attempt, result, rec, job)
      ensures (t, attempt as nat) in old(world.inflight) ==> !old(Stale(t, attempt)) && old(issues[t].meta.id) == t
    {
      hide Safe, Live, LogOk, Halted, Grew, Unjudged, ConfigOk, StartOk, FailsAt;
      GrewSame(Past());
      ghost var h := Past();
      rec, job := *, *;
      if (t, attempt as nat) in world.inflight {
        TakeVerdict(cfg, st, St(), t, attempt);
        HandFacts(cfg, st, VerdictTaken(St(), t, attempt), [], t);
      }
      if t !in cfg.accept {
        return Ok(GoOn), rec, job;
      }
      var read := ReadIssue(t);
      if read.Err? {
        return Err(read.error), rec, job;
      }
      if read.value.None? {
        ghost var read1 := Past();
        NoteVanished(t);
        GrewTwice(h, read1, Past());
        return Err("spawn detached task `" + t + "`: issue vanished before its verdict"), rec, job;
      }
      var issue := read.value.value;
      if issue.meta.attempt != attempt {
        return Ok(GoOn), rec, job;
      }
      ConsumeVerdict(t, attempt);
      r, rec, job := JudgeTask(t, issue, attempt, result);
    }

    /** What a current verdict leads to, from the state `s` in which its task is in hand: it is sealed, and then
        decides. */
    twostate predicate Judged(new s: State, new t: TaskId, new attempt: nat, new result: AcceptanceResult,
      new rec: Record,
      new job: Job)
      reads this
    {
      t in cfg.accept && t in s.issues && s.issues[t].meta.attempt == attempt &&
        IsVerdictOf(rec, t, s.issues[t].meta.agent, attempt, cfg.accept[t].command, result) &&
      Concluded(Appended(cfg, s, rec), t, attempt, WithVerdict(s.issues[t], rec.hash), result, job)
    }

    /** What a sealed verdict leads to: a pass is stored and reported as done, a failure with attempts left is stored
        and the next attempt started, and the last failure is stored and reported. */
    twostate predicate Concluded(new s: State, new t: TaskId, new attempt: nat, new issue: Issue,
      new result: AcceptanceResult, new job: Job)
      reads this
    {
      t in cfg.accept && issue.meta.attempt == attempt &&
      var spec := cfg.accept[t];
      if result.Passed() then
        StoredFirst(|s.w.disks|, s.issues[t := cfg.reread(issue.(meta := issue.meta.(status := Verified)))]) &&
        FirstTold(t, OutcomeDone(issue.meta.id + ".md"), attempt)
      else if attempt + 1 < spec.maxAttempts then
        job.task == t && job.agent == issue.meta.agent && job.attempt == attempt + 1 &&
        St() == JobRouted(cfg, Wrote(cfg, s, issue), job,
                          RetryIssue(issue, job.id,
                            RetryBody(issue.prompt, spec.command, result.outputTail, attempt + 1)))
      else
        StoredFirst(|s.w.disks|, s.issues[t := cfg.reread(issue.(meta := issue.meta.(status := Rejected)))]) &&
        FirstTold(t, OutcomeFailed(RejectReason(spec.command, attempt + 1, result.exitCode)), attempt)
    }

    method ConsumeVerdict(t: TaskId, attempt: u32)
      requires IsLive([], {}) && (t, attempt as nat) in world.inflight
      modifies this`world, this`place
      ensures IsLive([], {t}) && St() == VerdictTaken(old(St()), t, attempt) && OpenAtStart(st, world.round, t)
      ensures t in issues && issues[t].meta.status.Verifying? && Past() == old(Past())
    {
      hide Safe, Live, LogOk;
      ghost var s := St();
      TakeVerdict(cfg, st, s, t, attempt);
      SafeFrame(cfg, st, s, VerdictTaken(s, t, attempt));
      world := world.(inflight := world.inflight - {(t, attempt as nat)});
      place := place[t := InHand];
      assert St() == VerdictTaken(s, t, attempt);
    }

    /** Why a task is reported as failed after its last attempt. */
    method Exhausted(command: string, attempts: nat, exitCode: i32) returns (reason: string)
      ensures reason == RejectReason(command, attempts, exitCode)
    {
      reason := "acceptance `" + command + "` failed after " + Decimal(attempts) + " attempt(s) (exit "
        + Signed(exitCode) + ")";
    }

    /** Seal the verdict, then: passed, report done; attempts left, retry; exhausted, reject and report failed. */
    method JudgeTask(t: TaskId, issue: Issue, attempt: u32, result: AcceptanceResult)
      returns (r: Result<Flow>, ghost rec: Record, ghost job: Job)
      requires IsLive([], {t}) && OpenAtStart(st, world.round, t) && t in cfg.accept
      requires t in issues && issues[t] == issue && issue.meta.attempt == attempt && issue.meta.status.Verifying?
      modifies this
      ensures IsSafe() && Extends()
      ensures Flowed(r)
      ensures r.Ok? ==> Judged(old(St()), t, attempt, result, rec, job)
      ensures r.Ok? && !result.Passed() && attempt + 1 < cfg.accept[t].maxAttempts ==> r.value.GoOn? && log == old(log)
    {
      hide Safe, Live, HasVerdict, NamesVerdict, NamesOutput, Since, Trusted, CutDisks, LogOk, Halted, Grew, Unjudged,
        ConfigOk, StartOk, FailsAt, RetryBody, RejectReason, OpenAtStart, InBase;
      ghost var h := Past();
      job := *;
      RoundFacts(cfg, st, St(), [], {t});
      SinceBounded(st, world.resets, marks, t, world.round, |chain|);
      var spec := cfg.accept[t];
      var judged, sealed := SealJudgement(t, issue, attempt, spec.command, result);
      rec := sealed;
      if judged.Err? {
        return Err(judged.error), rec, job;
      }
      ghost var mid := Past();
      r, job := Conclude(t, judged.value, attempt, result);
      GrewTwice(h, mid, Past());
    }

    /** Passed, report done; attempts left, retry; exhausted, reject and report failed. */
    method Conclude(t: TaskId, issue: Issue, attempt: u32, result: AcceptanceResult)
      returns (r: Result<Flow>, ghost job: Job)
      requires IsLive([], {t}) && OpenAtStart(st, world.round, t) && t in cfg.accept
      requires Rewrites(t, issue) && issue.meta.status.Verifying? && issue.meta.attempt == attempt
      requires NamesVerdict(chain, issue.meta.verdictSeal, t, attempt, result.Passed())
      requires world.round < |marks| && HasVerdict(chain, marks[world.round], t, attempt, result.Passed())
      requires world.round < |world.resets| &&
        HasVerdict(chain, Since(st, world.resets, marks, t, world.round), t, attempt, result.Passed())
      requires InBase(st, t) ==> NamesOutput(chain, issue.meta.seal, t, issue.meta.responseSha)
      modifies this
      ensures IsSafe() && Extends() && Flowed(r)
      ensures r.Ok? ==> Concluded(old(St()), t, attempt, issue, result, job)
      ensures r.Ok? && !result.Passed() && attempt + 1 < cfg.accept[t].maxAttempts ==> r.value.GoOn? && log == old(log)
    {
      hide Safe, Live, HasVerdict, NamesVerdict, NamesOutput, Since, LogOk, Halted, Grew, Unjudged,
        ConfigOk, StartOk, FailsAt, RetryBody, RejectReason, OpenAtStart, InBase;
      job := *;
      var spec, m := cfg.accept[t], issue.meta;
      if result.Passed() {
        r := Settle(t, issue.(meta := m.(status := Verified)), OutcomeDone(m.id + ".md"));
      } else if attempt + 1 < spec.maxAttempts {
        r, job := Retry(t, issue, spec.command, result.outputTail);
      } else {
        var reason := Exhausted(spec.command, attempt + 1, result.exitCode);
        r := Settle(t, issue.(meta := m.(status := Rejected)), OutcomeFailed(reason));
      }
    }

    /** The verdict goes on the chain and its hash into the issue. */
    method SealJudgement(t: TaskId, issue: Issue, attempt: u32, command: string, result: AcceptanceResult)
      returns (r: Result<Issue>, ghost rec: Record)
      requires IsLive([], {t}) && t in issues && issues[t] == issue && issue.meta.attempt == attempt &&
        issue.meta.status.Verifying?
      modifies this`chain, this`seal, this`extents, this`world, this`log, this`tried
      ensures IsSafe() && SameRound(old(St()), St()) && Extends() && world.jobs == old(world.jobs) &&
        IsVerdictOf(rec, t, issue.meta.agent, attempt, command, result)
      ensures r.Ok? ==>
        IsLive([], {t}) && r.value == WithVerdict(issue, rec.hash) && log == old(log) &&
        St() == Appended(cfg, old(St()), rec)
      ensures r.Err? ==> FailedWith(r.error)
      ensures r.Ok? ==> NamesVerdict(chain, r.value.meta.verdictSeal, t, attempt, result.Passed())
      ensures r.Ok? ==> forall from :: 0 <= from <= |old(chain)| ==>
        HasVerdict(chain, from, t, attempt, result.Passed())
      ensures r.Ok? && InBase(st, t) ==> NamesOutput(chain, issue.meta.seal, t, issue.meta.responseSha)
      ensures issue.meta.id == t
    {
      hide Safe, Live, HasVerdict, NamesVerdict, NamesOutput, LogOk, Grew, Unjudged, CutDisks, ConfigOk, StartOk,
        FailsAt;
      ghost var s := St();
      HandFacts(cfg, st, s, [], t);
      if InBase(st, t) {
        BaseAnchored(cfg, st, s, t);
      }
      var sealed, verdict, reached := SealVerdict(t, issue.meta.agent, attempt, command, result);
      rec := verdict;
      if sealed.Err? {
        return Err(sealed.error), rec;
      }
      PutLive(cfg, st, s, [], {t}, rec, cfg.width(rec) + 1);
      LastVerdict(s.chain, rec, t, attempt, result.Passed());
      if InBase(st, t) {
        AnchoredGrows(issue.meta, s.chain, chain);
      }
      r := Ok(issue.(meta := issue.meta.(verdictSeal := Some(sealed.value))));
    }

    /** The `k`-th durable state holds these issues. */
    predicate StoredFirst(k: nat, stored: map<TaskId, Issue>)
      reads this
    {
      k < |world.disks| && world.disks[k].issues == stored
    }

    /** The issue is the one stored for `t`, under judgement, with other metadata. */
    predicate Rewrites(t: TaskId, issue: Issue)
      reads this
    {
      t in issues && issue.meta.id == t && issues[t].meta.status.Verifying? &&
      issue.meta.jobId == issues[t].meta.jobId && issue.meta.attempt == issues[t].meta.attempt &&
      issue.meta.title == issues[t].meta.title && issue.prompt == issues[t].prompt &&
        issue.response == issues[t].response
    }

    lemma RewriteAnswers(t: TaskId, issue: Issue, q: seq<TaskPlan>)
      requires IsLive(q, {t}) && Rewrites(t, issue)
      ensures AnswerOk(cfg, st, world.jobs, world.heard, t, cfg.reread(issue))
    {
      hide Safe, Live, AnswerOk, LogOk;
      HandFacts(cfg, st, St(), q, t);
      AnswerAt(cfg, st, St(), t);
      AnswerKept(cfg, st, world.jobs, world.heard, t, issues[t], issue);
    }

    /** Store a judged issue, then report it. */
    method Settle(t: TaskId, issue: Issue, outcome: TaskOutcome) returns (r: Result<Flow>)
      requires IsLive([], {t}) && OpenAtStart(st, world.round, t) && Rewrites(t, issue)
      requires if outcome.OutcomeDone? then issue.meta.status.Verified? else issue.meta.status.Rejected?
      requires NamesVerdict(chain, issue.meta.verdictSeal, t, issue.meta.attempt, outcome.OutcomeDone?)
      requires InBase(st, t) ==> NamesOutput(chain, issue.meta.seal, t, issue.meta.responseSha)
      requires outcome.OutcomeDone? ==>
        HasVerdict(chain, Since(st, world.resets, marks, t, world.round), t, issue.meta.attempt, true)
      modifies this
      ensures IsSafe() && Extends()
      ensures r.Ok? ==>
        StoredFirst(|old(world.disks)|, old(issues)[t := cfg.reread(issue)]) &&
        FirstTold(t, outcome, issue.meta.attempt)
      ensures Flowed(r)
    {
      hide Safe, Live, LogOk, Halted, AnswerOk, Grew, Unjudged, ConfigOk, StartOk, FailsAt;
      ghost var h := Past();
      RewriteAnswers(t, issue, []);
      var stored := StoreInHand(t, issue, [], outcome);
      ghost var stored1 := Past();
      if stored.Err? {
        return Err(stored.error);
      }
      OpenMayReport(t, outcome, []);
      r := AdvanceIntoFlow(t, outcome);
      GrewTwice(h, stored1, Past());
      DisksPrefix(stored1, Past());
    }

    /** Persist the verdict, then start the next attempt with a self-repair prompt. */
    method Retry(t: TaskId, issue: Issue, command: string, tail: string) returns (r: Result<Flow>, ghost job: Job)
      requires IsLive([], {t}) && OpenAtStart(st, world.round, t) && Rewrites(t, issue) && t in cfg.accept
      requires issue.meta.status.Verifying? && issue.meta.attempt + 1 < cfg.accept[t].maxAttempts
      requires HasVerdict(chain, marks[world.round], t, issue.meta.attempt, false)
      requires InBase(st, t) ==> NamesOutput(chain, issue.meta.seal, t, issue.meta.responseSha)
      modifies this
      ensures IsSafe() && Extends()
      ensures r.Ok? ==> job.task == t && job.agent == issue.meta.agent && job.attempt == issue.meta.attempt + 1
      ensures r.Ok? ==>
        St() == JobRouted(cfg, Wrote(cfg, old(St()), issue), job,
                          RetryIssue(issue, job.id, RetryBody(issue.prompt, command, tail, issue.meta.attempt + 1)))
      ensures r.Ok? ==> r.value.GoOn? && IsLive([], {}) && log == old(log)
      ensures r.Err? ==> FailedWith(r.error)
    {
      hide Safe, Live, LogOk, AnswerOk, Grew, Unjudged, ConfigOk, StartOk, FailsAt;
      ghost var h := Past();
      job := *;
      RewriteAnswers(t, issue, []);
      var stored := StoreInHand(t, issue, [], OutcomeFailed(""));
      ghost var stored1 := Past();
      if stored.Err? {
        return Err(stored.error), job;
      }
      r, job := RetryTask(t, issue, command, tail);
      GrewTwice(h, stored1, Past());
    }

    method RetryTask(t: TaskId, issue: Issue, command: string, tail: string) returns (r: Result<Flow>, ghost job: Job)
      requires IsLive([], {t}) && OpenAtStart(st, world.round, t) && t in issues && issue.meta == issues[t].meta &&
        t in cfg.accept
      requires issue.meta.attempt + 1 < cfg.accept[t].maxAttempts &&
        HasVerdict(chain, marks[world.round], t, issue.meta.attempt, false)
      modifies this
      ensures IsSafe() && Extends()
      ensures r.Ok? ==> job.task == t && job.agent == issue.meta.agent && job.attempt == issue.meta.attempt + 1
      ensures r.Ok? ==>
        St() == JobRouted(cfg, old(St()), job,
          RetryIssue(issue, job.id, RetryBody(issue.prompt, command, tail, issue.meta.attempt + 1)))
      ensures r.Ok? ==> r.value.GoOn? && IsLive([], {}) && log == old(log)
      ensures r.Err? ==> FailedWith(r.error)
    {
      hide Safe, Live, LogOk, RetryBody, Grew, Unjudged, ConfigOk, StartOk, FailsAt, CountJobs, HasVerdict, OpenAtStart;
      ghost var s, h := St(), Past();
      HandFacts(cfg, st, s, [], t);
      JobsKnown(cfg, st, s, [], {t});
      var next := issue.meta.attempt + 1;
      var body := ComposeRetryBody(issue.prompt, command, tail, next);
      var started, j := StartJob(t, issue.meta.agent, next);
      job := j;
      ghost var started1 := Past();
      if started.Err? {
        return Err(started.error), job;
      }
      var again := issue.(
        meta := issue.meta.(attempt := next, status := Spawned, jobId := Some(started.value), responseSha := None),
        prompt := body, response := None);
      var routed := RouteJob(s, job, started.value, again);
      GrewTwice(h, started1, Past());
      if routed.Fail? {
        return Err(routed.error), job;
      }
      RetryLive(cfg, st, s, t, job, again);
      r := Ok(GoOn);
    }
  }
}
