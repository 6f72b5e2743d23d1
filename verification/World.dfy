/** Everything outside the run actor: the kernel, the job spawner, the oracle threads and the disk.
    Their code is not part of this model. Each is represented by the most general environment that meets its
    contract: a reply is chosen arbitrarily and replaced only if the contract rules it out. */
module World {
  import opened Wrappers
  import opened Seal
  import opened IssueFile

  type TaskId = string
  type JobId = nat

  datatype TaskPlan = TaskPlan(taskId: TaskId, agent: string, title: string, body: string, dependsOn: seq<TaskId>)

  datatype TaskOutcome = OutcomeDone(path: string) | OutcomeFailed(reason: string)

  /** A final response as the actor sees it; `text` is what reading `path` yields. */
  datatype FinalResponse = FinalResponse(
    jobId: JobId, path: Option<string>, sha: Option<string>, preview: string, text: string)

  datatype AcceptanceResult = AcceptanceResult(exitCode: i32, outputTail: string) {
    predicate Passed() {
      exitCode == 0
    }
  }

  datatype RunMeta = RunMeta(runId: string, started: string, closed: Option<string>)

  /** One `advance` call as the kernel received it. `attempt` is the issue's attempt when it was sent. */
  datatype Report = Report(round: nat, task: TaskId, outcome: TaskOutcome, attempt: nat)

  /** One job the spawner started. */
  datatype Job = Job(id: JobId, task: TaskId, agent: string, round: nat, attempt: nat, command: string)

  /** A response the actor took in, and the task it took it for. */
  datatype Heard = Heard(job: JobId, task: TaskId, response: FinalResponse)

  /** What a crash would leave behind. */
  datatype Disk = Disk(issues: map<TaskId, Issue>, seal: File, run: Option<RunMeta>)

  datatype World = World(
    planned: set<TaskId>,
    // the kernel: the current round, the tasks it has released in it and those it has an outcome for
    round: nat, released: set<TaskId>, reported: set<TaskId>, sent: seq<Report>,
    // the tasks each round starts over
    resets: seq<set<TaskId>>,
    // the spawner, and the responses the actor has taken in
    used: set<JobId>, jobs: seq<Job>, heard: seq<Heard>,
    // acceptance oracles that have been started and have not answered
    inflight: set<(TaskId, nat)>,
    // every durable state so far
    disks: seq<Disk>)

  function Ids(wave: seq<TaskPlan>): set<TaskId> {
    set i | 0 <= i < |wave| :: wave[i].taskId
  }

  predicate Distinct(wave: seq<TaskPlan>) {
    forall i, j :: 0 <= i < j < |wave| ==> wave[i].taskId != wave[j].taskId
  }

  // ---- Kernel ----

  datatype AdvanceReply =
    | NextWave(wave: seq<TaskPlan>) | Completed | Paused(failed: seq<TaskId>) | Aborted(task: TaskId)
    | Unfolded(reason: string) | AdvanceError(why: string)

  datatype FinalizeReply =
    | Converged | Replan(rewave: seq<TaskPlan>, reopened: seq<TaskId>) | GiveUp(reason: string)
    | FinalizeFailed(reason: string) | FinalizeError

  datatype AuthorizeReply =
    | Authorized(runId: string, first: seq<TaskPlan>) | Refused(reason: string) | AuthorizeError(why: string)

  function Reported(w: World, t: TaskId, outcome: TaskOutcome, attempt: nat): World {
    w.(reported := w.reported + {t}, sent := w.sent + [Report(w.round, t, outcome, attempt)])
  }

  function Released(w: World, wave: seq<TaskPlan>): World {
    w.(released := w.released + Ids(wave))
  }

  function NewRound(w: World, wave: seq<TaskPlan>, reset: set<TaskId>): World {
    w.(round := w.round + 1, released := Ids(wave), reported := {}, resets := w.resets + [reset])
  }

  /** Waves name planned tasks, and a task is released at most once per round. */
  predicate FreshWave(w: World, wave: seq<TaskPlan>) {
    Ids(wave) <= w.planned && Ids(wave) !! w.released && Distinct(wave)
  }

  predicate AdvanceAllowed(w: World, reply: AdvanceReply) {
    match reply
    case NextWave(wave) => FreshWave(w, wave)
    case Completed => w.released == w.reported
    case _ => true
  }

  /** `kernel.v1.dispatch.advance`. The run is complete only when no released task is unreported. */
  method KernelAdvance(w: World, t: TaskId, outcome: TaskOutcome, attempt: nat) returns (w': World, reply: AdvanceReply)
    requires t in w.released && t !in w.reported
    ensures AdvanceAllowed(Reported(w, t, outcome, attempt), reply)
    ensures w' == if reply.NextWave? then Released(Reported(w, t, outcome, attempt), reply.wave)
                  else Reported(w, t, outcome, attempt)
  {
    w' := Reported(w, t, outcome, attempt);
    reply := *;
    if !AdvanceAllowed(w', reply) {
      reply := AdvanceError("contract");
    }
    if reply.NextWave? {
      w' := Released(w', reply.wave);
    }
  }

  function ToSet(ids: seq<TaskId>): set<TaskId> {
    set i | 0 <= i < |ids| :: ids[i]
  }

  predicate FinalizeAllowed(w: World, reply: FinalizeReply) {
    reply.Replan? ==> Distinct(reply.rewave) && Ids(reply.rewave) <= ToSet(reply.reopened) <= w.planned
  }

  /** `kernel.v1.dispatch.finalize` with a failing verdict. A targeted re-plan wave is a subset of what it re-opens. */
  method KernelFinalize(w: World) returns (w': World, reply: FinalizeReply)
    ensures FinalizeAllowed(w, reply)
    ensures w' == if reply.Replan? then NewRound(w, reply.rewave, ToSet(reply.reopened)) else w
  {
    w', reply := w, *;
    if !FinalizeAllowed(w, reply) {
      reply := FinalizeError;
    }
    if reply.Replan? {
      w' := NewRound(w, reply.rewave, ToSet(reply.reopened));
    }
  }

  predicate AuthorizeAllowed(w: World, reply: AuthorizeReply) {
    reply.Authorized? ==> Distinct(reply.first) && Ids(reply.first) <= w.planned
  }

  /** `kernel.v1.dispatch.authorize` of the whole plan, as the re-plan fallback calls it. */
  method KernelAuthorize(w: World) returns (w': World, reply: AuthorizeReply)
    ensures AuthorizeAllowed(w, reply)
    ensures w' == if reply.Authorized? then NewRound(w, reply.first, w.planned) else w
  {
    w', reply := w, *;
    if !AuthorizeAllowed(w, reply) {
      reply := AuthorizeError("contract");
    }
    if reply.Authorized? {
      w' := NewRound(w, reply.first, w.planned);
    }
  }

  // ---- Spawner ----

  function Spawning(w: World, job: Job): World {
    w.(used := w.used + {job.id}, jobs := w.jobs + [job])
  }

  /** Starts a detached job; the daemon never hands out an id twice. */
  method SpawnDetached(w: World, task: TaskId, agent: string, attempt: nat, command: string)
    returns (w': World, r: Result<JobId>)
    ensures r.Ok? ==> r.value !in w.used && w' == Spawning(w, Job(r.value, task, agent, w.round, attempt, command))
    ensures r.Err? ==> w' == w
  {
    w', r := w, *;
    if r.Ok? && r.value in w.used {
      r := Err("spawn failed");
    }
    if r.Ok? {
      w' := Spawning(w, Job(r.value, task, agent, w.round, attempt, command));
    }
  }
}
