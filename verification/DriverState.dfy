/** The run actor's state as a value, and the two invariants of a run: `Safe` holds in every state, `Live` between two
    steps of a run that goes on. */
module DriverState {
  import opened Wrappers
  import opened Seal
  import opened IssueFile
  import opened World

  datatype AcceptSpec = AcceptSpec(command: string, maxAttempts: u32)

  datatype Config = Config(
    tasks: seq<TaskId>, accept: map<TaskId, AcceptSpec>, globalAccept: Option<string>, maxReplans: u32,
    line: (TaskId, string) -> string, reread: Issue -> Issue, hasher: Hasher, width: Record -> nat,
    signature: string -> string,
    legible: string -> bool, plain: string -> bool, kept: Option<string> -> Option<string>)

  /** What the issue file promises: metadata comes back exactly, a prompt comes back legible, and a response comes back
      as it is kept, where the prompt is legible and the title plain. */
  ghost predicate StoreOk(cfg: Config) {
    (forall i :: cfg.reread(i).meta == i.meta) && (forall i :: cfg.legible(cfg.reread(i).prompt)) &&
    (forall i: Issue :: cfg.plain(i.meta.title) && cfg.legible(i.prompt) ==>
       cfg.reread(i).response == cfg.kept(i.response)) &&
    (forall r :: cfg.kept(cfg.kept(r)) == cfg.kept(r))
  }

  /** The store keeps its promises, sealing does not depend on the hash it computes, and no record's line is empty. */
  ghost predicate ConfigOk(cfg: Config) {
    StoreOk(cfg) && IgnoresHash(cfg.hasher) && forall r :: cfg.width(r) > 0
  }

  /** What the actor found on disk, and whether `start_run` had just written it. `chain` is what the seal file read as.
      */
  datatype Start = Start(issues: map<TaskId, Issue>, seal: File, chain: seq<Record>, isNew: bool)

  /** Where a planned task stands in the current round. */
  datatype Place = Waiting | Queued | InHand | Running(job: JobId) | Judging(attempt: nat) | Told

  /** `seal` is the seal file. `chain` is every record that was found in it or whose text reached it since, `extents`
      how far each of the actor's appends got, and `marks` the length of `chain` at the start of each round. */
  datatype State = State(
    issues: map<TaskId, Issue>, chain: seq<Record>, seal: File, run: Option<RunMeta>,
    jobToTask: map<JobId, TaskId>, round: nat, lastSig: Option<string>,
    w: World, place: map<TaskId, Place>, sigs: seq<string>, marks: seq<nat>, extents: seq<Extent>)

  // ---- Chain and issues ----

  predicate Terminal(s: Status) {
    s.Done? || s.Failed? || s.Verified? || s.Rejected?
  }

  predicate IsVerdict(r: Record, task: TaskId, attempt: nat, passed: bool) {
    r.kind.AcceptanceVerdict? && r.taskId == task && r.attempt == Some(attempt) && r.passed == Some(passed)
  }

  /** The chain holds such a verdict at position `from` or later. */
  predicate HasVerdict(chain: seq<Record>, from: nat, task: TaskId, attempt: nat, passed: bool) {
    exists k :: from <= k < |chain| && IsVerdict(chain[k], task, attempt, passed)
  }

  predicate NamesVerdict(chain: seq<Record>, seal: Option<string>, task: TaskId, attempt: nat, passed: bool) {
    exists k :: 0 <= k < |chain| && IsVerdict(chain[k], task, attempt, passed) && seal == Some(chain[k].hash)
  }

  predicate NamesOutput(chain: seq<Record>, seal: Option<string>, task: TaskId, sha: Option<string>) {
    exists k :: 0 <= k < |chain| && chain[k].kind.DispatchOutput? && chain[k].taskId == task &&
      chain[k].responseSha == sha &&
                seal == Some(chain[k].hash)
  }

  /** The issue's claims are anchored in the chain: a finished output by `seal`, a verdict by `verdict_seal`. */
  predicate Anchored(m: IssueMeta, chain: seq<Record>) {
    (m.status.Done? || m.status.Verifying? || m.status.Verified? || m.status.Rejected? ==>
       NamesOutput(chain, m.seal, m.id, m.responseSha)) &&
    (m.status.Verified? ==> NamesVerdict(chain, m.verdictSeal, m.id, m.attempt, true)) &&
    (m.status.Rejected? ==> NamesVerdict(chain, m.verdictSeal, m.id, m.attempt, false))
  }

  lemma AnchoredGrows(m: IssueMeta, chain: seq<Record>, more: seq<Record>)
    requires Anchored(m, chain) && chain <= more
    ensures Anchored(m, more)
  {
  }

  /** The ids whose files were absent or anchored when the actor started. */
  predicate InBase(st: Start, id: TaskId) {
    id in st.issues ==> Anchored(st.issues[id].meta, st.chain)
  }

  ghost predicate IssuesAnchored(st: Start, issues: map<TaskId, Issue>, chain: seq<Record>) {
    forall id :: id in issues && InBase(st, id) ==> Anchored(issues[id].meta, chain)
  }

  /** A durable state whose seal file is readable has anchored issues, on a chain between the first and the present one.
      */
  ghost predicate DiskOk(st: Start, chain: seq<Record>, d: Disk) {
    !d.seal.view.Broken? ==>
      !st.seal.view.Broken? && st.chain <= d.seal.view.recs <= chain &&
      IssuesAnchored(st, d.issues, d.seal.view.recs)
  }

  // ---- Counting jobs ----

  function CountJobs(jobs: seq<Job>, round: nat, t: TaskId): nat {
    if jobs == [] then 0
    else
      var last := jobs[|jobs| - 1];
      CountJobs(jobs[..|jobs| - 1], round, t) + (if last.round == round && last.task == t then 1 else 0)
  }

  lemma CountAppend(jobs: seq<Job>, j: Job, round: nat, t: TaskId)
    ensures CountJobs(jobs + [j], round, t) == CountJobs(jobs, round, t) + (if j.round == round &&
      j.task == t then 1 else 0)
  {
    assert (jobs + [j])[..|jobs|] == jobs;
  }

  lemma {:induction false} CountFutureRound(jobs: seq<Job>, round: nat, t: TaskId)
    requires forall k :: 0 <= k < |jobs| ==> jobs[k].round < round
    ensures CountJobs(jobs, round, t) == 0
  {
    if jobs != [] {
      CountFutureRound(jobs[..|jobs| - 1], round, t);
    }
  }

  /** How many jobs one round may spend on a task: its attempts, or one shot without an oracle. */
  function Budget(cfg: Config, t: TaskId): nat {
    if t in cfg.accept && cfg.accept[t].maxAttempts > 1 then cfg.accept[t].maxAttempts else 1
  }

  /** A new run starts from one `Pending` issue per planned task. */
  ghost predicate StartOk(cfg: Config, st: Start) {
    st.chain == st.seal.Records() &&
    (st.isNew ==> forall t :: t in ToSet(cfg.tasks) ==>
       t in st.issues && st.issues[t].meta.status.Pending? && st.issues[t].meta.jobId.None?)
  }

  // ---- Safe ----

  /** The planned tasks that had not been started when the actor started. */
  predicate UnstartedAt(st: Start, t: TaskId) {
    t in st.issues ==> st.issues[t].meta.status.Pending?
  }

  /** A job was running, and its answer could be sealed. */
  predicate MayHaveAnswered(st: Start, m: IssueMeta) {
    m.status.Spawned? && m.jobId.Some? && st.seal.Readable()
  }

  /** What the actor found does not let the task count as done without a verdict: it was not done already, no job of it
      can have answered and be sealed in the meantime, and a verified one names its verdict. */
  predicate Vouched(st: Start, t: TaskId) {
    t in st.issues ==>
      var m := st.issues[t].meta;
      !m.status.Done? && !MayHaveAnswered(st, m) && (m.status.Verified? ==> Anchored(m, st.chain))
  }

  /** Vouched for at the start, or started over by a round since. */
  predicate Trusted(st: Start, resets: seq<set<TaskId>>, t: TaskId, round: nat) {
    Vouched(st, t) || exists k :: 0 < k <= round && k < |resets| && t in resets[k]
  }

  /** Where on the chain the verdict of a trusted task must lie: in the last round that started it over, otherwise in
      this actor's life, unless it was verified before that. */
  function Since(st: Start, resets: seq<set<TaskId>>, marks: seq<nat>, t: TaskId, round: nat): nat
    requires round < |resets| && round < |marks|
  {
    if t in resets[round] then marks[round]
    else if round > 0 then Since(st, resets, marks, t, round - 1)
    else if t in st.issues && st.issues[t].meta.status.Verified? then 0
    else marks[0]
  }

  ghost predicate ReportOk(cfg: Config, st: Start, s: State, r: Report) {
    r.round < |s.w.resets| && r.round < |s.marks| && r.task in s.w.planned &&
    // a trusted task with an oracle is reported done only on a sealed passing verdict of its own time and attempt
    (r.outcome.OutcomeDone? && r.task in cfg.accept && Trusted(st, s.w.resets, r.task, r.round) ==>
       HasVerdict(s.chain, Since(st, s.w.resets, s.marks, r.task, r.round), r.task, r.attempt, true)) &&
    // a task the round starts over is spawned in that round before it is reported
    (r.task in s.w.resets[r.round] ==> CountJobs(s.w.jobs, r.round, r.task) >= 1) &&
    // until the first re-plan, a task that was settled on disk is reported as it was settled
    (r.round == 0 && r.task in st.issues ==>
       (st.issues[r.task].meta.status.Done? || st.issues[r.task].meta.status.Verified? ==> r.outcome.OutcomeDone?) &&
       (st.issues[r.task].meta.status.Failed? || st.issues[r.task].meta.status.Rejected? ==> r.outcome.OutcomeFailed?))
  }

  ghost predicate JobOk(cfg: Config, st: Start, s: State, j: Job) {
    j.command == cfg.line(j.task, j.agent) && j.round < |s.marks| && j.attempt < Budget(cfg, j.task) &&
    // a retry answers a failing verdict sealed in its own round
    (j.attempt > 0 ==> HasVerdict(s.chain, s.marks[j.round], j.task, j.attempt - 1, false)) &&
    // until the first re-plan, only tasks not yet started are started
    (j.attempt == 0 && j.round == 0 ==> UnstartedAt(st, j.task))
  }

  ghost predicate ReportsSafe(cfg: Config, st: Start, s: State) {
    (forall i :: 0 <= i < |s.w.sent| ==> ReportOk(cfg, st, s, s.w.sent[i])) &&
    (forall i :: 0 <= i < |s.w.sent| ==> s.w.sent[i].round <= s.w.round) &&
    (forall i :: 0 <= i < |s.w.sent| && s.w.sent[i].round == s.w.round ==> s.w.sent[i].task in s.w.reported) &&
    (forall i, j :: 0 <= i < j < |s.w.sent| ==>
       s.w.sent[i].round != s.w.sent[j].round || s.w.sent[i].task != s.w.sent[j].task)
  }

  ghost predicate JobsSafe(cfg: Config, st: Start, s: State) {
    (forall k :: 0 <= k < |s.w.jobs| ==> JobOk(cfg, st, s, s.w.jobs[k])) &&
    (forall k :: 0 <= k < |s.w.jobs| ==> s.w.jobs[k].task in s.w.planned && s.w.jobs[k].round <= s.w.round) &&
    (forall r, t :: CountJobs(s.w.jobs, r, t) <= Budget(cfg, t))
  }

  predicate ClosedAs(run: Option<RunMeta>, later: Option<RunMeta>) {
    run.Some? && run.value.closed.Some? ==> later.Some? && later.value.closed == run.value.closed
  }

  /** Planned tasks' files carry their own id. */
  predicate Named(planned: set<TaskId>, issues: map<TaskId, Issue>) {
    forall t :: t in issues && t in planned ==> issues[t].meta.id == t
  }

  ghost predicate DisksSafe(cfg: Config, st: Start, s: State) {
    IssuesAnchored(st, s.issues, s.chain) &&
    (forall k :: 0 <= k < |s.w.disks| ==> DiskOk(st, s.chain, s.w.disks[k])) &&
    (forall k :: 0 <= k < |s.w.disks| ==> Named(s.w.planned, s.w.disks[k].issues)) && Named(s.w.planned, s.issues) &&
    (forall k :: 0 <= k < |s.w.disks| ==> ClosedAs(s.w.disks[k].run, s.run)) &&
    st.chain <= s.chain && (Verifies(cfg.hasher, st.chain) ==> Verifies(cfg.hasher, s.chain))
  }

  /** The seal file reads as the whole chain, or not at all; which of the two, the found file and the appends decide. */
  ghost predicate SealSafe(st: Start, s: State) {
    (!s.seal.view.Broken? ==> s.seal.view.recs == s.chain) && ViewAfter(st.seal.view, s.extents, s.seal.view) &&
      st.seal.size <= s.seal.size
  }

  ghost predicate RoundsSafe(cfg: Config, st: Start, s: State) {
    s.w.round <= cfg.maxReplans && |s.w.resets| == s.w.round + 1 && s.w.planned == ToSet(cfg.tasks) &&
    |s.marks| == s.w.round + 1 && s.marks[0] == |st.chain| &&
      (forall k :: 0 <= k < |s.marks| ==> |st.chain| <= s.marks[k] <= |s.chain|) &&
    (forall t :: t in s.w.planned ==> (t in s.w.resets[0] <==> UnstartedAt(st, t))) &&
    // every re-plan noted a failure that differs from the one before it
    s.w.round <= |s.sigs| && (forall i :: 0 < i < |s.sigs| ==> s.sigs[i - 1] != s.sigs[i]) &&
    s.lastSig == (if s.sigs == [] then None else Some(s.sigs[|s.sigs| - 1]))
  }

  /** In a new run no job's response is taken in twice. */
  ghost predicate HeardOnce(st: Start, s: State) {
    st.isNew ==> forall i, k :: 0 <= i < k < |s.w.heard| ==> s.w.heard[i].job != s.w.heard[k].job
  }

  // ---- Answers ----

  predicate HasAnswer(status: Status) {
    status.Done? || status.Verifying? || status.Verified? || status.Rejected?
  }

  /** The issue was found as every issue file reads, or not at all. */
  predicate Legible(cfg: Config, st: Start, t: TaskId) {
    t in st.issues ==> cfg.legible(st.issues[t].prompt)
  }

  /** The `k`-th response heard is one with a text, of this task and job. */
  predicate Answers(heard: seq<Heard>, k: int, t: TaskId, job: JobId) {
    0 <= k < |heard| && heard[k].job == job && heard[k].task == t && heard[k].response.path.Some?
  }

  /** The actor started the job, or heard it for the task. */
  ghost predicate Knows(jobs: seq<Job>, heard: seq<Heard>, t: TaskId, job: JobId) {
    (exists i :: 0 <= i < |jobs| && jobs[i].id == job) ||
    (exists k :: 0 <= k < |heard| && heard[k].job == job && heard[k].task == t)
  }

  /** The actor is answerable for the answer: the run is new, or it knows the job. */
  ghost predicate Answerable(st: Start, jobs: seq<Job>, heard: seq<Heard>, t: TaskId, m: IssueMeta) {
    st.isNew || (m.jobId.Some? && Knows(jobs, heard, t, m.jobId.value))
  }

  /** An answered issue stores the text that was heard from its job. */
  ghost predicate AnswerOk(cfg: Config, st: Start, jobs: seq<Job>, heard: seq<Heard>, t: TaskId, issue: Issue) {
    (Legible(cfg, st, t) ==> cfg.legible(issue.prompt)) &&
    (HasAnswer(issue.meta.status) && Answerable(st, jobs, heard, t, issue.meta) ==>
       issue.meta.jobId.Some? &&
       exists k :: Answers(heard, k, t, issue.meta.jobId.value) &&
         (Legible(cfg, st, t) && cfg.plain(issue.meta.title) ==>
            issue.response == cfg.kept(Some(heard[k].response.text))))
  }

  ghost predicate AnswersSafe(cfg: Config, st: Start, s: State) {
    forall t :: t in s.w.planned && t in s.issues ==> AnswerOk(cfg, st, s.w.jobs, s.w.heard, t, s.issues[t])
  }

  ghost predicate Safe(cfg: Config, st: Start, s: State) {
    ReportsSafe(cfg, st, s) && JobsSafe(cfg, st, s) && DisksSafe(cfg, st, s) && SealSafe(st, s) &&
      RoundsSafe(cfg, st, s) &&
    HeardOnce(st, s) && AnswersSafe(cfg, st, s)
  }

  // ---- Live ----

  /** The rounds' bookkeeping covers the current round. */
  predicate Counted(s: State) {
    s.w.round < |s.w.resets| && s.w.round < |s.marks|
  }

  /** The tasks whose reports are vouched for: all of a new run, and the trusted ones with an oracle. */
  predicate Vetted(cfg: Config, st: Start, s: State, t: TaskId) {
    st.isNew || (t in cfg.accept && Trusted(st, s.w.resets, t, s.w.round))
  }

  /** Settled: terminal, never merely `Done` when an oracle exists, and verified only on a verdict of its own time. */
  predicate Settled(cfg: Config, st: Start, s: State, t: TaskId)
    requires Counted(s)
  {
    t in s.issues && Terminal(s.issues[t].meta.status) &&
    (t in cfg.accept ==>
       !s.issues[t].meta.status.Done? &&
       (s.issues[t].meta.status.Verified? ==>
          HasVerdict(s.chain, Since(st, s.w.resets, s.marks, t, s.w.round), t, s.issues[t].meta.attempt, true)))
  }

  /** An issue no actor has got to: not started, under judgement, or without a job whose answer could be sealed. */
  predicate Undecided(st: Start, m: IssueMeta) {
    m.status.Pending? || m.status.Verifying? || (m.status.Spawned? && !MayHaveAnswered(st, m))
  }

  ghost predicate Untouched(cfg: Config, st: Start, s: State, t: TaskId)
    requires Counted(s)
  {
    CountJobs(s.w.jobs, s.w.round, t) == 0 &&
    (s.w.round == 0 ==> (t in s.issues <==> t in st.issues) && (t in st.issues ==> s.issues[t] == st.issues[t])) &&
    (t in s.w.resets[s.w.round] && t in s.issues ==> s.issues[t].meta.status.Pending?) &&
    (st.isNew ==> t in s.issues && (s.issues[t].meta.status.Pending? || Settled(cfg, st, s, t))) &&
    (Vetted(cfg, st, s, t) && t in s.issues ==> Undecided(st, s.issues[t].meta) || Settled(cfg, st, s, t))
  }

  ghost predicate Progressed(s: State, t: TaskId)
    requires Counted(s)
  {
    t in s.issues && CountJobs(s.w.jobs, s.w.round, t) <= s.issues[t].meta.attempt + 1 &&
    (t in s.w.resets[s.w.round] ==> CountJobs(s.w.jobs, s.w.round, t) >= 1)
  }

  /** In round 0: the task was not settled on disk. */
  predicate OpenAtStart(st: Start, round: nat, t: TaskId) {
    round == 0 && t in st.issues ==> !Terminal(st.issues[t].meta.status)
  }

  /** No two of these tasks' issues name one job. */
  predicate OneJobEach(tasks: set<TaskId>, issues: map<TaskId, Issue>) {
    forall t, u :: t in tasks && u in tasks && t in issues && u in issues && t != u && issues[t].meta.jobId.Some? ==>
      issues[t].meta.jobId != issues[u].meta.jobId
  }

  /** No two of the plan's issues named one job when the actor started; in a new run none names any. */
  predicate Separate(st: Start, s: State) {
    OneJobEach(s.place.Keys, st.issues)
  }

  ghost predicate TaskOk(cfg: Config, st: Start, s: State, t: TaskId)
    requires t in s.place && Counted(s)
  {
    (t in s.issues ==>
      s.issues[t].meta.id == t &&
      (s.issues[t].meta.jobId.Some? ==> s.issues[t].meta.jobId.value in s.w.used)) &&
    match s.place[t]
    case Waiting => Untouched(cfg, st, s, t)
    case Queued => Untouched(cfg, st, s, t)
    case InHand => Progressed(s, t)
    case Running(j) =>
      Progressed(s, t) && OpenAtStart(st, s.w.round, t) && s.issues[t].meta.status.Spawned? &&
        s.issues[t].meta.jobId == Some(j) &&
      (Separate(st, s) ==> j in s.jobToTask && s.jobToTask[j] == t)
    case Judging(a) =>
      Progressed(s, t) && OpenAtStart(st, s.w.round, t) && s.issues[t].meta.status.Verifying? &&
        s.issues[t].meta.attempt == a &&
      t in cfg.accept && (t, a) in s.w.inflight
    case Told => Vetted(cfg, st, s, t) ==> Settled(cfg, st, s, t)
  }

  ghost predicate PlacesAgree(s: State, q: seq<TaskPlan>, hand: set<TaskId>) {
    s.place.Keys == s.w.planned && s.w.released <= s.w.planned && s.w.reported <= s.w.released &&
    (forall t :: t in s.place ==> (t in s.w.released <==> !s.place[t].Waiting?)) &&
    (forall t :: t in s.place ==> (t in s.w.reported <==> s.place[t].Told?)) &&
    Distinct(q) && Ids(q) <= s.w.planned && hand <= s.w.planned &&
    (forall t :: t in s.place ==> (t in Ids(q) <==> s.place[t].Queued?)) &&
    (forall t :: t in s.place ==> (t in hand <==> s.place[t].InHand?))
  }

  ghost predicate RoutesAgree(st: Start, s: State) {
    (forall i :: 0 <= i < |s.w.heard| ==> s.w.heard[i].job in s.w.used) &&
    (st.isNew ==> forall j, i :: j in s.jobToTask && 0 <= i < |s.w.heard| ==> s.w.heard[i].job != j) &&
    (forall j :: j in s.jobToTask ==>
       j in s.w.used && s.jobToTask[j] in s.place && s.place[s.jobToTask[j]] == Running(j)) &&
    (forall v :: v in s.w.inflight ==> v.0 in s.place && s.place[v.0] == Judging(v.1))
  }

  ghost predicate Live(cfg: Config, st: Start, s: State, q: seq<TaskPlan>, hand: set<TaskId>) {
    s.round == s.w.round && |s.w.resets| == |s.marks| == s.w.round + 1 && PlacesAgree(s, q, hand) &&
      RoutesAgree(st, s) &&
    (Separate(st, s) ==> OneJobEach(s.place.Keys, s.issues)) && (forall t :: t in s.place ==> TaskOk(cfg, st, s, t))
  }

  // ---- Steps of the state ----

  function Log(s: State): State {
    s.(w := s.w.(disks := s.w.disks + [Disk(s.issues, s.seal, s.run)]))
  }

  function Wrote(cfg: Config, s: State, issue: Issue): State {
    Log(s.(issues := s.issues[issue.meta.id := cfg.reread(issue)]))
  }

  /** Every durable state behind `d` while `n` characters of an append reach the file. */
  function CutDisks(d: Disk, r: Record, n: nat, width: nat): seq<Disk> {
    seq(n, k requires 0 <= k < n => d.(seal := Grown(d.seal, r, k + 1, width)))
  }

  /** An append of which `n` characters reached the file. */
  function Put(cfg: Config, s: State, r: Record, n: nat): State {
    if n == 0 then s
    else
      var width := cfg.width(r);
      s.(chain := if n < width then s.chain else s.chain + [r], seal := Grown(s.seal, r, n, width),
         extents := s.extents + [Reached(n, width)],
         w := s.w.(disks := s.w.disks + CutDisks(Disk(s.issues, s.seal, s.run), r, n, width)))
  }

  function Appended(cfg: Config, s: State, r: Record): State {
    Put(cfg, s, r, cfg.width(r) + 1)
  }

  function WroteRun(s: State, meta: RunMeta): State {
    Log(s.(run := Some(meta)))
  }

  /** What reports and jobs have to show depends on the chain and the rounds only. */
  lemma HistorySafe(cfg: Config, st: Start, s: State, s': State)
    requires ReportsSafe(cfg, st, s) && JobsSafe(cfg, st, s) && s.chain <= s'.chain && s'.marks == s.marks
    requires s'.w == s.w.(disks := s'.w.disks)
    ensures ReportsSafe(cfg, st, s') && JobsSafe(cfg, st, s')
  {
    forall i | 0 <= i < |s.w.sent| ensures ReportOk(cfg, st, s', s.w.sent[i]) {
      ReportKept(cfg, st, s, s', s.w.sent[i]);
    }
    forall k | 0 <= k < |s.w.jobs| ensures JobOk(cfg, st, s', s.w.jobs[k]) {
      assert JobOk(cfg, st, s, s.w.jobs[k]);
    }
  }

  lemma ReportKept(cfg: Config, st: Start, s: State, s': State, r: Report)
    requires ReportOk(cfg, st, s, r) && s.chain <= s'.chain && s'.marks == s.marks && s'.w.resets == s.w.resets &&
      s'.w.planned == s.w.planned
    requires CountJobs(s'.w.jobs, r.round, r.task) >= CountJobs(s.w.jobs, r.round, r.task)
    ensures ReportOk(cfg, st, s', r)
  {
  }

  lemma WroteSafe(cfg: Config, st: Start, s: State, issue: Issue)
    requires ConfigOk(cfg) && Safe(cfg, st, s) && (InBase(st, issue.meta.id) ==> Anchored(issue.meta, s.chain))
    requires AnswerOk(cfg, st, s.w.jobs, s.w.heard, issue.meta.id, cfg.reread(issue))
    ensures Safe(cfg, st, Wrote(cfg, s, issue))
  {
    hide ReportsSafe, JobsSafe, DisksSafe, AnswersSafe, AnswerOk, ViewAfter, ConfigOk;
    var s' := Wrote(cfg, s, issue);
    HistorySafe(cfg, st, s, s');
    WroteDisks(cfg, st, s, issue);
    WroteAnswers(cfg, st, s, issue);
  }

  lemma WroteDisks(cfg: Config, st: Start, s: State, issue: Issue)
    requires ConfigOk(cfg) && DisksSafe(cfg, st, s) && SealSafe(st, s)
    requires InBase(st, issue.meta.id) ==> Anchored(issue.meta, s.chain)
    ensures DisksSafe(cfg, st, Wrote(cfg, s, issue))
  {
    hide Anchored, ViewAfter, Verifies;
    assert cfg.reread(issue).meta == issue.meta;
    hide ConfigOk;
    var s' := Wrote(cfg, s, issue);
    assert IssuesAnchored(st, s'.issues, s'.chain);
    SealFound(st, s);
    assert DiskOk(st, s'.chain, Disk(s'.issues, s'.seal, s'.run));
    assert Named(s'.w.planned, s'.issues);
  }

  lemma SealFound(st: Start, s: State)
    requires SealSafe(st, s)
    ensures !s.seal.view.Broken? ==> !st.seal.view.Broken? && s.seal.view.recs == s.chain
  {
  }

  lemma WroteAnswers(cfg: Config, st: Start, s: State, issue: Issue)
    requires AnswersSafe(cfg, st, s) && AnswerOk(cfg, st, s.w.jobs, s.w.heard, issue.meta.id, cfg.reread(issue))
    ensures AnswersSafe(cfg, st, Wrote(cfg, s, issue))
  {
    hide AnswerOk;
  }

  lemma IssuesAnchoredGrow(st: Start, issues: map<TaskId, Issue>, chain: seq<Record>, more: seq<Record>)
    requires IssuesAnchored(st, issues, chain) && chain <= more
    ensures IssuesAnchored(st, issues, more)
  {
    forall id | id in issues && InBase(st, id) ensures Anchored(issues[id].meta, more) {
      AnchoredGrows(issues[id].meta, chain, more);
    }
  }

  /** Wherever an append stops, what it leaves on disk is anchored or unreadable. */
  lemma PutSafe(cfg: Config, st: Start, s: State, r: Record, n: nat)
    requires ConfigOk(cfg) && Safe(cfg, st, s) && !s.seal.view.Broken? && Follows(cfg.hasher, s.chain, r)
    ensures Safe(cfg, st, Put(cfg, s, r, n))
  {
    hide ReportsSafe, JobsSafe, Anchored, ViewAfter, Verifies, AnswerOk;
    if n > 0 {
      var s' := Put(cfg, s, r, n);
      assert s.chain <= s'.chain && s.chain <= s.chain + [r];
      HistorySafe(cfg, st, s, s');
      ViewAfterNext(st.seal.view, s.extents, s.seal.view, r, Reached(n, cfg.width(r)));
      IssuesAnchoredGrow(st, s.issues, s.chain, s.chain + [r]);
      FoundReadable(st, s);
      if Verifies(cfg.hasher, st.chain) {
        AppendKeepsVerified(cfg.hasher, s.chain, r);
      }
      CutDisksOk(st, s, r, n, cfg.width(r));
      DisksGrow(st, s, s'.chain);
    }
  }

  lemma FoundReadable(st: Start, s: State)
    requires SealSafe(st, s) && !s.seal.view.Broken?
    ensures !st.seal.view.Broken?
  {
  }

  lemma DisksGrow(st: Start, s: State, chain: seq<Record>)
    requires (forall k :: 0 <= k < |s.w.disks| ==> DiskOk(st, s.chain, s.w.disks[k])) && s.chain <= chain
    ensures forall k :: 0 <= k < |s.w.disks| ==> DiskOk(st, chain, s.w.disks[k])
  {
  }

  lemma CutDisksOk(st: Start, s: State, r: Record, n: nat, width: nat)
    requires !s.seal.view.Broken? && s.seal.view.recs == s.chain && !st.seal.view.Broken? && st.chain <= s.chain &&
      width > 0
    requires IssuesAnchored(st, s.issues, s.chain) && IssuesAnchored(st, s.issues, s.chain + [r])
    ensures var cuts := CutDisks(Disk(s.issues, s.seal, s.run), r, n, width);
            forall k :: 0 <= k < |cuts| ==>
              var d := cuts[k];
              DiskOk(st, if n < width then s.chain else s.chain + [r], d) && d.issues == s.issues && d.run == s.run
  {
    hide IssuesAnchored;
  }

  lemma WroteRunSafe(cfg: Config, st: Start, s: State, meta: RunMeta)
    requires Safe(cfg, st, s) && ClosedAs(s.run, Some(meta))
    ensures Safe(cfg, st, WroteRun(s, meta))
  {
    hide ReportsSafe, JobsSafe, Anchored;
    var s' := WroteRun(s, meta);
    forall k | 0 <= k < |s'.w.disks| ensures ClosedAs(s'.w.disks[k].run, s'.run) {
      if k < |s.w.disks| {
        assert ClosedAs(s.w.disks[k].run, s.run);
      }
    }
    assert DiskOk(st, s'.chain, Disk(s'.issues, s'.seal, s'.run));
    HistorySafe(cfg, st, s, s');
  }

  lemma SpawningSafe(cfg: Config, st: Start, s: State, j: Job)
    requires Safe(cfg, st, s) && JobOk(cfg, st, s, j)
    requires j.task in s.w.planned && j.round == s.w.round && CountJobs(s.w.jobs, j.round, j.task) < Budget(cfg, j.task)
    requires forall t :: t in s.w.planned && t in s.issues ==> s.issues[t].meta.jobId != Some(j.id)
    ensures Safe(cfg, st, s.(w := Spawning(s.w, j)))
  {
    hide HasVerdict, Anchored, ViewAfter, AnswerOk;
    var s' := s.(w := Spawning(s.w, j));
    forall r, t ensures CountJobs(s'.w.jobs, r, t) <= Budget(cfg, t) {
      CountAppend(s.w.jobs, j, r, t);
    }
    SpawningReports(cfg, st, s, j);
    forall t | t in s.w.planned && t in s.issues ensures AnswerOk(cfg, st, s'.w.jobs, s.w.heard, t, s.issues[t]) {
      AnswerFrame(cfg, st, s.w.jobs, j, s.w.heard, t, s.issues[t]);
    }
    forall k | 0 <= k < |s'.w.jobs| ensures JobOk(cfg, st, s', s'.w.jobs[k]) {
      if k < |s.w.jobs| {
        assert JobOk(cfg, st, s, s.w.jobs[k]);
      }
    }
  }

  /** A new job changes nothing for an issue of another job. */
  lemma AnswerFrame(cfg: Config, st: Start, jobs: seq<Job>, j: Job, heard: seq<Heard>, t: TaskId, issue: Issue)
    requires AnswerOk(cfg, st, jobs, heard, t, issue) && issue.meta.jobId != Some(j.id)
    ensures AnswerOk(cfg, st, jobs + [j], heard, t, issue)
  {
    if issue.meta.jobId.Some? && Knows(jobs + [j], heard, t, issue.meta.jobId.value) {
      assert Knows(jobs, heard, t, issue.meta.jobId.value);
    }
  }

  /** A newly heard response changes nothing for an issue without an answer or of another task. */
  lemma AnswerHeard(cfg: Config, st: Start, jobs: seq<Job>, heard: seq<Heard>, h: Heard, t: TaskId, issue: Issue)
    requires AnswerOk(cfg, st, jobs, heard, t, issue) && (t == h.task ==> !HasAnswer(issue.meta.status))
    ensures AnswerOk(cfg, st, jobs, heard + [h], t, issue)
  {
    if HasAnswer(issue.meta.status) && Answerable(st, jobs, heard + [h], t, issue.meta) {
      assert issue.meta.jobId.Some? && !st.isNew ==> Knows(jobs, heard, t, issue.meta.jobId.value);
      assert Answerable(st, jobs, heard, t, issue.meta);
      var j := issue.meta.jobId.value;
      var k :| Answers(heard, k, t, j) &&
        (Legible(cfg, st, t) && cfg.plain(issue.meta.title) ==>
           issue.response == cfg.kept(Some(heard[k].response.text)));
      assert Answers(heard + [h], k, t, j) && (heard + [h])[k] == heard[k];
    }
  }

  /** An issue without an answer needs none. */
  lemma AnswerNone(cfg: Config, st: Start, jobs: seq<Job>, heard: seq<Heard>, issue: Issue)
    requires ConfigOk(cfg) && !HasAnswer(issue.meta.status)
    ensures AnswerOk(cfg, st, jobs, heard, issue.meta.id, cfg.reread(issue))
  {
  }

  /** The text just heard is stored. */
  lemma AnswerStored(cfg: Config, st: Start, jobs: seq<Job>, heard: seq<Heard>, k: int, t: TaskId, issue: Issue)
    requires ConfigOk(cfg) && issue.meta.id == t && issue.meta.jobId.Some? &&
      Answers(heard, k, t, issue.meta.jobId.value)
    requires issue.response == Some(heard[k].response.text)
    requires Legible(cfg, st, t) ==> cfg.legible(issue.prompt)
    ensures AnswerOk(cfg, st, jobs, heard, t, cfg.reread(issue))
  {
  }

  /** Writing an answered issue back with other metadata keeps the stored text. */
  lemma AnswerKept(cfg: Config, st: Start, jobs: seq<Job>, heard: seq<Heard>, t: TaskId, before: Issue, issue: Issue)
    requires ConfigOk(cfg) && AnswerOk(cfg, st, jobs, heard, t, before) && issue.meta.id == t &&
      HasAnswer(before.meta.status)
    requires issue.meta.title == before.meta.title && issue.meta.jobId == before.meta.jobId
    requires issue.prompt == before.prompt && issue.response == before.response
    ensures AnswerOk(cfg, st, jobs, heard, t, cfg.reread(issue))
  {
    if Answerable(st, jobs, heard, t, issue.meta) {
      var k :| Answers(heard, k, t, issue.meta.jobId.value) &&
        (Legible(cfg, st, t) && cfg.plain(before.meta.title) ==>
           before.response == cfg.kept(Some(heard[k].response.text)));
    }
  }

  lemma SpawningReports(cfg: Config, st: Start, s: State, j: Job)
    requires ReportsSafe(cfg, st, s)
    ensures ReportsSafe(cfg, st, s.(w := Spawning(s.w, j)))
  {
    hide HasVerdict;
    var s' := s.(w := Spawning(s.w, j));
    forall i | 0 <= i < |s.w.sent| ensures ReportOk(cfg, st, s', s.w.sent[i]) {
      CountAppend(s.w.jobs, j, s.w.sent[i].round, s.w.sent[i].task);
      ReportKept(cfg, st, s, s', s.w.sent[i]);
    }
  }

  lemma ReportedSafe(cfg: Config, st: Start, s: State, t: TaskId, outcome: TaskOutcome, attempt: nat)
    requires Safe(cfg, st, s) && t !in s.w.reported
    requires ReportOk(cfg, st, s, Report(s.w.round, t, outcome, attempt))
    ensures Safe(cfg, st, s.(w := Reported(s.w, t, outcome, attempt)))
  {
    hide HasVerdict, CountJobs, Budget, Anchored, ViewAfter, Trusted, Since, AnswerOk;
    var s' := s.(w := Reported(s.w, t, outcome, attempt));
    forall i | 0 <= i < |s'.w.sent| ensures ReportOk(cfg, st, s', s'.w.sent[i]) {
      ReportKept(cfg, st, s, s', s'.w.sent[i]);
    }
    forall k | 0 <= k < |s.w.jobs| ensures JobOk(cfg, st, s', s.w.jobs[k]) {
      assert JobOk(cfg, st, s, s.w.jobs[k]);
    }
  }

  // ---- A new round does not change what earlier ones must show ----

  lemma {:induction false} SinceKept(st: Start, resets: seq<set<TaskId>>, marks: seq<nat>, reset: set<TaskId>,
    mark: nat, t: TaskId, round: nat)
    requires round < |resets| && round < |marks|
    ensures Since(st, resets + [reset], marks + [mark], t, round) == Since(st, resets, marks, t, round)
  {
    if t !in resets[round] && round > 0 {
      SinceKept(st, resets, marks, reset, mark, t, round - 1);
    }
  }

  lemma TrustedKept(st: Start, resets: seq<set<TaskId>>, reset: set<TaskId>, t: TaskId, round: nat)
    requires round < |resets|
    ensures Trusted(st, resets + [reset], t, round) == Trusted(st, resets, t, round)
  {
    assert forall k :: 0 <= k < |resets| ==> (resets + [reset])[k] == resets[k];
  }

  lemma {:induction false} SinceBounded(st: Start, resets: seq<set<TaskId>>, marks: seq<nat>, t: TaskId, round: nat,
    n: nat)
    requires round < |resets| && round < |marks| && forall k :: 0 <= k < |marks| ==> marks[k] <= n
    ensures Since(st, resets, marks, t, round) <= n
  {
    if t !in resets[round] && round > 0 {
      SinceBounded(st, resets, marks, t, round - 1, n);
    }
  }

  /** Only a task that was verified before the actor started can show an older verdict. */
  lemma {:induction false} SinceInOwnLife(st: Start, resets: seq<set<TaskId>>, marks: seq<nat>, t: TaskId, round: nat)
    requires round < |resets| && round < |marks| && forall k :: 0 <= k < |marks| ==> |st.chain| <= marks[k]
    requires !(t in st.issues && st.issues[t].meta.status.Verified?) || t in resets[round]
    ensures Since(st, resets, marks, t, round) >= |st.chain|
  {
    if t !in resets[round] && round > 0 {
      SinceInOwnLife(st, resets, marks, t, round - 1);
    }
  }

  /** The next round begins; the chain's length marks where. */
  function RoundOpened(s: State, wave: seq<TaskPlan>, reset: set<TaskId>): State {
    s.(w := NewRound(s.w, wave, reset), marks := s.marks + [|s.chain|])
  }

  lemma NewRoundSafe(cfg: Config, st: Start, s: State, wave: seq<TaskPlan>, reset: set<TaskId>)
    requires Safe(cfg, st, s) && s.w.round < cfg.maxReplans && s.w.round < |s.sigs|
    ensures Safe(cfg, st, RoundOpened(s, wave, reset))
  {
    hide HasVerdict, Anchored, ViewAfter, Since, Trusted, CountJobs, Budget;
    var s' := RoundOpened(s, wave, reset);
    forall i | 0 <= i < |s.w.sent| ensures ReportOk(cfg, st, s', s.w.sent[i]) {
      var r := s.w.sent[i];
      assert ReportOk(cfg, st, s, r);
      SinceKept(st, s.w.resets, s.marks, reset, |s.chain|, r.task, r.round);
      TrustedKept(st, s.w.resets, reset, r.task, r.round);
    }
    forall k | 0 <= k < |s.w.jobs| ensures JobOk(cfg, st, s', s.w.jobs[k]) {
      assert JobOk(cfg, st, s, s.w.jobs[k]);
    }
  }

  /** Safety does not look at the routes, the places or the oracles in flight. */
  lemma SafeFrame(cfg: Config, st: Start, s: State, s': State)
    requires Safe(cfg, st, s)
    requires s' == s.(w := s'.w, round := s'.round, place := s'.place, jobToTask := s'.jobToTask)
    requires s'.w == s.w.(inflight := s'.w.inflight, released := s'.w.released)
    ensures Safe(cfg, st, s')
  {
    hide HasVerdict, CountJobs, Budget, Anchored, ViewAfter, Since, Trusted;
    forall i | 0 <= i < |s.w.sent| ensures ReportOk(cfg, st, s', s.w.sent[i]) {
      assert ReportOk(cfg, st, s, s.w.sent[i]);
    }
    forall k | 0 <= k < |s.w.jobs| ensures JobOk(cfg, st, s', s.w.jobs[k]) {
      assert JobOk(cfg, st, s, s.w.jobs[k]);
    }
  }

  // ---- How many jobs one actor starts ----

  function TotalBudget(cfg: Config, tasks: seq<TaskId>): nat {
    if tasks == [] then 0 else Budget(cfg, tasks[0]) + TotalBudget(cfg, tasks[1..])
  }

  function RowSum(jobs: seq<Job>, round: nat, tasks: seq<TaskId>): nat {
    if tasks == [] then 0 else CountJobs(jobs, round, tasks[0]) + RowSum(jobs, round, tasks[1..])
  }

  /** All jobs of the rounds before `rounds`, counted task by task. */
  function GridSum(jobs: seq<Job>, rounds: nat, tasks: seq<TaskId>): nat {
    if rounds == 0 then 0 else GridSum(jobs, rounds - 1, tasks) + RowSum(jobs, rounds - 1, tasks)
  }

  lemma {:induction false} RowSumAppend(jobs: seq<Job>, j: Job, round: nat, tasks: seq<TaskId>)
    ensures RowSum(jobs + [j], round, tasks) >= RowSum(jobs, round, tasks) + if j.round == round &&
      j.task in tasks then 1 else 0
  {
    if tasks != [] {
      CountAppend(jobs, j, round, tasks[0]);
      RowSumAppend(jobs, j, round, tasks[1..]);
    }
  }

  lemma {:induction false} GridSumAppend(jobs: seq<Job>, j: Job, rounds: nat, tasks: seq<TaskId>)
    ensures GridSum(jobs + [j], rounds, tasks) >= GridSum(jobs, rounds, tasks) + if j.round < rounds &&
      j.task in tasks then 1 else 0
  {
    if rounds > 0 {
      GridSumAppend(jobs, j, rounds - 1, tasks);
      RowSumAppend(jobs, j, rounds - 1, tasks);
    }
  }

  lemma {:induction false} EveryJobIsCounted(jobs: seq<Job>, rounds: nat, tasks: seq<TaskId>)
    requires forall k :: 0 <= k < |jobs| ==> jobs[k].round < rounds && jobs[k].task in tasks
    ensures |jobs| <= GridSum(jobs, rounds, tasks)
  {
    if jobs != [] {
      var n := |jobs| - 1;
      EveryJobIsCounted(jobs[..n], rounds, tasks);
      GridSumAppend(jobs[..n], jobs[n], rounds, tasks);
      assert jobs[..n] + [jobs[n]] == jobs;
    }
  }

  lemma {:induction false} RowBounded(cfg: Config, jobs: seq<Job>, round: nat, tasks: seq<TaskId>)
    requires forall t :: CountJobs(jobs, round, t) <= Budget(cfg, t)
    ensures RowSum(jobs, round, tasks) <= TotalBudget(cfg, tasks)
  {
    if tasks != [] {
      RowBounded(cfg, jobs, round, tasks[1..]);
    }
  }

  lemma {:induction false} GridBounded(cfg: Config, jobs: seq<Job>, rounds: nat, tasks: seq<TaskId>)
    requires forall r, t :: CountJobs(jobs, r, t) <= Budget(cfg, t)
    ensures GridSum(jobs, rounds, tasks) <= rounds * TotalBudget(cfg, tasks)
  {
    if rounds > 0 {
      GridBounded(cfg, jobs, rounds - 1, tasks);
      RowBounded(cfg, jobs, rounds - 1, tasks);
      assert rounds * TotalBudget(cfg, tasks) == (rounds - 1) * TotalBudget(cfg, tasks) + TotalBudget(cfg, tasks);
    }
  }

  /** One actor starts at most (max_replans + 1) times the sum of its tasks' attempts, in any run. */
  lemma JobsBounded(cfg: Config, st: Start, s: State)
    requires Safe(cfg, st, s)
    ensures |s.w.jobs| <= (cfg.maxReplans + 1) * TotalBudget(cfg, cfg.tasks)
  {
    EveryJobIsCounted(s.w.jobs, cfg.maxReplans + 1, cfg.tasks);
    GridBounded(cfg, s.w.jobs, cfg.maxReplans + 1, cfg.tasks);
  }

  // ---- What a live, idle run guarantees ----

  /** No released task is ever orphaned: each unreported one has a job, routed unless two issues were found with one
      job, or an oracle that will answer. */
  lemma NothingIsOrphaned(cfg: Config, st: Start, s: State, t: TaskId)
    requires Live(cfg, st, s, [], {}) && t in s.w.released && t !in s.w.reported
    ensures t in s.issues
    ensures (s.issues[t].meta.status.Spawned? && s.issues[t].meta.jobId.Some? &&
             (Separate(st, s) ==> var j := s.issues[t].meta.jobId.value; j in s.jobToTask && s.jobToTask[j] == t)) ||
            (s.issues[t].meta.status.Verifying? && (t, s.issues[t].meta.attempt as nat) in s.w.inflight)
  {
    assert Ids([]) == {};
    assert TaskOk(cfg, st, s, t);
  }

  /** A routed job is the job of a `Spawned` issue; unless two issues were found with one job the converse holds too, so
      a task has at most one live job. */
  lemma RoutesAreExact(cfg: Config, st: Start, s: State, t: TaskId, j: JobId)
    requires Live(cfg, st, s, [], {}) && t in s.w.planned
    ensures j in s.jobToTask && s.jobToTask[j] == t ==>
              t in s.issues && s.issues[t].meta.status.Spawned? && s.issues[t].meta.jobId == Some(j)
    ensures Separate(st, s) && (st.isNew || (t in s.w.released && t !in s.w.reported)) ==>
              (t in s.issues && s.issues[t].meta.status.Spawned? && s.issues[t].meta.jobId == Some(j) ==>
                 j in s.jobToTask && s.jobToTask[j] == t)
  {
    assert Ids([]) == {};
    assert TaskOk(cfg, st, s, t);
  }

  // ---- The first state of an actor ----

  function FirstWorld(tasks: seq<TaskId>, issues: map<TaskId, Issue>, seal: File, run: Option<RunMeta>,
                      first: seq<TaskPlan>, used: set<JobId>): World {
    var planned := ToSet(tasks);
    World(planned, 0, Ids(first), {}, [],
          [set t | t in planned && (t in issues ==> issues[t].meta.status.Pending?)],
          used, [], [], {}, [Disk(issues, seal, run)])
  }

  function FirstState(cfg: Config, st: Start, run: Option<RunMeta>, first: seq<TaskPlan>, used: set<JobId>): State {
    State(st.issues, st.chain, st.seal, run, map[], 0, None,
      FirstWorld(cfg.tasks, st.issues, st.seal, run, first, used),
          map u | u in ToSet(cfg.tasks) :: if u in Ids(first) then Queued else Waiting, [], [|st.chain|], [])
  }

  lemma FirstSafe(cfg: Config, st: Start, run: Option<RunMeta>, first: seq<TaskPlan>, used: set<JobId>)
    requires StartOk(cfg, st) && Named(ToSet(cfg.tasks), st.issues)
    ensures Safe(cfg, st, FirstState(cfg, st, run, first, used))
  {
    hide Anchored;
    var s := FirstState(cfg, st, run, first, used);
    assert DiskOk(st, s.chain, s.w.disks[0]);
  }

  lemma FirstLive(cfg: Config, st: Start, run: Option<RunMeta>, first: seq<TaskPlan>, used: set<JobId>)
    requires StartOk(cfg, st) && Named(ToSet(cfg.tasks), st.issues) && Distinct(first) && Ids(first) <= ToSet(cfg.tasks)
    requires forall t :: t in st.issues && st.issues[t].meta.jobId.Some? ==> st.issues[t].meta.jobId.value in used
    ensures Live(cfg, st, FirstState(cfg, st, run, first, used), first, {})
  {
    var s := FirstState(cfg, st, run, first, used);
    forall u | u in s.place ensures TaskOk(cfg, st, s, u) {
      if Vetted(cfg, st, s, u) && u in s.issues {
        FirstTask(cfg, st, s, u);
      }
    }
  }

  /** What was found and is vouched for is undecided or settled. */
  lemma FirstTask(cfg: Config, st: Start, s: State, u: TaskId)
    requires s.issues == st.issues && s.chain == st.chain && |s.w.resets| == 1 && |s.marks| == 1 && s.w.round == 0
    requires u in s.issues ==> s.issues[u].meta.id == u
    requires u in s.w.resets[0] ==> UnstartedAt(st, u)
    requires Vetted(cfg, st, s, u) && u in s.issues && (st.isNew ==> s.issues[u].meta.status.Pending?)
    ensures Undecided(st, s.issues[u].meta) || Settled(cfg, st, s, u)
  {
    var m := s.issues[u].meta;
    if m.status.Verified? && u in cfg.accept {
      assert Vouched(st, u);
      assert NamesVerdict(st.chain, m.verdictSeal, u, m.attempt, true);
      assert Since(st, s.w.resets, s.marks, u, 0) == 0;
    }
  }
}
