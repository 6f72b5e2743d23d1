/** Whole runs: starting, resuming, the message loop, and any number of crashes in between. */
module Runs {
  import opened Wrappers
  import opened Text
  import opened Seal
  import opened SealBytes
  import opened IssueFile
  import opened ShellQuote
  import opened Compose
  import opened World
  import opened DriverState
  import opened DriverSteps
  import opened DriverSpec
  import opened DispatchDriver
  import SealFile

  datatype TaskSpec = TaskSpec(
    id: TaskId, agent: string, title: string, body: string, dependsOn: seq<TaskId>,
    accept: Option<string>, maxAttempts: Option<nat>)

  datatype Request = Request(
    rfcId: string, project: string, tasks: seq<TaskSpec>, globalAccept: Option<string>, maxReplans: nat)

  // ---- Configuration of an actor ----

  /** `unwrap_or(1).max(1) as u32`: the cast keeps the low 32 bits. */
  function MaxAttempts(n: Option<nat>): u32 {
    var wanted := n.GetOr(1);
    (if wanted < 1 then 1 else wanted) % 0x1_0000_0000
  }

  function AcceptSpecs(specs: seq<TaskSpec>): map<TaskId, AcceptSpec> {
    if specs == [] then map[]
    else
      var before, last := AcceptSpecs(specs[..|specs| - 1]), specs[|specs| - 1];
      match last.accept
      case None => before
      case Some(command) => before[last.id := AcceptSpec(command, MaxAttempts(last.maxAttempts))]
  }

  function TaskIds(specs: seq<TaskSpec>): seq<TaskId> {
    seq(|specs|, i requires 0 <= i < |specs| => specs[i].id)
  }

  function ConfigOf(req: Request, d: Digest, c: SealFile.Codec): Config {
    Config(TaskIds(req.tasks), AcceptSpecs(req.tasks), req.globalAccept, req.maxReplans % 0x1_0000_0000,
           (t, agent) => TaskCommandLine(req.rfcId, t, agent, req.project),
           (i: Issue) => Reread(i), Sha(d), (r: Record) => |c.encode(r)|, (tail: string) => d(Utf8(Trim(tail))),
           (prompt: string) => !Contains(prompt, RESPONSE_MARKER), (title: string) => TitleFree(title),
           (response: Option<string>) => StoredText(response))
  }

  lemma ConfigOfOk(req: Request, d: Digest, c: SealFile.Codec)
    requires SealFile.Faithful(c)
    ensures ConfigOk(ConfigOf(req, d, c))
  {
    ShaIgnoresHash(d);
    hide Contains, StoredText, TitleFree;
    var cfg := ConfigOf(req, d, c);
    assert forall i :: cfg.reread(i).meta == i.meta;
    hide Reread;
    forall i ensures cfg.legible(cfg.reread(i).prompt) {
      RereadIsNormal(i);
    }
    forall i: Issue | cfg.plain(i.meta.title) && cfg.legible(i.prompt)
      ensures cfg.reread(i).response == cfg.kept(i.response)
    {
      RereadStores(i);
    }
    forall x ensures cfg.kept(cfg.kept(x)) == cfg.kept(x) {
      StoredTwice(x);
    }
  }

  // ---- Opening a run ----

  function PendingIssue(spec: TaskSpec): Issue {
    Issue(IssueMeta(spec.id, spec.title, spec.agent, spec.dependsOn, Pending, None, None, None, 0, None), spec.body,
      None)
  }

  function Opened(cfg: Config, issues: map<TaskId, Issue>, specs: seq<TaskSpec>): map<TaskId, Issue> {
    if specs == [] then issues
    else
      var last := specs[|specs| - 1];
      Opened(cfg, issues, specs[..|specs| - 1])[last.id := cfg.reread(PendingIssue(last))]
  }

  lemma {:induction false} OpenedMeans(cfg: Config, issues: map<TaskId, Issue>, specs: seq<TaskSpec>)
    requires ConfigOk(cfg)
    ensures var after := Opened(cfg, issues, specs);
            (forall t :: t in ToSet(TaskIds(specs)) ==>
               t in after && after[t].meta.id == t && after[t].meta.status.Pending? && after[t].meta.attempt == 0 &&
               after[t].meta.jobId.None? && after[t].meta.responseSha.None? && after[t].meta.seal.None? &&
                 after[t].meta.verdictSeal.None? && cfg.legible(after[t].prompt)) &&
            (forall t :: t !in ToSet(TaskIds(specs)) ==>
              (t in after <==> t in issues) &&
              (t in issues ==> after[t] == issues[t]))
  {
    if specs == [] {
      assert TaskIds(specs) == [];
    } else {
      var n := |specs| - 1;
      OpenedMeans(cfg, issues, specs[..n]);
      var ids, fewer := TaskIds(specs), TaskIds(specs[..n]);
      assert forall i :: 0 <= i < n ==> ids[i] == fewer[i];
      assert ToSet(ids) == ToSet(fewer) + {specs[n].id} by {
        assert ids[n] == specs[n].id;
        assert forall i :: 0 <= i < n ==> fewer[i] in ToSet(fewer);
      }
    }
  }

  lemma OpenedStart(cfg: Config, issues: map<TaskId, Issue>, specs: seq<TaskSpec>, seal: File)
    requires ConfigOk(cfg) && cfg.tasks == TaskIds(specs)
    ensures var st := Found(Opened(cfg, issues, specs), seal, true);
            StartOk(cfg, st) && Named(ToSet(cfg.tasks), st.issues) &&
            (forall t :: t in ToSet(cfg.tasks) ==> InBase(st, t) && t in st.issues && cfg.legible(st.issues[t].prompt))
  {
    OpenedMeans(cfg, issues, specs);
  }

  /** What an actor finds. */
  function Found(issues: map<TaskId, Issue>, seal: File, isNew: bool): Start {
    Start(issues, seal, seal.Records(), isNew)
  }

  /** One `Pending` issue per task, written before anything is spawned; any write may fail. */
  method OpenRun(cfg: Config, issues: map<TaskId, Issue>, specs: seq<TaskSpec>)
    returns (ok: bool, result: map<TaskId, Issue>)
    ensures ok ==> result == Opened(cfg, issues, specs)
    ensures exists n :: 0 <= n <= |specs| && result == Opened(cfg, issues, specs[..n])
  {
    result := issues;
    for i := 0 to |specs|
      invariant result == Opened(cfg, issues, specs[..i])
    {
      var writable: bool := *;
      if !writable {
        return false, result;
      }
      assert specs[..i + 1][..i] == specs[..i];
      var spec := specs[i];
      var pending := Issue(
        IssueMeta(spec.id, spec.title, spec.agent, spec.dependsOn, Pending, None, None, None, 0, None), spec.body,
          None);
      result := result[spec.id := cfg.reread(pending)];
    }
    assert specs[..|specs|] == specs;
    ok := true;
  }

  /** The kernel's answer to a first authorize. */
  predicate FirstWaveAllowed(cfg: Config, reply: AuthorizeReply) {
    reply.Authorized? ==> Distinct(reply.first) && Ids(reply.first) <= ToSet(cfg.tasks)
  }

  method AuthorizeFirst(cfg: Config) returns (reply: AuthorizeReply)
    ensures FirstWaveAllowed(cfg, reply)
  {
    reply := *;
    if !FirstWaveAllowed(cfg, reply) {
      reply := AuthorizeError("contract");
    }
  }

  /** The daemon's job ids cover those on disk. */
  method KnownJobs(issues: map<TaskId, Issue>) returns (used: set<JobId>)
    ensures forall t :: t in issues && issues[t].meta.jobId.Some? ==> issues[t].meta.jobId.value in used
  {
    var more: set<JobId> := *;
    used := more + set t | t in issues && issues[t].meta.jobId.Some? :: issues[t].meta.jobId.value;
  }

  /** A stop while the run is being opened leaves each planned issue as it was or `Pending`. */
  lemma PartlyOpened(cfg: Config, specs: seq<TaskSpec>, n: nat, disk: Disk)
    requires ConfigOk(cfg) && n <= |specs| && PlanAnchored(cfg, disk)
    ensures PlanAnchored(cfg, disk.(issues := Opened(cfg, disk.issues, specs[..n])))
  {
    OpenedMeans(cfg, disk.issues, specs[..n]);
  }

  /** Authorize, then write the run and its issues; `after` is what is on disk when the actor starts, or when opening
      stopped. */
  method StartRun(cfg: Config, specs: seq<TaskSpec>, disk: Disk)
    returns (d: Driver?, first: seq<TaskPlan>, after: Disk, ghost reply: AuthorizeReply, ghost writes: bool)
    requires ConfigOk(cfg) && cfg.tasks == TaskIds(specs)
    ensures d != null <==> reply.Authorized? && writes
    ensures d != null ==>
      fresh(d) && d.cfg == cfg && d.IsLive(first, {}) && d.Fresh() && d.st == Found(after.issues, disk.seal, true)
    ensures d != null ==> first == reply.first && after.run == d.run && d.run.value.runId == d.runId == reply.runId
    ensures d != null ==>
      after.issues == Opened(cfg, disk.issues, specs) &&
      forall t :: t in ToSet(cfg.tasks) ==> InBase(d.st, t) && t in d.st.issues && cfg.legible(d.st.issues[t].prompt)
    ensures after.seal == disk.seal && (PlanAnchored(cfg, disk) ==> PlanAnchored(cfg, after))
    ensures !reply.Authorized? ==> after == disk
  {
    hide Safe, Live, Opened, Named, InBase, StartOk;
    d, first, after, writes := null, [], disk, true;
    var answer := AuthorizeFirst(cfg);
    reply := answer;
    if !answer.Authorized? {
      return;
    }
    var writable: bool := *;
    writes := writable;
    if !writable {
      return;
    }
    var clock: string := *;
    var meta := RunMeta(answer.runId, clock, None);
    var ok, issues := OpenRun(cfg, disk.issues, specs);
    after, writes := Disk(issues, disk.seal, Some(meta)), ok;
    if PlanAnchored(cfg, disk) {
      ghost var n :| 0 <= n <= |specs| && issues == Opened(cfg, disk.issues, specs[..n]);
      PartlyOpened(cfg, specs, n, disk);
    }
    if !ok {
      return;
    }
    OpenedStart(cfg, disk.issues, specs, disk.seal);
    var used := KnownJobs(issues);
    first := answer.first;
    d := new Driver(cfg, Found(issues, disk.seal, true), issues, disk.seal, meta, first, used);
  }

  /** A closed run is never resumed; an open one is rebuilt from the issues alone. */
  method ResumeRun(cfg: Config, disk: Disk)
    returns (d: Driver?, first: seq<TaskPlan>, ghost reply: AuthorizeReply, ghost writes: bool)
    requires ConfigOk(cfg) && Named(ToSet(cfg.tasks), disk.issues)
    ensures d != null <==> disk.run.Some? && disk.run.value.closed.None? && reply.Authorized? && writes
    ensures d != null ==>
      fresh(d) && d.cfg == cfg && d.IsLive(first, {}) && d.Fresh() && d.st == Found(disk.issues, disk.seal, false)
    ensures d != null ==>
      first == reply.first && d.runId == reply.runId && d.run == Some(disk.run.value.(runId := d.runId, closed := None))
  {
    d, first, writes := null, [], true;
    reply := *;
    if disk.run.None? || disk.run.value.closed.Some? {
      return;
    }
    var answer := AuthorizeFirst(cfg);
    reply := answer;
    if !answer.Authorized? {
      return;
    }
    var writable: bool := *;
    writes := writable;
    if !writable {
      return;
    }
    var used := KnownJobs(disk.issues);
    first := answer.first;
    d := new Driver(cfg, Found(disk.issues, disk.seal, false), disk.issues, disk.seal,
                    disk.run.value.(runId := answer.runId, closed := None), first, used);
  }

  // ---- The actor loop ----

  datatype Msg = Response(ev: FinalResponse) | Verdict(task: TaskId, attempt: u32, result: AcceptanceResult) | Abort

  /** What an actor has done so far keeps every promise of the dispatch design. */
  ghost predicate Promises(cfg: Config, st: Start, s: State) {
    var w := s.w;
    |w.resets| == |s.marks| == w.round + 1 && (forall i :: 0 <= i < |w.sent| ==> w.sent[i].round <= w.round) &&
    (forall k :: 0 <= k < |w.jobs| ==> w.jobs[k].round <= w.round) &&
    // the kernel hears at most one outcome per task and round
    (forall i, j :: 0 <= i < j < |w.sent| ==> w.sent[i].round != w.sent[j].round || w.sent[i].task != w.sent[j].task) &&
    (forall i :: 0 <= i < |w.sent| ==> VerifiedBeforeDone(cfg, st, s, w.sent[i])) &&
    // the number of jobs is bounded, per round and task and in all
    (forall r, t :: CountJobs(w.jobs, r, t) <= Budget(cfg, t)) &&
    (forall k :: 0 <= k < |w.jobs| ==> w.jobs[k].attempt < Budget(cfg, w.jobs[k].task)) &&
    |w.jobs| <= (cfg.maxReplans + 1) * TotalBudget(cfg, cfg.tasks) && w.round <= cfg.maxReplans &&
    // a retry answers a failing verdict sealed in its round; before the first re-plan only unstarted tasks are started
    (forall k :: 0 <= k < |w.jobs| && w.jobs[k].attempt > 0 ==>
       HasVerdict(s.chain, s.marks[w.jobs[k].round], w.jobs[k].task, w.jobs[k].attempt - 1, false)) &&
    (forall k :: 0 <= k < |w.jobs| && w.jobs[k].attempt == 0 && w.jobs[k].round == 0 ==>
      UnstartedAt(st, w.jobs[k].task)) &&
    // what was settled on disk is reported as it was settled
    (forall i :: 0 <= i < |w.sent| && w.sent[i].round == 0 && w.sent[i].task in st.issues ==>
       var m := st.issues[w.sent[i].task].meta.status;
       (m.Done? || m.Verified? ==> w.sent[i].outcome.OutcomeDone?) &&
         (m.Failed? || m.Rejected? ==> w.sent[i].outcome.OutcomeFailed?)) &&
    // a task that a round starts over is spawned in that round before it is reported
    (forall i :: 0 <= i < |w.sent| && w.sent[i].task in w.resets[w.sent[i].round] ==>
       CountJobs(w.jobs, w.sent[i].round, w.sent[i].task) >= 1) &&
    // in a new run no job is heard twice
    (st.isNew ==> forall i, k :: 0 <= i < k < |w.heard| ==> w.heard[i].job != w.heard[k].job) &&
    // an answered task stores what was heard from its job
    (forall t :: t in w.planned && t in s.issues ==> StoresHeard(cfg, st, s, t))
  }

  /** An answered issue stores the text heard from its job, as the store keeps it: of every planned task in a new run,
      and of those whose job this actor started, or heard for the task, in a resumed one. The title must be plain and
      the issue, where there was one, found as issue files read. */
  ghost predicate StoresHeard(cfg: Config, st: Start, s: State, t: TaskId)
    requires t in s.issues
  {
    var m := s.issues[t].meta;
    HasAnswer(m.status) && Answerable(st, s.w.jobs, s.w.heard, t, m) ==>
      m.jobId.Some? &&
      exists k :: Answers(s.w.heard, k, t, m.jobId.value) &&
        (cfg.plain(m.title) && (t in st.issues ==> cfg.legible(st.issues[t].prompt)) ==>
           s.issues[t].response == cfg.kept(Some(s.w.heard[k].response.text)))
  }

  /** A task with an oracle that was vouched for when the actor started (every planned task of a new run), or that a
      round since has started over, is reported done only on a passing verdict for the attempt reported. The verdict was
      sealed in the round that started the task over last, otherwise in this actor's life, unless the task was verified
      before that. */
  ghost predicate VerifiedBeforeDone(cfg: Config, st: Start, s: State, r: Report)
    requires r.round <= s.w.round && |s.w.resets| == |s.marks| == s.w.round + 1
  {
    r.outcome.OutcomeDone? && r.task in cfg.accept && Trusted(st, s.w.resets, r.task, r.round) ==>
      HasVerdict(s.chain, Since(st, s.w.resets, s.marks, r.task, r.round), r.task, r.attempt, true) &&
      (r.task in s.w.resets[r.round] ==> HasVerdict(s.chain, s.marks[r.round], r.task, r.attempt, true)) &&
      (!(r.task in st.issues && st.issues[r.task].meta.status.Verified?) ==>
        HasVerdict(s.chain, |st.chain|, r.task, r.attempt, true))
  }

  /** In a new run no two issues share a job when the actor starts. */
  lemma NewRunIsSeparate(cfg: Config, st: Start, s: State)
    requires StartOk(cfg, st) && st.isNew && s.place.Keys == ToSet(cfg.tasks)
    ensures Separate(st, s)
  {
  }

  /** A resumed actor that adopts one job for two tasks: its response is heard for the later one, and no job is routed
      to the other any more, though its issue still names the job. */
  lemma SharedJobOrphans(s: State, t: TaskId, u: TaskId, j: JobId, ev: FinalResponse)
    requires t != u && ev.jobId == j && forall k :: k in s.jobToTask ==> s.jobToTask[k] != t
    ensures var adopted := Adopted(Adopted(s, t, j), u, j);
            var after := JobTaken(adopted, ev);
            !AnyRoute(after, t) && after.issues == s.issues && after.place[t] == Running(j) &&
            after.w.heard == s.w.heard + [Heard(j, u, ev)]
  {
  }

  predicate AnyRoute(s: State, t: TaskId) {
    exists k :: k in s.jobToTask && s.jobToTask[k] == t
  }

  /** In a new run every planned task is vouched for. */
  lemma NewRunIsVouched(cfg: Config, st: Start, t: TaskId)
    requires StartOk(cfg, st) && st.isNew && t in ToSet(cfg.tasks)
    ensures Vouched(st, t) && !(t in st.issues && st.issues[t].meta.status.Verified?)
  {
  }

  /** At every disk state the actor went through, the cuts of its appends included: an unreadable seal file, or anchored
      issues on a chain that only grew and verifies; and a closing reason that stays. */
  ghost predicate DurablePromises(cfg: Config, st: Start, s: State) {
    forall k :: 0 <= k < |s.w.disks| ==>
      DiskOk(st, s.chain, s.w.disks[k]) && ClosedAs(s.w.disks[k].run, s.run) &&
        SealKept(cfg.hasher, st.seal, s.w.disks[k].seal)
  }

  /** While the file is readable its records only grew, and verify if they did before. */
  ghost predicate SealKept(h: Hasher, before: File, after: File) {
    !after.view.Broken? ==>
      !before.view.Broken? && before.view.recs <= after.view.recs &&
      (Verifies(h, before.view.recs) ==> Verifies(h, after.view.recs))
  }

  lemma SafeKeepsPromises(cfg: Config, st: Start, s: State)
    requires Safe(cfg, st, s)
    ensures Promises(cfg, st, s)
  {
    hide Trusted, Since;
    JobsBounded(cfg, st, s);
    forall i | 0 <= i < |s.w.sent| ensures VerifiedBeforeDone(cfg, st, s, s.w.sent[i]) {
      ReportVerified(cfg, st, s, s.w.sent[i]);
    }
    forall t | t in s.w.planned && t in s.issues ensures StoresHeard(cfg, st, s, t) {
      AnswerAt(cfg, st, s, t);
    }
    assert forall i :: 0 <= i < |s.w.sent| ==> ReportOk(cfg, st, s, s.w.sent[i]);
    assert forall k :: 0 <= k < |s.w.jobs| ==> JobOk(cfg, st, s, s.w.jobs[k]);
  }

  lemma ReportVerified(cfg: Config, st: Start, s: State, r: Report)
    requires ReportOk(cfg, st, s, r) && r.round <= s.w.round && |s.w.resets| == |s.marks| == s.w.round + 1
    requires forall k :: 0 <= k < |s.marks| ==> |st.chain| <= s.marks[k]
    ensures VerifiedBeforeDone(cfg, st, s, r)
  {
    if !(r.task in st.issues && st.issues[r.task].meta.status.Verified?) {
      SinceInOwnLife(st, s.w.resets, s.marks, r.task, r.round);
    }
  }

  lemma SafeSignatures(cfg: Config, st: Start, s: State)
    requires Safe(cfg, st, s)
    ensures s.w.round <= |s.sigs| && forall i :: 0 < i < |s.sigs| ==> s.sigs[i - 1] != s.sigs[i]
  {
  }

  lemma SafeSeal(cfg: Config, st: Start, s: State)
    requires Safe(cfg, st, s)
    ensures (!s.seal.view.Broken? ==> s.seal.view.recs == s.chain) && ViewAfter(st.seal.view, s.extents, s.seal.view)
  {
  }

  lemma SafeKeepsDurable(cfg: Config, st: Start, s: State)
    requires Safe(cfg, st, s) && st.chain == st.seal.Records()
    ensures DurablePromises(cfg, st, s)
  {
    forall k | 0 <= k < |s.w.disks| ensures SealKept(cfg.hasher, st.seal, s.w.disks[k].seal) {
      var v := s.w.disks[k].seal.view;
      assert DiskOk(st, s.chain, s.w.disks[k]);
      if !v.Broken? && Verifies(cfg.hasher, st.chain) {
        PrefixVerifies(cfg.hasher, s.chain, |v.recs|);
        assert s.chain[..|v.recs|] == v.recs;
      }
    }
  }

  /** Process the first wave, then any messages: responses, verdicts and aborts in any order. The actor ends early only
      on a stop of the kernel's, an error or an abort, and then its run is closed with that reason; otherwise no
      released task is left behind. */
  method RunActor(d: Driver, first: seq<TaskPlan>, msgs: seq<Msg>) returns (ended: bool, ghost trace: seq<State>)
    requires d.IsLive(first, {})
    modifies d
    ensures d.IsSafe() && Traced(d.cfg, msgs, trace)
    ensures ended ==> Halted(d.cfg, d.log, |old(d.log)|) && d.IsShut()
    ensures !ended ==> |trace| == |msgs| + 1 && trace[|msgs|] == d.St() && d.IsOpen()
    ensures !ended ==> forall t :: t in d.world.released ==> t in d.world.reported || Awaited(d.st, d.St(), t)
    ensures Promises(d.cfg, d.st, d.St()) && LogOk(d.cfg, d.log)
    ensures d.world.round <= |d.sigs| && forall i :: 0 < i < |d.sigs| ==> d.sigs[i - 1] != d.sigs[i]
    ensures DurablePromises(d.cfg, d.st, d.St())
    ensures (!d.seal.view.Broken? ==> d.seal.view.recs == d.chain) && ViewAfter(d.st.seal.view, d.extents, d.seal.view)
    ensures d.seal.Readable() <==> StaysReadable(d.st.seal.view, d.extents) && d.seal.size <= CAP
  {
    hide Safe, Live, Halted, LogOk;
    ended, trace := Drive(d, first, msgs);
    if !ended {
      forall t | t in d.world.released && t !in d.world.reported ensures Awaited(d.st, d.St(), t) {
        NothingIsOrphaned(d.cfg, d.st, d.St(), t);
      }
    }
    SafeKeepsPromises(d.cfg, d.st, d.St());
    SafeKeepsDurable(d.cfg, d.st, d.St());
    SafeSignatures(d.cfg, d.st, d.St());
    SafeSeal(d.cfg, d.st, d.St());
  }

  /** Something will come back for the task: its job, which is routed to it unless two issues were found with one job,
      or its oracle. */
  predicate Awaited(st: Start, s: State, t: TaskId) {
    t in s.issues &&
    var m := s.issues[t].meta;
    (m.status.Spawned? && m.jobId.Some? &&
     (Separate(st, s) ==> m.jobId.value in s.jobToTask && s.jobToTask[m.jobId.value] == t)) ||
    (m.status.Verifying? && (t, m.attempt as nat) in s.w.inflight)
  }

  /** What a message does to a run that goes on behind it. */
  ghost predicate Handled(cfg: Config, msg: Msg, s: State, s': State) {
    match msg
    case Response(ev) => AnsweredBy(cfg, s, s', ev)
    case Verdict(t, attempt, result) => JudgedBy(cfg, s, s', t, attempt, result)
    case Abort => false
  }

  /** The states between messages, the first behind the first wave: each message leads from one to the next. */
  ghost predicate Traced(cfg: Config, msgs: seq<Msg>, trace: seq<State>) {
    |trace| <= |msgs| + 1 && forall i :: 0 <= i < |trace| - 1 ==> Handled(cfg, msgs[i], trace[i], trace[i + 1])
  }

  method Drive(d: Driver, first: seq<TaskPlan>, msgs: seq<Msg>) returns (ended: bool, ghost trace: seq<State>)
    requires d.IsLive(first, {})
    modifies d
    ensures d.IsSafe() && Traced(d.cfg, msgs, trace)
    ensures ended ==> Halted(d.cfg, d.log, |old(d.log)|) && d.IsShut()
    ensures !ended ==> d.IsLive([], {}) && |trace| == |msgs| + 1 && trace[|msgs|] == d.St()
  {
    hide Safe, Live, Halted, LogOk, Grew, AnsweredBy, JudgedBy, Waves, FailsAt;
    trace := [];
    ghost var h := d.Past();
    var started, _, _ := d.ProcessWave(first);
    if started.Err? {
      var _ := d.Teardown("initial wave: ", started.error);
      return true, trace;
    }
    if started.value.Finished? {
      return true, trace;
    }
    trace := [d.St()];
    for i := 0 to |msgs|
      invariant d.IsLive([], {}) && Grew(h, d.Past())
      invariant |trace| == i + 1 && trace[i] == d.St() && Traced(d.cfg, msgs, trace)
    {
      ghost var h1 := d.Past();
      var flow := Handle(d, msgs[i]);
      GrewTwice(h, h1, d.Past());
      if flow.Finished? {
        LogPrefix(h, h1);
        HaltedSooner(d.cfg, d.log, |h1.log|, |h.log|);
        return true, trace;
      }
      trace := trace + [d.St()];
    }
    ended := false;
  }

  /** One message. Only oracle threads send verdicts: those the actor started, or stale ones. */
  method Handle(d: Driver, msg: Msg) returns (flow: Flow)
    requires d.IsLive([], {})
    modifies d
    ensures d.IsSafe() && Grew(old(d.Past()), d.Past())
    ensures flow.GoOn? ==> d.IsLive([], {}) && Handled(d.cfg, msg, old(d.St()), d.St())
    ensures flow.Finished? ==> Halted(d.cfg, d.log, |old(d.log)|) && d.IsShut()
  {
    hide Safe, Live, Halted, LogOk, AnsweredBy, Reprompted, Tells;
    flow := GoOn;
    match msg {
      case Response(ev) =>
        flow := d.OnResponse(ev);
      case Verdict(t, attempt, result) =>
        if (t, attempt as nat) in d.world.inflight || d.Stale(t, attempt) {
          flow := d.OnVerdict(t, attempt, result);
        }
      case Abort =>
        flow := d.OnAbort();
    }
  }

  // ---- Crashes ----

  /** The plan's issues carry their own ids and, if the seal file can be read, are anchored in it. */
  ghost predicate PlanAnchored(cfg: Config, disk: Disk) {
    Named(ToSet(cfg.tasks), disk.issues) &&
    (!disk.seal.view.Broken? ==>
       forall t :: t in ToSet(cfg.tasks) && t in disk.issues ==> Anchored(disk.issues[t].meta, disk.seal.view.recs))
  }

  /** A crash leaves any of the disk states the actor went through, also one inside an append. */
  method Crash(d: Driver) returns (disk: Disk)
    requires d.IsSafe() && (!d.st.seal.view.Broken? ==> forall t :: t in ToSet(d.cfg.tasks) ==> InBase(d.st, t))
    ensures PlanAnchored(d.cfg, disk) && SealKept(d.cfg.hasher, d.st.seal, disk.seal)
  {
    SafeKeepsDurable(d.cfg, d.st, d.St());
    SafeSeal(d.cfg, d.st, d.St());
    SafeKept(d.cfg, d.st, d.St());
    var k: int := *;
    disk := if 0 <= k < |d.world.disks| then d.world.disks[k] else Disk(d.issues, d.seal, d.run);
  }

  lemma SafeKept(cfg: Config, st: Start, s: State)
    requires Safe(cfg, st, s) && st.chain == st.seal.Records()
    ensures SealKept(cfg.hasher, st.seal, s.seal)
  {
  }

  lemma SealKeptTwice(h: Hasher, a: File, b: File, c: File)
    requires SealKept(h, a, b) && SealKept(h, b, c)
    ensures SealKept(h, a, c)
  {
    hide Verifies;
  }

  /** What one actor found, the state it ended in and what came back to it. */
  datatype Life = Life(start: Start, end: State, log: seq<Event>)

  ghost predicate LifeOk(cfg: Config, life: Life) {
    Safe(cfg, life.start, life.end) && LogOk(cfg, life.log) && Promises(cfg, life.start, life.end) &&
    DurablePromises(cfg, life.start, life.end)
  }

  /** Resumed and crashed any number of times, with any messages each time: while the seal file can be read, the plan is
      anchored in it. */
  method Afterlives(cfg: Config, left: Disk, lives: seq<seq<Msg>>) returns (disk: Disk, ghost lived: seq<Life>)
    requires ConfigOk(cfg) && PlanAnchored(cfg, left)
    ensures PlanAnchored(cfg, disk) && SealKept(cfg.hasher, left.seal, disk.seal)
    ensures |lived| <= |lives| && forall i :: 0 <= i < |lived| ==> LifeOk(cfg, lived[i])
  {
    hide Safe, Live, Anchored, Verifies, LogOk, Halted, Promises, DurablePromises;
    disk, lived := left, [];
    for i := 0 to |lives|
      invariant PlanAnchored(cfg, disk) && SealKept(cfg.hasher, left.seal, disk.seal)
      invariant |lived| == i && forall k :: 0 <= k < i ==> LifeOk(cfg, lived[k])
    {
      var again, wave, _, _ := ResumeRun(cfg, disk);
      if again == null {
        return;
      }
      var _, _ := RunActor(again, wave, lives[i]);
      lived := lived + [Life(again.st, again.St(), again.log)];
      ghost var before := disk.seal;
      disk := Crash(again);
      SealKeptTwice(cfg.hasher, left.seal, before, disk.seal);
    }
  }

  /** A run, crashed anywhere (inside an append too) and resumed any number of times. While the seal file can be read,
      its records only grew and verify, and the plan is anchored in them: once the run has begun, and if it was before,
      even when opening stops halfway. Each actor kept its promises. */
  method Lifetime(cfg: Config, specs: seq<TaskSpec>, initial: Disk, lives: seq<seq<Msg>>)
    returns (begun: bool, disk: Disk, ghost lived: seq<Life>)
    requires ConfigOk(cfg) && cfg.tasks == TaskIds(specs)
    ensures begun || PlanAnchored(cfg, initial) ==> PlanAnchored(cfg, disk)
    ensures SealKept(cfg.hasher, initial.seal, disk.seal)
    ensures begun ==> lived != [] && lived[0].start.isNew
    ensures forall i :: 0 <= i < |lived| ==> LifeOk(cfg, lived[i])
  {
    hide Safe, Live, Anchored, Verifies, LogOk, Halted, Promises, DurablePromises;
    var d, first, after, _, _ := StartRun(cfg, specs, initial);
    begun, disk, lived := d != null, after, [];
    if begun {
      var _, _ := RunActor(d, first, if lives == [] then [] else lives[0]);
      ghost var life := Life(d.st, d.St(), d.log);
      disk := Crash(d);
      ghost var before := disk.seal;
      ghost var more;
      disk, more := Afterlives(cfg, disk, if lives == [] then [] else lives[1..]);
      lived := [life] + more;
      SealKeptTwice(cfg.hasher, initial.seal, before, disk.seal);
    }
  }

  /** The same for the configuration a request is launched with; the actors keep to the request's limits. */
  method LifetimeOf(req: Request, d: Digest, c: SealFile.Codec, initial: Disk, lives: seq<seq<Msg>>)
    returns (begun: bool, disk: Disk, ghost lived: seq<Life>)
    requires SealFile.Faithful(c)
    ensures begun || PlanAnchored(ConfigOf(req, d, c), initial) ==> PlanAnchored(ConfigOf(req, d, c), disk)
    ensures SealKept(Sha(d), initial.seal, disk.seal) && (begun ==> lived != [] && lived[0].start.isNew)
    ensures forall i :: 0 <= i < |lived| ==> LifeOk(ConfigOf(req, d, c), lived[i]) && KeepsToRequest(req, lived[i])
  {
    hide Safe, Promises, DurablePromises, ConfigOf, KeepsToRequest, PlanAnchored, LogOk;
    ConfigOfOk(req, d, c);
    ConfigOfRequest(req, d, c);
    begun, disk, lived := Lifetime(ConfigOf(req, d, c), req.tasks, initial, lives);
    forall i | 0 <= i < |lived| ensures KeepsToRequest(req, lived[i]) {
      LifeKeepsToRequest(req, d, c, lived[i]);
    }
  }

  /** The actor has the request's plan and integration command, and its re-plan limit exactly when that fits. */
  lemma ConfigOfRequest(req: Request, d: Digest, c: SealFile.Codec)
    ensures var cfg := ConfigOf(req, d, c);
            cfg.tasks == TaskIds(req.tasks) && cfg.hasher == Sha(d) && cfg.globalAccept == req.globalAccept &&
            cfg.maxReplans <= req.maxReplans && (cfg.maxReplans == req.maxReplans <==> req.maxReplans < 0x1_0000_0000)
  {
  }

  // ---- What a request asks for ----

  /** The attempts one round may spend on a task: one without an oracle or without a limit, otherwise the limit, but at
      least one. */
  function LimitOf(spec: TaskSpec): nat {
    match spec.maxAttempts
    case None => 1
    case Some(n) => if spec.accept.Some? && n > 1 then n else 1
  }

  function SumOfLimits(specs: seq<TaskSpec>): nat {
    if specs == [] then 0 else LimitOf(specs[0]) + SumOfLimits(specs[1..])
  }

  predicate DistinctIds(specs: seq<TaskSpec>) {
    forall i, k :: 0 <= i < k < |specs| ==> specs[i].id != specs[k].id
  }

  /** Oracles run for tasks with an acceptance command, with exactly that command; the integration command is the
      request's. A round starts at most as many jobs for a task as its limit says (one, without an oracle). With
      distinct ids all rounds together start at most (re-plans + 1) times the sum of the limits. */
  ghost predicate KeepsToRequest(req: Request, life: Life) {
    var w := life.end.w;
    (forall i :: 0 <= i < |life.log| ==> EventAsked(req, life.log[i])) && w.round <= req.maxReplans &&
    (forall t, round, i :: LastOracle(req.tasks, t, i) ==> CountJobs(w.jobs, round, t) <= LimitOf(req.tasks[i])) &&
    (forall t, round :: (forall i :: !LastOracle(req.tasks, t, i)) ==> CountJobs(w.jobs, round, t) <= 1) &&
    (DistinctIds(req.tasks) ==> |w.jobs| <= (req.maxReplans + 1) * SumOfLimits(req.tasks))
  }

  ghost predicate EventAsked(req: Request, e: Event) {
    match e
    case OracleStarted(t, _, oracle) => exists i :: LastOracle(req.tasks, t, i) && req.tasks[i].accept == Some(oracle)
    case Integrated(command, _, _, _) => req.globalAccept == Some(command)
    case _ => true
  }

  /** The `i`-th entry is the last one of the task that has an acceptance command. */
  predicate LastOracle(specs: seq<TaskSpec>, t: TaskId, i: int) {
    0 <= i < |specs| && specs[i].id == t && specs[i].accept.Some? &&
    forall k :: i < k < |specs| ==> specs[k].id != t || specs[k].accept.None?
  }

  /** A task has an oracle exactly if an entry of it has an acceptance command; the last such entry gives the command
      and the limit. */
  lemma {:induction false} AcceptSpecsMean(specs: seq<TaskSpec>, t: TaskId)
    ensures t in AcceptSpecs(specs) <==> exists i :: LastOracle(specs, t, i)
    ensures forall i :: LastOracle(specs, t, i) ==>
      Some(AcceptSpecs(specs)[t].command) == specs[i].accept &&
      AcceptSpecs(specs)[t].maxAttempts == MaxAttempts(specs[i].maxAttempts)
  {
    if specs != [] {
      var n := |specs| - 1;
      if specs[n].id == t && specs[n].accept.Some? {
        assert LastOracle(specs, t, n);
      } else {
        AcceptSpecsMean(specs[..n], t);
        assert t in AcceptSpecs(specs) <==> t in AcceptSpecs(specs[..n]);
        assert t in AcceptSpecs(specs) ==> AcceptSpecs(specs)[t] == AcceptSpecs(specs[..n])[t];
        hide AcceptSpecs;
        forall i ensures LastOracle(specs, t, i) <==> LastOracle(specs[..n], t, i) {
          LastOracleOfFewer(specs, t, i);
        }
      }
    }
  }

  lemma LastOracleOfFewer(specs: seq<TaskSpec>, t: TaskId, i: int)
    requires specs != [] && (specs[|specs| - 1].id != t || specs[|specs| - 1].accept.None?)
    ensures LastOracle(specs, t, i) <==> LastOracle(specs[..|specs| - 1], t, i)
  {
    var fewer := specs[..|specs| - 1];
    assert forall k :: 0 <= k < |fewer| ==> fewer[k] == specs[k];
    if LastOracle(fewer, t, i) {
      forall k | i < k < |specs| ensures specs[k].id != t || specs[k].accept.None? {
        assert k < |fewer| ==> fewer[k] == specs[k];
      }
    }
  }

  /** The cast to 32 bits never raises a limit, and keeps it exactly when it fits. */
  lemma BudgetOfOracle(req: Request, d: Digest, c: SealFile.Codec, t: TaskId, i: nat)
    requires LastOracle(req.tasks, t, i)
    ensures Budget(ConfigOf(req, d, c), t) <= LimitOf(req.tasks[i])
    ensures Budget(ConfigOf(req, d, c), t) == LimitOf(req.tasks[i]) <==>
      req.tasks[i].maxAttempts.None? || req.tasks[i].maxAttempts.value < 0x1_0000_0000
  {
    AcceptSpecsMean(req.tasks, t);
    hide AcceptSpecs;
  }

  lemma BudgetWithoutOracle(req: Request, d: Digest, c: SealFile.Codec, t: TaskId)
    requires forall i :: !LastOracle(req.tasks, t, i)
    ensures Budget(ConfigOf(req, d, c), t) == 1
  {
    AcceptSpecsMean(req.tasks, t);
  }

  /** With distinct ids, the actor's budget of a task is the limit in its entry, if that fits. */
  lemma BudgetIsLimitIffFits(req: Request, d: Digest, c: SealFile.Codec, i: nat)
    requires DistinctIds(req.tasks) && i < |req.tasks|
    ensures var spec := req.tasks[i];
            Budget(ConfigOf(req, d, c), spec.id) <= LimitOf(spec) &&
            (Budget(ConfigOf(req, d, c), spec.id) == LimitOf(spec) <==>
             spec.accept.None? || spec.maxAttempts.None? || spec.maxAttempts.value < 0x1_0000_0000)
  {
    hide ConfigOf, Budget;
    if req.tasks[i].accept.Some? {
      assert LastOracle(req.tasks, req.tasks[i].id, i);
      BudgetOfOracle(req, d, c, req.tasks[i].id, i);
    } else {
      BudgetWithoutOracle(req, d, c, req.tasks[i].id);
    }
  }

  lemma {:induction false} SumBoundsBudget(req: Request, d: Digest, c: SealFile.Codec, i: nat)
    requires DistinctIds(req.tasks) && i <= |req.tasks|
    ensures TotalBudget(ConfigOf(req, d, c), TaskIds(req.tasks)[i..]) <= SumOfLimits(req.tasks[i..])
    decreases |req.tasks| - i
  {
    hide ConfigOf, Budget, LimitOf;
    if i < |req.tasks| {
      var ids, specs := TaskIds(req.tasks)[i..], req.tasks[i..];
      SumBoundsBudget(req, d, c, i + 1);
      BudgetIsLimitIffFits(req, d, c, i);
      assert ids[1..] == TaskIds(req.tasks)[i + 1..] && specs[1..] == req.tasks[i + 1..];
      assert ids[0] == req.tasks[i].id && specs[0] == req.tasks[i];
    }
  }

  lemma LifeKeepsToRequest(req: Request, d: Digest, c: SealFile.Codec, life: Life)
    requires LifeOk(ConfigOf(req, d, c), life)
    ensures KeepsToRequest(req, life)
  {
    hide Safe, DurablePromises, LimitOf;
    forall i | 0 <= i < |life.log| ensures EventAsked(req, life.log[i]) {
      EventIsAsked(req, d, c, life.log[i]);
    }
    PromisedBounds(ConfigOf(req, d, c), life);
    hide Promises, AcceptSpecs;
    JobsWithinLimits(req, d, c, life);
    if DistinctIds(req.tasks) {
      TotalWithinLimits(req, d, c, life);
    }
  }

  lemma PromisedBounds(cfg: Config, life: Life)
    requires Promises(cfg, life.start, life.end)
    ensures life.end.w.round <= cfg.maxReplans
    ensures forall r, t :: CountJobs(life.end.w.jobs, r, t) <= Budget(cfg, t)
    ensures |life.end.w.jobs| <= (cfg.maxReplans + 1) * TotalBudget(cfg, cfg.tasks)
  {
  }

  lemma JobsWithinLimits(req: Request, d: Digest, c: SealFile.Codec, life: Life)
    requires forall r, t :: CountJobs(life.end.w.jobs, r, t) <= Budget(ConfigOf(req, d, c), t)
    ensures forall t, r, i :: LastOracle(req.tasks, t, i) ==>
      CountJobs(life.end.w.jobs, r, t) <= LimitOf(req.tasks[i])
    ensures forall t, r :: (forall i :: !LastOracle(req.tasks, t, i)) ==> CountJobs(life.end.w.jobs, r, t) <= 1
  {
    hide ConfigOf, Budget, LimitOf, CountJobs;
    forall t, r, i | LastOracle(req.tasks, t, i) ensures CountJobs(life.end.w.jobs, r, t) <= LimitOf(req.tasks[i]) {
      BudgetOfOracle(req, d, c, t, i);
    }
    forall t, r | forall i :: !LastOracle(req.tasks, t, i) ensures CountJobs(life.end.w.jobs, r, t) <= 1 {
      BudgetWithoutOracle(req, d, c, t);
    }
  }

  lemma TotalWithinLimits(req: Request, d: Digest, c: SealFile.Codec, life: Life)
    requires var cfg := ConfigOf(req, d, c);
             DistinctIds(req.tasks) && |life.end.w.jobs| <= (cfg.maxReplans + 1) * TotalBudget(cfg, cfg.tasks)
    ensures |life.end.w.jobs| <= (req.maxReplans + 1) * SumOfLimits(req.tasks)
  {
    var cfg := ConfigOf(req, d, c);
    SumBoundsBudget(req, d, c, 0);
    assert TaskIds(req.tasks)[0..] == TaskIds(req.tasks) && req.tasks[0..] == req.tasks;
    assert cfg.maxReplans <= req.maxReplans;
    ProductGrows(cfg.maxReplans + 1, TotalBudget(cfg, cfg.tasks), req.maxReplans + 1, SumOfLimits(req.tasks));
  }

  lemma ProductGrows(a: nat, b: nat, x: nat, y: nat)
    requires a <= x && b <= y
    ensures a * b <= x * y
  {
    assert a * b <= x * b && x * b <= x * y;
  }

  lemma EventIsAsked(req: Request, d: Digest, c: SealFile.Codec, e: Event)
    requires EventOk(ConfigOf(req, d, c), e)
    ensures EventAsked(req, e)
  {
    if e.OracleStarted? {
      AcceptSpecsMean(req.tasks, e.task);
      hide AcceptSpecs;
    }
  }

  /** Two failures have one signature exactly if their trimmed outputs agree, for a digest without collisions. */
  lemma SameSignatureIffSameOutput(req: Request, d: Digest, c: SealFile.Codec, a: string, b: string)
    requires forall x, y :: d(x) == d(y) ==> x == y
    ensures ConfigOf(req, d, c).signature(a) == ConfigOf(req, d, c).signature(b) <==> Trim(a) == Trim(b)
  {
    hide Trim;
    if Utf8(Trim(a)) == Utf8(Trim(b)) {
      Utf8Injective(Trim(a), Trim(b));
    }
  }

  // ---- When the seal file survives ----

  /** `text` is a file that shows `f`. */
  ghost predicate IsText(c: SealFile.Codec, text: string, f: File) {
    SealFile.Faithful(c) && SealFile.Shows(c, text, f.view) && |text| == f.size
  }

  /** The actor's append is the file's: the text after any seal operation on a readable file shows the state after it.
      */
  lemma AppendIsOperation(req: Request, d: Digest, s: State, c: SealFile.Codec, text: string, op: SealFile.Op)
    requires IsText(c, text, s.seal) && s.seal.Readable() && s.seal.view.recs == s.chain
    ensures var rec := SealFile.Made(Sha(d), op, Tip(Sha(d), s.chain));
            op.written <= |c.encode(rec)| + 1 ==>
              var after := SealFile.AfterOp(c, Sha(d), text, op);
              IsText(c, after.0, Put(ConfigOf(req, d, c), s, rec, op.written).seal) &&
              (after.1.Ok? <==> op.written == |c.encode(rec)| + 1 && op.synced)
  {
    hide SealFile.Faithful, SealFile.Shows, CutDisks;
    SealFile.OpRefinesNext(c, Sha(d), text, s.seal.view, op);
    SealFile.OpSize(c, Sha(d), text, s.seal.view, op);
  }

  /** An actor that has sealed, each line to its end, leaves a file that can be read exactly when the file it found ends
      in a newline and the one it leaves is within the cap. */
  lemma SealingSurvivesIffLineEnded(cfg: Config, st: Start, s: State, c: SealFile.Codec, text: string, now: string)
    requires Safe(cfg, st, s) && s.extents != [] && AllFull(s.extents) && !st.seal.view.Broken?
    requires IsText(c, text, st.seal) && IsText(c, now, s.seal)
    ensures SealFile.Records(c, now).Ok? <==> SealFile.EndsLine(text) && |now| <= CAP
    ensures s.seal.Readable() <==> SealFile.Records(c, now).Ok?
  {
    hide SealFile.Faithful, SealFile.Shows;
    SealFile.ViewEndsLine(c, text, st.seal.view);
    SealFile.RecordsIffReadable(c, now, s.seal.view);
    SafeSeal(cfg, st, s);
    assert AllFull(s.extents[..|s.extents| - 1]);
  }

  /** A crash inside an append to whole lines can leave every record readable and the last line unended. */
  lemma CrashCanLoseNewline(cfg: Config, s: State, r: Record)
    requires s.seal.view == Whole(s.chain) && cfg.width(r) > 0
    ensures exists k ::
      0 <= k < |Appended(cfg, s, r).w.disks| &&
      Appended(cfg, s, r).w.disks[k] == Disk(s.issues, File(Unended(s.chain + [r]), s.seal.size + cfg.width(r)), s.run)
  {
    var n, width := |s.w.disks|, cfg.width(r);
    var cuts := CutDisks(Disk(s.issues, s.seal, s.run), r, width + 1, width);
    assert Appended(cfg, s, r).w.disks[n + width - 1] == cuts[width - 1];
  }

  /** The states of a resumed actor that finds task `t` spawned, folds in its captured response `ev` and reports it. */
  function Folded(cfg: Config, st: Start, run: RunMeta, plan: TaskPlan, used: set<JobId>, ev: FinalResponse,
    rec: Record): State
    requires plan.taskId in st.issues
  {
    var t, issue := plan.taskId, st.issues[plan.taskId];
    var s := HeadTaken(FirstState(cfg, st, Some(run), [plan], used), t);
    Told1(Wrote(cfg, Appended(cfg, s, rec), Absorbed(issue, ev, rec.hash)), t, OutcomeOf(ev), issue.meta.attempt)
  }

  /** An actor that finds task `plan.taskId` spawned with a job. */
  ghost predicate FindsSpawned(cfg: Config, st: Start, plan: TaskPlan, used: set<JobId>) {
    var t := plan.taskId;
    ConfigOk(cfg) && StartOk(cfg, st) && Named(ToSet(cfg.tasks), st.issues) && t in ToSet(cfg.tasks) &&
      t in st.issues &&
    st.issues[t].meta.status.Spawned? && st.issues[t].meta.jobId.Some? &&
    forall u :: u in st.issues && st.issues[u].meta.jobId.Some? ==> st.issues[u].meta.jobId.value in used
  }

  lemma OneId(plan: TaskPlan)
    ensures Ids([plan]) == {plan.taskId} && Distinct([plan])
  {
    assert [plan][0].taskId in Ids([plan]);
  }

  /** A resumed actor that can read the file folds in any captured response: the issue says done and names the record,
      the kernel hears it, and the file can be read afterwards exactly when it ended in a newline and the new line keeps
      it within the cap. */
  lemma ResumeKeepsChainIffRoom(
    cfg: Config, st: Start, run: RunMeta, plan: TaskPlan, used: set<JobId>, ev: FinalResponse, ts: string)
    requires FindsSpawned(cfg, st, plan, used) && st.seal.Readable() && ev.path.Some?
    ensures Live(cfg, st, FirstState(cfg, st, Some(run), [plan], used), [plan], {})
    ensures var issue := st.issues[plan.taskId];
            var rec := OutputRecord(cfg.hasher, st.chain, plan.taskId, issue.meta.agent, ev.sha, ev.path.value, ts);
            var s := Folded(cfg, st, run, plan, used, ev, rec);
            s.issues[plan.taskId].meta.status.Done? && s.issues[plan.taskId].meta.seal == Some(rec.hash) &&
            s.w.sent == [Report(0, plan.taskId, OutcomeDone(ev.path.value), issue.meta.attempt)] &&
            (s.seal.Readable() <==> st.seal.view.Whole? && st.seal.size + cfg.width(rec) + 1 <= CAP)
  {
    hide Live, Safe, CutDisks;
    OneId(plan);
    FirstLive(cfg, st, Some(run), [plan], used);
  }

  /** Two such files that are lost: an unended one, and one of whole lines with no room for another. */
  lemma ResumeCanLoseChain(
    cfg: Config, st: Start, run: RunMeta, plan: TaskPlan, used: set<JobId>, ev: FinalResponse, ts: string)
    requires FindsSpawned(cfg, st, plan, used) && st.seal.Readable() && ev.path.Some?
    requires st.seal.view.Unended? || st.seal.size == CAP
    ensures var issue := st.issues[plan.taskId];
            var rec := OutputRecord(cfg.hasher, st.chain, plan.taskId, issue.meta.agent, ev.sha, ev.path.value, ts);
            !Folded(cfg, st, run, plan, used, ev, rec).seal.Readable()
  {
    hide Live, FirstState, Folded;
    ResumeKeepsChainIffRoom(cfg, st, run, plan, used, ev, ts);
  }

  // ---- When a file carries another task's id ----

  /** An issue file of task `t` that names `u` in its metadata: folding in a response of `t` writes the file of `u`, as
      done, on a record of `t`. Unless a record of `u` happens to have that hash, `u` is no longer anchored. */
  lemma MisnamedFileLosesAnchor(
    cfg: Config, st: Start, run: RunMeta, plan: TaskPlan, used: set<JobId>, ev: FinalResponse, ts: string, u: TaskId)
    requires ConfigOk(cfg) && StartOk(cfg, st) && plan.taskId in st.issues && ev.path.Some?
    requires st.issues[plan.taskId].meta.id == u != plan.taskId
    ensures var issue := st.issues[plan.taskId];
            var rec := OutputRecord(cfg.hasher, st.chain, plan.taskId, issue.meta.agent, ev.sha, ev.path.value, ts);
            var s := Folded(cfg, st, run, plan, used, ev, rec);
            u in s.issues && s.issues[u].meta.status.Done? && s.issues[u].meta.seal == Some(rec.hash) &&
            ((forall k :: 0 <= k < |st.chain| ==> st.chain[k].hash != rec.hash) ==>
              !Anchored(s.issues[u].meta, s.chain))
  {
    hide CutDisks;
  }

  // ---- When done is not verified ----

  /** For every task that is not vouched for, on every chain without a passing verdict for it, there is a resume that
      reports it done without one: an issue that says `Done` (or `Verified` without an anchor) is reported as it stands,
      and the captured response of a spawned one is reported as soon as it is sealed. */
  lemma UnvouchedIsReportedUnverified(cfg: Config, st: Start, run: RunMeta, plan: TaskPlan, used: set<JobId>,
    ev: FinalResponse, ts: string)
    returns (s: State)
    requires ConfigOk(cfg) && StartOk(cfg, st) && !st.isNew && Named(ToSet(cfg.tasks), st.issues) &&
      plan.taskId in ToSet(cfg.tasks)
    requires forall u :: u in st.issues && st.issues[u].meta.jobId.Some? ==> st.issues[u].meta.jobId.value in used
    requires !Vouched(st, plan.taskId) && plan.taskId in cfg.accept && ev.path.Some?
    requires !HasVerdict(st.chain, 0, plan.taskId, st.issues[plan.taskId].meta.attempt, true)
    ensures var t, first := plan.taskId, FirstState(cfg, st, Some(run), [plan], used);
            var issue := st.issues[t];
            Live(cfg, st, first, [plan], {}) && Safe(cfg, st, first) &&
            s == (if issue.meta.status.Spawned?
                  then Folded(cfg, st, run, plan, used, ev,
                              OutputRecord(cfg.hasher, st.chain, t, issue.meta.agent, ev.sha, ev.path.value, ts))
                  else Told1(HeadTaken(first, t), t, SettledOutcome(issue), issue.meta.attempt)) &&
            |s.w.sent| == 1 && s.w.sent[0].task == t && s.w.sent[0].attempt == issue.meta.attempt &&
              s.w.sent[0].outcome.OutcomeDone? &&
            !HasVerdict(s.chain, 0, t, issue.meta.attempt, true)
  {
    hide Safe, Live;
    var t, first, issue := plan.taskId, FirstState(cfg, st, Some(run), [plan], used), st.issues[plan.taskId];
    OneId(plan);
    FirstLive(cfg, st, Some(run), [plan], used);
    FirstSafe(cfg, st, Some(run), [plan], used);
    if issue.meta.status.Spawned? {
      s := Folded(cfg, st, run, plan, used, ev,
        OutputRecord(cfg.hasher, st.chain, t, issue.meta.agent, ev.sha, ev.path.value, ts));
    } else {
      s := Told1(HeadTaken(first, t), t, SettledOutcome(issue), issue.meta.attempt);
    }
  }

  /** The same in terms of the issue file: the trimmed text of the response heard for the task's job is stored, and
      nothing if that is blank. */
  lemma HeardTextIsStored(req: Request, d: Digest, c: SealFile.Codec, st: Start, s: State, t: TaskId)
    requires Safe(ConfigOf(req, d, c), st, s) && t in s.w.planned && t in s.issues
    requires TitleFree(s.issues[t].meta.title) && (t in st.issues ==> !Contains(st.issues[t].prompt, RESPONSE_MARKER))
    requires HasAnswer(s.issues[t].meta.status) && Answerable(st, s.w.jobs, s.w.heard, t, s.issues[t].meta)
    ensures s.issues[t].meta.jobId.Some? && exists k ::
      Answers(s.w.heard, k, t, s.issues[t].meta.jobId.value) &&
      var text := s.w.heard[k].response.text;
      s.issues[t].response == if Blank(text) then None else Some(Trim(text))
  {
    hide Trim, Contains, Blank, TitleFree;
    AnswerAt(ConfigOf(req, d, c), st, s, t);
  }

  /** The prompt that a task is started with holds, for each dependency that this actor had answered, the text heard
      from the dependency's job: trimmed, in a block under the names of its agent and its task, in front of the body. */
  lemma DependentHoldsHeardText(req: Request, d: Digest, c: SealFile.Codec, st: Start, s: State, plan: TaskPlan,
    deps: seq<DepContext>, i: nat)
    requires Safe(ConfigOf(req, d, c), st, s) && DepsOf(s.issues, plan.dependsOn, deps) && i < |deps|
    requires plan.dependsOn[i] in s.w.planned
    requires var t := plan.dependsOn[i];
             TitleFree(s.issues[t].meta.title) &&
               (t in st.issues ==> !Contains(st.issues[t].prompt, RESPONSE_MARKER)) &&
             HasAnswer(s.issues[t].meta.status) && Answerable(st, s.w.jobs, s.w.heard, t, s.issues[t].meta)
    ensures var t := plan.dependsOn[i];
            s.issues[t].meta.jobId.Some? &&
            exists k ::
              Answers(s.w.heard, k, t, s.issues[t].meta.jobId.value) && !Blank(s.w.heard[k].response.text) &&
              HoldsBlock(Composed(plan.body, deps), s.issues[t].meta.agent, t, Trim(s.w.heard[k].response.text),
                plan.body)
  {
    hide Composed, Trim, TrimEnd, Contains, Blank, TitleFree;
    var t, cfg := plan.dependsOn[i], ConfigOf(req, d, c);
    AnswerAt(cfg, st, s, t);
    hide Safe;
    var k :| Answers(s.w.heard, k, t, s.issues[t].meta.jobId.value) &&
      s.issues[t].response == cfg.kept(Some(s.w.heard[k].response.text));
    var text := s.w.heard[k].response.text;
    assert deps[i].response == Trim(text);
    TrimmedEnd(text);
    PromptHoldsDependency(plan.body, deps, i);
    BlockReads(deps[i]);
    hide Concat, Blocks, Block;
    assert Framed(Composed(plan.body, deps), Blocks(deps[..i]), Block(deps[i]), Blocks(deps[i + 1..]), plan.body);
  }

  predicate Framed(prompt: string, before: string, block: string, after: string, body: string) {
    prompt == before + block + after + "---\n\n" + body
  }

  /** Somewhere in the prompt stands the block, and the rule and the body come behind it. */
  ghost predicate HoldsBlock(prompt: string, agent: string, task: TaskId, answer: string, body: string) {
    var block := Concat(["## Context from @", agent, " (dependency task `", task, "`)\n\n", answer, "\n\n"]);
    exists before, after :: Framed(prompt, before, block, after, body)
  }

  /** Every job's command line splits into ten words that name the run's RFC, the job's own task and the project. */
  lemma JobLinesNameTheirTask(req: Request, d: Digest, c: SealFile.Codec, st: Start, s: State, k: nat)
    requires Safe(ConfigOf(req, d, c), st, s) && k < |s.w.jobs|
    ensures Split(s.w.jobs[k].command) == Some(TaskWords(req.rfcId, s.w.jobs[k].task, s.w.jobs[k].agent, req.project))
  {
    var j := s.w.jobs[k];
    assert JobOk(ConfigOf(req, d, c), st, s, j);
    CommandLineSplits(req.rfcId, j.task, j.agent, req.project);
  }

  /** A re-plan leaves an issue read from its file with its prompt and no response, however often it is named, exactly
      when its title holds no marker. An issue it does not name is untouched. */
  lemma ReplanClearsIffTitleFree(req: Request, d: Digest, c: SealFile.Codec, issues: map<TaskId, Issue>,
    ids: seq<TaskId>, t: TaskId, written: Issue)
    requires t in issues && issues[t] == Reread(written)
    ensures var after := ResetAll(ConfigOf(req, d, c), issues, ids);
            t in after && (t in ToSet(ids) ==> (after[t] == Reset(issues[t]) <==> TitleFree(written.meta.title))) &&
            (t !in ToSet(ids) ==> after[t] == issues[t])
  {
    hide Reread, Contains;
    if TitleFree(written.meta.title) {
      RereadTwice(written);
      FreeTitleClears(req, d, c, issues, ids, t);
    } else {
      RereadIsNormal(written);
      MarkedTitleSpoils(req, d, c, issues, ids, t);
    }
  }

  lemma {:induction false} FreeTitleClears(req: Request, d: Digest, c: SealFile.Codec, issues: map<TaskId, Issue>,
    ids: seq<TaskId>, t: TaskId)
    requires t in issues && Reread(issues[t]) == issues[t] && TitleFree(issues[t].meta.title)
    ensures var after := ResetAll(ConfigOf(req, d, c), issues, ids);
            t in after && after[t] == if t in ToSet(ids) then Reset(issues[t]) else issues[t]
  {
    hide Reread, Contains;
    if ids != [] {
      var n := |ids| - 1;
      FreeTitleClears(req, d, c, issues, ids[..n], t);
      LastOfSet(ids);
      RewriteKeepsPrompt(issues[t], ResetMeta(issues[t].meta), None);
    }
  }

  /** What a marked title has done to an issue by the time it was reset. */
  ghost predicate Spoiled(before: Issue, after: Issue) {
    after.meta == ResetMeta(before.meta) && !Contains(after.prompt, RESPONSE_MARKER) &&
      Trim(after.prompt) == after.prompt &&
    if Contains(before.meta.title, RESPONSE_MARKER) then after.response.Some? else |after.prompt| > |before.prompt|
  }

  lemma {:induction false} MarkedTitleSpoils(req: Request, d: Digest, c: SealFile.Codec, issues: map<TaskId, Issue>,
    ids: seq<TaskId>, t: TaskId)
    requires t in issues && !TitleFree(issues[t].meta.title) && Normalized(issues[t]) == issues[t] &&
      !Contains(issues[t].prompt, RESPONSE_MARKER)
    ensures var after := ResetAll(ConfigOf(req, d, c), issues, ids);
            t in after && if t in ToSet(ids) then Spoiled(issues[t], after[t]) else after[t] == issues[t]
  {
    hide Reread, Contains, Trim;
    if ids != [] {
      var n := |ids| - 1;
      MarkedTitleSpoils(req, d, c, issues, ids[..n], t);
      LastOfSet(ids);
      var before := ResetAll(ConfigOf(req, d, c), issues, ids[..n])[t];
      RereadIsNormal(Reset(before));
      MarkedTitle(ResetMeta(issues[t].meta), before.prompt);
    }
  }

  lemma LastOfSet(ids: seq<TaskId>)
    requires ids != []
    ensures ToSet(ids) == ToSet(ids[..|ids| - 1]) + {ids[|ids| - 1]}
  {
    var n := |ids| - 1;
    assert forall i :: 0 <= i < n ==> ids[..n][i] == ids[i];
  }
}
